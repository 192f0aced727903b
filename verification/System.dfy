/**
 The client composed with its connections: for each connection two byte channels
 and a server that answers every command frame with exactly one non-event frame,
 in order, and may emit EVENT frames at any time. A run is any interleaving of
 user calls, promise continuations, socket callbacks, timers and server steps.
 */
module System {
  import opened Bytes
  import opened Frames
  import opened Backlog
  import opened ClientSteps

  datatype Served = Served(cmd: Frame, reply: Frame)

  /** One connection, from the moment it opened. */
  datatype Conn = Conn(
    token: Option<Token>,        // the token held when it opened
    live: seq<Entry>,            // the wire-subscribed entries when it opened
    parked: seq<Request>,        // the requests that were waiting for it to open
    sent: seq<Request>,          // requests submitted on it, in order
    unsent: bytes,               // submitted bytes the socket has not accepted
    c2s: bytes,                  // accepted, not yet received by the server
    srvIn: bytes,                // the server's reassembly buffer
    greeted: bool,               // the server has taken the magic
    served: seq<Served>,         // commands answered, in order
    transit: seq<Frame>,         // frames emitted, not yet consumed by the client
    s2c: bytes)                  // emitted bytes not yet received by the client

  datatype Sys = Sys(c: Client, conns: seq<Conn>)

  const INIT_SYS: Sys := Sys(INIT, [])

  datatype Step =
    | UserRequest(frame: Frame)
    | UserAuth(token: Token)
    | UserSubscribe(channel: bytes, handler: nat, filter: Option<bytes>)
    | UserUnsubscribe(channel: bytes, handler: nat)
    | UserClose
    | Wake
    | SendFrame(w: int)
    | RunContinuation
    | DialOk(ws: seq<int>)
    | DialFail(jitter: real)
    | ReconnectTimer
    | Timeout(id: nat, jitter: real)
    | SocketClosed(jitter: real)
    | Data(n: nat)
    | StrayData(chunk: bytes)
    | DrainSocket(ws: seq<int>)
    | Deliver(k: nat, n: nat)
    | Greet(k: nat)
    | Serve(k: nat, reply: Frame)
    | Emit(k: nat, event: Frame)

  predicate Jitter(j: real) { 0.0 <= j < 1.0 }

  /** A user call or a promise continuation; everything else waits until the client is Quiet. */
  predicate RunsAnyTime(step: Step)
  {
    step.UserRequest? || step.UserAuth? || step.UserSubscribe? || step.UserUnsubscribe? || step.UserClose?
    || step.Wake? || step.SendFrame? || step.RunContinuation?
    || step.Deliver? || step.Greet? || step.Serve? || step.Emit?
  }

  /**
   When a step can happen. Environment assumptions, none of them checked by the
   client: a socket that was ended accepts no bytes; writes made while opening and
   draining do not fail and the magic is taken whole; callbacks of a dropped socket
   (stray data, a late close) come only while no later connection is open.
   */
  predicate Enabled(s: Sys, step: Step)
  {
    && (RunsAnyTime(step) || Quiet(s.c))
    && match step
       case Wake => s.c.woken != []
       case SendFrame(w) =>
         s.c.released != [] && w <= |Encode(s.c.released[0].frame)| && (!s.c.live ==> w < 0)
       case RunContinuation => s.c.handled < |s.c.log|
       case DialOk(ws) => s.c.dialing && HelloResults(Hello(s.c.token, Wired(s.c.heap, s.c.subs)), ws)
       case DialFail(j) => s.c.dialing && Jitter(j)
       case ReconnectTimer => s.c.timer.Some?
       case Timeout(id, j) => id in s.c.timers && Jitter(j)
       case SocketClosed(j) => (s.c.gen > 0 || s.c.dialing) && Jitter(j)
       case Data(n) => s.c.live && s.conns != [] && n <= |Last(s).s2c|
       case StrayData(_) => !s.c.live
       case DrainSocket(ws) => s.c.live && FlushResults(s.c.backlog, ws) && NoFailure(ws)
       case Deliver(k, n) => k < |s.conns| && n <= |s.conns[k].c2s|
       case Greet(k) => k < |s.conns| && !s.conns[k].greeted && |s.conns[k].srvIn| >= 2
       case Serve(k, reply) =>
         k < |s.conns| && s.conns[k].greeted && TryConsume(s.conns[k].srvIn).Got? && !IsEvent(reply)
       case Emit(k, event) => k < |s.conns| && IsEvent(event)
       case _ => true
  }

  function Last(s: Sys): Conn
    requires s.conns != []
  {
    s.conns[|s.conns| - 1]
  }

  function SetLast(s: Sys, conn: Conn): Sys
  {
    if s.conns == [] then s else s.(conns := s.conns[|s.conns| - 1 := conn])
  }

  /** The current connection after the client submitted rs, of which the socket took `wrote`. */
  function Submit(conn: Conn, rs: seq<Request>, o: Out): Conn
  {
    conn.(sent := conn.sent + rs, c2s := conn.c2s + o.wrote, unsent := Concat(o.c.backlog))
  }

  function Open(c: Client, o: Out): Conn
  {
    var rs := if |c.issued| <= |o.c.issued| then o.c.issued[|c.issued|..] else [];
    Conn(c.token, Wired(c.heap, c.subs), c.waiters, rs, Concat(o.c.backlog), o.wrote, [], false, [], [], [])
  }

  function Drop(fs: seq<Frame>, n: nat): seq<Frame> { if n <= |fs| then fs[n..] else [] }

  function Apply(cfg: Config, s: Sys, step: Step): Sys
    requires Enabled(s, step)
  {
    var c := s.c;
    match step
    case UserRequest(frame) => s.(c := Issue(c, frame, Direct))
    case UserAuth(token) => s.(c := Issue(c, AuthFrame(token), AuthOf(token)))
    case UserSubscribe(channel, handler, filter) => s.(c := Subscribe(c, channel, handler, filter))
    case UserUnsubscribe(channel, handler) => s.(c := RemoveHandler(c, channel, handler))
    case UserClose => s.(c := Close(c))
    case Wake => s.(c := WakeNext(c))
    case SendFrame(w) =>
      var o := SendNext(c, w);
      var taken := c.backlog != [] || w >= 0;
      if c.live && taken && s.conns != [] then SetLast(s, Submit(Last(s), [c.released[0]], o)).(c := o.c)
      else s.(c := o.c)
    case RunContinuation => s.(c := Continue(c))
    case DialOk(ws) =>
      var o := OnOpen(c, ws);
      Sys(o.c, s.conns + [Open(c, o)])
    case DialFail(j) => s.(c := DialFailed(cfg, c, j))
    case ReconnectTimer => s.(c := ReconnectFires(c))
    case Timeout(id, j) => s.(c := RequestTimeout(cfg, c, id, j))
    case SocketClosed(j) => s.(c := HandleDisconnect(cfg, c, j))
    case Data(n) =>
      var conn := Last(s);
      var frames := |ParseAll(c.inbound + conn.s2c[..n]).0|;
      SetLast(s, conn.(s2c := conn.s2c[n..], transit := Drop(conn.transit, frames)))
      .(c := OnData(c, conn.s2c[..n]))
    case StrayData(chunk) => s.(c := OnData(c, chunk))
    case DrainSocket(ws) =>
      var o := Drain(c, ws);
      if s.conns != [] then SetLast(s, Submit(Last(s), [], o)).(c := o.c) else s.(c := o.c)
    case Deliver(k, n) =>
      var conn := s.conns[k];
      s.(conns := s.conns[k := conn.(c2s := conn.c2s[n..], srvIn := conn.srvIn + conn.c2s[..n])])
    case Greet(k) =>
      var conn := s.conns[k];
      s.(conns := s.conns[k := conn.(greeted := true, srvIn := conn.srvIn[2..])])
    case Serve(k, reply) =>
      var conn := s.conns[k];
      var Got(cmd, rest) := TryConsume(conn.srvIn);
      s.(conns := s.conns[k := conn.(srvIn := rest, served := conn.served + [Served(cmd, reply)],
                                     transit := conn.transit + [reply], s2c := conn.s2c + Encode(reply))])
    case Emit(k, event) =>
      var conn := s.conns[k];
      s.(conns := s.conns[k := conn.(transit := conn.transit + [event], s2c := conn.s2c + Encode(event))])
  }

  /** A run from s through the given steps ends in t. */
  predicate Run(cfg: Config, s: Sys, steps: seq<Step>, t: Sys)
    decreases |steps|
  {
    if steps == [] then s == t
    else Enabled(s, steps[0]) && Run(cfg, Apply(cfg, s, steps[0]), steps[1..], t)
  }
}
