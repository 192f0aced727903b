/**
 The `WormDB` object itself: fields updated in place by callbacks and calls. Every
 method is proved against the value-level function of `ClientSteps` for the same
 block. `Session` puts the calls on an object together into a run.
 */
module WormDBClass {
  import opened Bytes
  import opened Frames
  import opened Backlog
  import opened ClientSteps
  import opened Lifecycle
  import opened Correlation

  /** A socket: how much of a write it accepts is its own business. */
  class Socket {
    var accepted: bytes

    method Write(data: bytes) returns (w: int)
      modifies this
      ensures -1 <= w <= |data|
      ensures accepted == old(accepted) + (if w > 0 then data[..w] else [])
    {
      w :| -1 <= w <= |data|;
      if w > 0 {
        accepted := accepted + data[..w];
      }
    }
  }

  /** What the promise runtime holds for the object, and counters of what happened to it. */
  datatype Runtime = Runtime(woken: seq<Request>, released: seq<Request>, issued: seq<Request>,
                             log: seq<Settlement>, handled: nat, dials: nat, unopened: bool)

  class WormDB {
    const cfg: Config
    var stateValue: Phase
    var socket: Socket?
    var connecting: bool
    var reconnectTimer: Option<real>
    var reconnectAttempts: nat
    var generation: nat
    var inbound: bytes
    var pendingQueue: seq<Request>
    var timers: map<nat, nat>
    var writeBacklog: seq<bytes>
    var readyWaiters: seq<Request>
    var authToken: Option<Token>
    var heap: seq<Entry>
    var subs: seq<nat>
    var rt: Runtime

    function Abs(): Client
      reads this
    {
      Client(stateValue, socket != null, connecting, reconnectTimer, reconnectAttempts, generation, inbound,
             pendingQueue, timers, writeBacklog, readyWaiters, rt.woken, rt.released, authToken, heap, subs,
             rt.issued, rt.log, rt.handled, rt.dials, rt.unopened)
    }

    constructor (cfg: Config)
      ensures Abs() == INIT && this.cfg == cfg
    {
      this.cfg := cfg;
      stateValue, socket, connecting, reconnectTimer, reconnectAttempts := Idle, null, false, None, 0;
      generation, inbound, pendingQueue, timers, writeBacklog := 0, [], [], map[], [];
      readyWaiters, authToken, heap, subs := [], None, [], [];
      rt := Runtime([], [], [], [], 0, 0, true);
    }

    // -------------------------------------------------------------------------
    // Backpressure-aware writes
    // -------------------------------------------------------------------------

    /** ok is false where the source throws; w is what the socket returned, if it was asked. */
    method WriteOrQueue(sock: Socket, data: bytes) returns (ok: bool, w: int)
      modifies this`writeBacklog, sock
      ensures w <= |data| && (ok ==> 0 <= w)
      ensures ok <==> Backlog.WriteOrQueue(old(writeBacklog), data, w).Some?
      ensures ok ==> Backlog.WriteOrQueue(old(writeBacklog), data, w).value.backlog == writeBacklog
      ensures ok ==> sock.accepted == old(sock.accepted) + Backlog.WriteOrQueue(old(writeBacklog), data, w).value.wrote
      ensures !ok ==> writeBacklog == old(writeBacklog) && sock.accepted == old(sock.accepted)
    {
      if |writeBacklog| > 0 {
        writeBacklog := writeBacklog + [data];
        return true, 0;
      }
      w := sock.Write(data);
      if w < 0 {
        return false, w;
      }
      if w < |data| {
        writeBacklog := writeBacklog + [data[w..]];
      }
      ok := true;
    }

    method FlushBacklog(sock: Socket) returns (ws: seq<int>)
      modifies this`writeBacklog, sock
      ensures FlushResults(old(writeBacklog), ws)
      ensures writeBacklog == Flush(old(writeBacklog), ws).backlog
      ensures sock.accepted == old(sock.accepted) + Flush(old(writeBacklog), ws).wrote
    {
      hide Flush, FlushResults, Flushing;
      ws := [];
      ghost var start, wrote: bytes := writeBacklog, [];
      FlushBegins(start);
      while |writeBacklog| > 0
        invariant sock.accepted == old(sock.accepted) + wrote
        invariant Flushing(start, ws, wrote, writeBacklog)
        decreases |writeBacklog|
      {
        var chunk := writeBacklog[0];
        var w := sock.Write(chunk);
        FlushTurn(start, ws, wrote, writeBacklog, w);
        AppendAssoc(old(sock.accepted), wrote, if w > 0 then chunk[..w] else []);
        if w < 0 {
          writeBacklog := writeBacklog[1..];
          ws := ws + [w];
          continue;
        }
        ws := ws + [w];
        if w < |chunk| {
          writeBacklog := [chunk[w..]] + writeBacklog[1..];
          assert chunk[..w] == if w > 0 then chunk[..w] else [];
          return;
        }
        writeBacklog := writeBacklog[1..];
        assert chunk == if w > 0 then chunk[..w] else [];
        wrote := wrote + chunk;
      }
      FlushEnds(start, ws, wrote);
    }

    // -------------------------------------------------------------------------
    // Request engine
    // -------------------------------------------------------------------------

    method EnqueuePending(r: Request)
      modifies this`pendingQueue, this`timers
      ensures pendingQueue == old(pendingQueue) + [r] && timers == old(timers)[r.id := generation]
    {
      timers := timers[r.id := generation];
      pendingQueue := pendingQueue + [r];
    }

    /** requestRaw after its await: the socket is the one ensureReady returned. */
    method SendReleased(sock: Socket) returns (w: int)
      requires rt.released != []
      modifies this, sock
      ensures socket == old(socket)
      ensures w <= |Encode(old(rt.released)[0].frame)|
      ensures Abs() == SendNext(old(Abs()), w).c
      ensures sock.accepted == old(sock.accepted) + SendNext(old(Abs()), w).wrote
    {
      hide Encode, Rejections, Backlog.WriteOrQueue, SendNext;
      ghost var c := Abs();
      ghost var queue, armed, settled := pendingQueue, timers, rt.log;
      assert c.pending == queue && c.timers == armed && c.log == settled;
      var r := rt.released[0];
      rt := rt.(released := rt.released[1..]);
      EnqueuePending(r);
      var ok: bool;
      ok, w := WriteOrQueue(sock, Encode(r.frame));
      SendNextFields(c, w);
      if !ok {
        RejectLast(queue, r);
      }
    }

    /** The catch block of requestRaw: take the newest entry back and reject it. */
    method RejectLast(ghost queue: seq<Request>, ghost r: Request)
      requires pendingQueue == queue + [r]
      modifies this`pendingQueue, this`timers, this`rt
      ensures pendingQueue == queue && timers == old(timers) - {r.id}
      ensures rt == old(rt).(log := old(rt).log + [Settlement(r, Rejected)])
    {
      var n := |pendingQueue| - 1;
      var pending := pendingQueue[n];
      pendingQueue := pendingQueue[..n];
      timers := timers - {pending.id};
      rt := rt.(log := rt.log + [Settlement(pending, Rejected)]);
    }

    method RejectAllPending()
      modifies this`pendingQueue, this`timers, this`rt
      ensures pendingQueue == [] && timers == old(timers) - Ids(old(pendingQueue))
      ensures rt == old(rt).(log := old(rt.log) + Rejections(old(pendingQueue)))
    {
      assert Rejections([]) == [] && Ids([]) == {};
      if |pendingQueue| == 0 {
        return;
      }
      var out := pendingQueue;
      pendingQueue := [];
      for i := 0 to |out|
        invariant pendingQueue == []
        invariant timers == old(timers) - Ids(out[..i])
        invariant rt == old(rt).(log := old(rt).log + Rejections(out[..i]))
      {
        assert out[..i + 1] == out[..i] + [out[i]];
        RejectOneMore(out[..i], out[i]);
        timers := timers - {out[i].id};
        rt := rt.(log := rt.log + [Settlement(out[i], Rejected)]);
      }
      assert out[..|out|] == out;
    }

    method RejectReadyWaiters()
      modifies this`readyWaiters, this`rt
      ensures readyWaiters == [] && rt == old(rt).(log := old(rt.log) + Rejections(old(readyWaiters)))
    {
      assert Rejections([]) == [];
      var out := readyWaiters;
      readyWaiters := [];
      for i := 0 to |out|
        invariant readyWaiters == []
        invariant rt == old(rt).(log := old(rt).log + Rejections(out[..i]))
      {
        assert out[..i + 1] == out[..i] + [out[i]];
        RejectOneMore(out[..i], out[i]);
        rt := rt.(log := rt.log + [Settlement(out[i], Rejected)]);
      }
      assert out[..|out|] == out;
    }

    method OpenSocket()
      modifies this`connecting, this`rt
      ensures Abs() == ClientSteps.OpenSocket(old(Abs()))
    {
      if connecting || stateValue == Closed {
        return;
      }
      connecting := true;
      rt := rt.(dials := rt.dials + 1);
    }

    /** ensureReady on behalf of r, until it returns, throws or parks; its loop goes round at most twice. */
    method EnsureReady(r: Request)
      modifies this
      ensures Abs() == ClientSteps.EnsureReady(old(Abs()), r) && socket == old(socket)
    {
      hide ClientSteps.OpenSocket, Rejections;
      ghost var c := Abs();
      ghost var dialed := false;
      while true
        invariant socket == old(socket)
        invariant !dialed ==> Abs() == c
        invariant dialed ==>
                    && c.state != Closed && !(c.live && c.state == Ready) && !c.dialing && c.timer.None?
                    && Abs() == ClientSteps.OpenSocket(if c.state == Idle then c.(state := Connecting) else c)
                    && Abs().dialing && Abs().state != Closed && !(Abs().live && Abs().state == Ready)
        decreases !dialed
      {
        ghost var d := Abs();
        if stateValue == Closed {
          RejectOne(r);
          rt := rt.(log := rt.log + [Settlement(r, Rejected)]);
          assert Abs() == Reject(d, [r]);
          return;
        }
        if socket != null && stateValue == Ready {
          rt := rt.(released := rt.released + [r]);
          assert Abs() == d.(released := d.released + [r]);
          return;
        }
        if !connecting && reconnectTimer == None {
          if stateValue == Idle {
            stateValue := Connecting;
          }
          assert Abs() == if d.state == Idle then d.(state := Connecting) else d;
          OpenSocketDials(Abs());
          OpenSocket();
          dialed := true;
          continue;
        }
        readyWaiters := readyWaiters + [r];
        assert Abs() == d.(waiters := d.waiters + [r]);
        OpenSocketKeepsWaiters(if c.state == Idle then c.(state := Connecting) else c);
        return;
      }
    }

    method Request(frame: Frame, origin: Origin)
      modifies this
      ensures Abs() == Issue(old(Abs()), frame, origin) && socket == old(socket)
    {
      hide ClientSteps.EnsureReady;
      var r := ClientSteps.Request(|rt.issued|, frame, origin);
      rt := rt.(issued := rt.issued + [r]);
      EnsureReady(r);
    }

    // -------------------------------------------------------------------------
    // Connection lifecycle
    // -------------------------------------------------------------------------

    /** One handshake request of onOpen: enqueue, then write. */
    method SendHelloFrame(sock: Socket, frame: Frame) returns (ok: bool, w: int)
      modifies this`rt, this`pendingQueue, this`timers, this`writeBacklog, sock
      ensures ok ==> 0 <= w <= |Encode(frame)|
      ensures ok ==> Backlog.WriteOrQueue(old(writeBacklog), Encode(frame), w).Some?
      ensures ok ==> var r := ClientSteps.Request(|old(rt.issued)|, frame, Handshake);
                     var x := Backlog.WriteOrQueue(old(writeBacklog), Encode(frame), w).value;
                     && rt == old(rt).(issued := old(rt.issued) + [r])
                     && pendingQueue == old(pendingQueue) + [r] && timers == old(timers)[r.id := generation]
                     && writeBacklog == x.backlog && sock.accepted == old(sock.accepted) + x.wrote
    {
      hide Encode;
      var r := ClientSteps.Request(|rt.issued|, frame, Handshake);
      rt := rt.(issued := rt.issued + [r]);
      EnqueuePending(r);
      ok, w := WriteOrQueue(sock, Encode(frame));
    }

    /** Part of the handshake is sent: what has changed since `up` and `was`. */
    ghost predicate Greeting(up: Client, was: Runtime, base: bytes, sent: seq<Frame>, ws: seq<int>, sock: Socket)
      reads this, sock
    {
      && HelloResults(sent, ws)
      && var o := SendHello(up, sent, ws);
         && rt == was.(issued := o.c.issued) && pendingQueue == o.c.pending && timers == o.c.timers
         && writeBacklog == o.c.backlog && sock.accepted == base + o.wrote
    }

    /** One more frame of the handshake. */
    method SendGreeting(sock: Socket, f: Frame, ghost up: Client, ghost was: Runtime, ghost base: bytes,
                        ghost sent: seq<Frame>, ghost ws: seq<int>) returns (ok: bool, w: int)
      requires Greeting(up, was, base, sent, ws, sock) && generation == up.gen
      modifies this`rt, this`pendingQueue, this`timers, this`writeBacklog, sock
      ensures ok ==> Greeting(up, was, base, sent + [f], ws + [w], sock)
    {
      hide Encode, SendHello, HelloResults, Backlog.WriteOrQueue;
      ok, w := SendHelloFrame(sock, f);
      if ok {
        HelloGrows(up, sent, ws, f, w, base);
      }
    }

    /** The re-AUTH and the resubscribe loop of onOpen; `ok` is false if a write threw. */
    method SendGreetings(sock: Socket, ghost up: Client, ghost was: Runtime, ghost base: bytes)
      returns (ok: bool, ws: seq<int>)
      requires Greeting(up, was, base, [], [], sock) && generation == up.gen
      modifies this`rt, this`pendingQueue, this`timers, this`writeBacklog, sock
      ensures ok ==> Greeting(up, was, base, Hello(authToken, Wired(heap, subs)), ws, sock)
    {
      hide Encode, SendHello, Hello, HelloResults, Wired, At, SubFrame, AuthFrame, WormDB.Greeting;
      ghost var sent: seq<Frame> := [];
      ws, ok := [], true;
      if authToken.Some? {
        var w: int;
        ok, w := SendGreeting(sock, AuthFrame(authToken.value), up, was, base, sent, ws);
        if !ok { return; }
        sent, ws := sent + [AuthFrame(authToken.value)], ws + [w];
      }
      HelloWithoutSubs(authToken, heap);
      assert subs[..0] == [];
      for i := 0 to |subs|
        invariant ok && sent == Hello(authToken, Wired(heap, subs[..i]))
        invariant Greeting(up, was, base, sent, ws, sock)
      {
        var entry := At(heap, subs[i]);
        HelloSnoc(authToken, heap, subs, i);
        if !entry.wired { continue; }
        var w: int;
        ok, w := SendGreeting(sock, SubFrame(entry.channel, entry.filter), up, was, base, sent, ws);
        if !ok { return; }
        sent, ws := sent + [SubFrame(entry.channel, entry.filter)], ws + [w];
      }
      assert subs[..|subs|] == subs;
    }

    /** The frames of the handshake, as the value form submits them. */
    method SendHandshake(sock: Socket) returns (ok: bool, ws: seq<int>)
      modifies this`rt, this`pendingQueue, this`timers, this`writeBacklog, sock
      ensures ok ==> HelloResults(Hello(authToken, Wired(heap, subs)), ws)
      ensures ok ==> Abs() == SendHello(old(Abs()), Hello(authToken, Wired(heap, subs)), ws).c
      ensures ok ==> sock.accepted ==
                     old(sock.accepted) + SendHello(old(Abs()), Hello(authToken, Wired(heap, subs)), ws).wrote
    {
      hide SendHello, Hello, HelloResults, Wired;
      ghost var up := Abs();
      HelloBegins(up);
      assert sock.accepted + [] == sock.accepted;
      ok, ws := SendGreetings(sock, up, rt, sock.accepted);
      if ok {
        SendHelloFields(up, Hello(authToken, Wired(heap, subs)), ws);
      }
    }

    /** onOpen before the handshake: a new generation and empty buffers for the new socket. */
    method AdoptSocket(sock: Socket)
      modifies this`connecting, this`generation, this`socket, this`inbound, this`writeBacklog
      ensures socket == sock && Abs() == Adopted(old(Abs()))
    {
      connecting := false;
      generation := generation + 1;
      socket := sock;
      inbound := [];
      writeBacklog := [];
    }

    /** onOpen after the handshake: ready, budget reset, waiters released. */
    method BecomeReady()
      modifies this`stateValue, this`reconnectAttempts, this`rt, this`readyWaiters
      ensures Abs() == Opened(old(Abs()))
    {
      stateValue := Ready;
      reconnectAttempts := 0;
      var waiters := readyWaiters;
      readyWaiters := [];
      rt := rt.(dials := 0, unopened := false, woken := rt.woken + waiters);
    }

    /**
     The open callback. `ok` is false if a handshake write threw, which the source does not
     handle; `magic` is how much of the magic the socket took, which the source does not check.
     */
    method OnOpen(sock: Socket) returns (ok: bool, magic: int, ws: seq<int>)
      modifies this, sock
      ensures ok ==> HelloResults(Hello(old(authToken), Wired(old(heap), old(subs))), ws)
      ensures ok ==> Abs() == ClientSteps.OnOpen(old(Abs()), ws).c && socket == sock
      ensures ok && magic == |MAGIC| ==> sock.accepted == old(sock.accepted) + ClientSteps.OnOpen(old(Abs()), ws).wrote
    {
      hide Encode, SendHello, Hello, Wired, Opened, ClientSteps.OnOpen;
      ghost var c, taken := Abs(), sock.accepted;
      AdoptSocket(sock);
      ghost var up := Abs();
      magic := sock.Write(MAGIC);
      ok, ws := SendHandshake(sock);
      if !ok { return; }
      OpenInThreeParts(c, ws);
      BecomeReady();
      AppendAssoc(taken, MAGIC, SendHello(up, Hello(up.token, Wired(up.heap, up.subs)), ws).wrote);
      assert MAGIC[..2] == MAGIC;
    }

    method ScheduleReconnect(jitter: real)
      modifies this`stateValue, this`readyWaiters, this`rt, this`reconnectAttempts, this`reconnectTimer
      ensures Abs() == ClientSteps.ScheduleReconnect(cfg, old(Abs()), jitter)
    {
      hide Rejections, Delay, Backoff;
      if reconnectTimer != None || connecting || stateValue == Closed {
        return;
      }
      if cfg.maxAttempts.Some? && reconnectAttempts >= cfg.maxAttempts.value {
        stateValue := Closed;
        RejectReadyWaiters();
        return;
      }
      var delay := Delay(Backoff(cfg, reconnectAttempts), jitter);
      reconnectAttempts := reconnectAttempts + 1;
      reconnectTimer := Some(delay);
    }

    /** The first half of handleDisconnect: forget the socket and reject what was in flight. */
    method DropConnection()
      modifies this`socket, this`inbound, this`writeBacklog, this`pendingQueue, this`timers, this`rt
      ensures socket == null && Abs() == Dropped(old(Abs()), stateValue)
    {
      hide Ids, Rejections;
      ghost var c := Abs();
      ghost var queue, armed, settled := pendingQueue, timers, rt.log;
      assert c.pending == queue && c.timers == armed && c.log == settled;
      socket, inbound, writeBacklog := null, [], [];
      RejectAllPending();
    }

    method HandleDisconnect(jitter: real)
      modifies this
      ensures Abs() == ClientSteps.HandleDisconnect(cfg, old(Abs()), jitter) && socket == null
    {
      hide Ids, Rejections, ClientSteps.ScheduleReconnect, ClientSteps.HandleDisconnect;
      ghost var c := Abs();
      DisconnectFields(cfg, c, jitter);
      DropConnection();
      if stateValue == Closed {
        return;
      }
      if !cfg.enabled {
        stateValue := Idle;
        RejectReadyWaiters();
        return;
      }
      stateValue := Reconnecting;
      ScheduleReconnect(jitter);
    }

    /** The rejection handler of Bun.connect. */
    method OnDialFailed(jitter: real)
      modifies this
      ensures Abs() == DialFailed(cfg, old(Abs()), jitter) && socket == null
    {
      hide ClientSteps.HandleDisconnect;
      connecting := false;
      HandleDisconnect(jitter);
    }

    method OnReconnectTimer()
      modifies this`reconnectTimer, this`connecting, this`rt
      ensures Abs() == ReconnectFires(old(Abs()))
    {
      reconnectTimer := None;
      OpenSocket();
    }

    method FailConnection(jitter: real)
      modifies this
      ensures Abs() == ClientSteps.FailConnection(cfg, old(Abs()), jitter)
      ensures socket == null || socket == old(socket)
    {
      hide ClientSteps.HandleDisconnect, Ids, Rejections;
      RejectAllPending();
      if socket != null {
        socket := null;
        HandleDisconnect(jitter);
      }
    }

    method OnRequestTimer(id: nat, jitter: real)
      requires id in timers
      modifies this
      ensures Abs() == RequestTimeout(cfg, old(Abs()), id, jitter)
      ensures socket == null || socket == old(socket)
    {
      hide ClientSteps.FailConnection;
      var captured := timers[id];
      timers := timers - {id};
      if generation == captured {
        FailConnection(jitter);
      }
    }

    method Close()
      modifies this
      ensures Abs() == ClientSteps.Close(old(Abs())) && socket == null
    {
      hide Ids, Rejections, ClientSteps.Close;
      ghost var queue, parked, settled := pendingQueue, readyWaiters, rt.log;
      CloseFields(Abs());
      assert ClientSteps.Close(Abs()).log == settled + Rejections(queue) + Rejections(parked);
      stateValue, reconnectTimer := Closed, None;
      RejectAllPending();
      RejectReadyWaiters();
      socket, inbound, writeBacklog := null, [], [];
    }

    // -------------------------------------------------------------------------
    // Inbound
    // -------------------------------------------------------------------------

    /** The consume loop: at least five bytes go with every frame, so it ends. */
    method OnData(chunk: bytes)
      modifies this`inbound, this`pendingQueue, this`timers, this`rt
      ensures Abs() == ClientSteps.OnData(old(Abs()), chunk)
    {
      hide TryConsume, EncodeAll, Encode, HandleAll, ParseAll, HandleFrame;
      ghost var c := Abs();
      ghost var queue, armed, settled := pendingQueue, timers, rt.log;
      assert c.pending == queue && c.timers == armed && c.log == settled;
      inbound := inbound + chunk;
      ghost var start := inbound;
      ghost var done: seq<Frame> := [];
      HandleNone(c);
      assert [] + ParseAll(start).0 == ParseAll(start).0;
      while true
        invariant pendingQueue == HandleAll(c, done).pending && timers == HandleAll(c, done).timers
        invariant rt == old(rt).(log := HandleAll(c, done).log)
        invariant ParseAll(start) == (done + ParseAll(inbound).0, ParseAll(inbound).1)
        decreases |inbound|
      {
        ParseTurn(inbound);
        var frame := TryConsume(inbound);
        if frame == NeedMore {
          break;
        }
        HandleSnoc(c, done, frame.frame);
        HandleFrameFields(HandleAll(c, done), frame.frame);
        AppendAssoc(done, [frame.frame], ParseAll(frame.rest).0);
        done := done + [frame.frame];
        inbound := frame.rest;
        if IsEvent(frame.frame) || |pendingQueue| == 0 {
          continue;
        }
        var pending := pendingQueue[0];
        pendingQueue := pendingQueue[1..];
        timers := timers - {pending.id};
        rt := rt.(log := rt.log + [Settlement(pending, Resolved(frame.frame))]);
      }
      assert done + [] == done;
      HandleAllFields(c, done, inbound);
    }

    // -------------------------------------------------------------------------
    // Subscriptions and continuations
    // -------------------------------------------------------------------------

    method Subscribe(channel: bytes, handler: nat, filter: Option<bytes>)
      modifies this
      ensures Abs() == ClientSteps.Subscribe(old(Abs()), channel, handler, filter) && socket == old(socket)
    {
      hide Issue, SubFrame;
      var found := Find(heap, subs, channel);
      if found.Some? {
        var entry := At(heap, found.value);
        heap := Update(heap, found.value, entry.(handlers := entry.handlers + {handler}));
        return;
      }
      if SubSize(channel, filter) > MAX_PAYLOAD {
        return;
      }
      var e := |heap|;
      heap := heap + [RawEntry.Entry(channel, filter, {handler}, false)];
      subs := subs + [e];
      Request(SubFrame(channel, filter), SubOf(e, handler));
    }

    method RemoveHandler(channel: bytes, handler: nat)
      modifies this
      ensures Abs() == ClientSteps.RemoveHandler(old(Abs()), channel, handler) && socket == old(socket)
    {
      hide Issue, UnsubFrame;
      var found := Find(heap, subs, channel);
      if found == None {
        return;
      }
      var entry := At(heap, found.value);
      heap := Update(heap, found.value, entry.(handlers := entry.handlers - {handler}));
      if entry.handlers - {handler} != {} {
        return;
      }
      subs := Delete(heap, subs, channel);
      if socket != null && stateValue == Ready && 4 + |channel| <= MAX_PAYLOAD {
        Request(UnsubFrame(channel), UnsubOf(channel));
      }
    }

    /** The rest of subscribe: mark the entry live, or take the handler back. */
    method SettleSubscribe(e: nat, handler: nat, succeeded: bool)
      modifies this`heap, this`subs
      ensures var entry := At(old(heap), e);
              var left := entry.handlers - {handler};
              heap == Update(old(heap), e, if succeeded then entry.(wired := true) else entry.(handlers := left)) &&
              subs == if !succeeded && left == {} then Delete(heap, old(subs), entry.channel) else old(subs)
    {
      hide Delete, Update, At;
      var entry := At(heap, e);
      if succeeded {
        heap := Update(heap, e, entry.(wired := true));
      } else {
        var left := entry.handlers - {handler};
        heap := Update(heap, e, entry.(handlers := left));
        if left == {} {
          subs := Delete(heap, subs, entry.channel);
        }
      }
    }

    /** The continuation of the oldest settled promise: what subscribe and auth do with their reply. */
    method RunContinuation()
      requires rt.handled < |rt.log|
      modifies this`rt, this`heap, this`subs, this`authToken
      ensures Abs() == Continue(old(Abs()))
    {
      hide Delete, Update, At, Succeeded;
      ghost var c := Abs();
      var s := rt.log[rt.handled];
      rt := rt.(handled := rt.handled + 1);
      match s.req.origin {
        case SubOf(e, handler) =>
          SettleSubscribe(e, handler, Succeeded(s));
        case AuthOf(t) =>
          if Succeeded(s) {
            authToken := Some(t);
          }
        case _ =>
      }
    }
  }

  /** After the results ws the flush of start has written `wrote` and goes on with what is left. */
  ghost predicate Flushing(start: seq<bytes>, ws: seq<int>, wrote: bytes, left: seq<bytes>)
  {
    forall more :: FlushResults(left, more) ==>
      && FlushResults(start, ws + more)
      && Flush(start, ws + more) == Written(wrote + Flush(left, more).wrote, Flush(left, more).backlog)
  }

  lemma FlushBegins(start: seq<bytes>)
    ensures Flushing(start, [], [], start)
  {
    hide Flush, FlushResults;
    forall more: seq<int> ensures [] + more == more {}
    forall b: bytes ensures [] + b == b {}
  }

  lemma {:induction false} FlushEnds(start: seq<bytes>, ws: seq<int>, wrote: bytes)
    requires Flushing(start, ws, wrote, [])
    ensures FlushResults(start, ws) && Flush(start, ws) == Written(wrote, [])
  {
    assert FlushResults([], []);
    assert ws + [] == ws && wrote + [] == wrote;
  }

  /** One turn of the flush loop, by the result of its write. */
  lemma {:induction false} FlushTurn(start: seq<bytes>, ws: seq<int>, wrote: bytes, left: seq<bytes>, w: int)
    requires left != [] && -1 <= w <= |left[0]| && Flushing(start, ws, wrote, left)
    ensures w < 0 ==> Flushing(start, ws + [w], wrote, left[1..])
    ensures w == |left[0]| ==> Flushing(start, ws + [w], wrote + left[0], left[1..])
    ensures 0 <= w < |left[0]| ==>
              && FlushResults(start, ws + [w])
              && Flush(start, ws + [w]) == Written(wrote + left[0][..w], [left[0][w..]] + left[1..])
  {
    if 0 <= w < |left[0]| {
      assert FlushResults(left, [w]);
    } else {
      forall more | FlushResults(left[1..], more)
        ensures FlushResults(left, [w] + more) && (ws + [w]) + more == ws + ([w] + more)
      {
        assert ([w] + more)[1..] == more;
      }
      var mine := if w < 0 then wrote else wrote + left[0];
      forall more | FlushResults(left[1..], more)
        ensures FlushResults(start, (ws + [w]) + more)
        ensures Flush(start, (ws + [w]) + more) ==
                Written(mine + Flush(left[1..], more).wrote, Flush(left[1..], more).backlog)
      {
        assert ([w] + more)[1..] == more;
        assert FlushResults(left, [w] + more);
      }
    }
  }

  /** The continuation of requestRaw, field by field. */
  lemma SendNextFields(c: Client, w: int)
    requires c.released != [] && w <= |Encode(c.released[0].frame)|
    ensures var r := c.released[0];
            var x := Backlog.WriteOrQueue(c.backlog, Encode(r.frame), w);
            SendNext(c, w) ==
            if x.Some? then
              Out(c.(released := c.released[1..], pending := c.pending + [r], timers := c.timers[r.id := c.gen],
                     backlog := x.value.backlog), x.value.wrote)
            else
              Out(c.(released := c.released[1..], timers := c.timers[r.id := c.gen] - {r.id},
                     log := c.log + [Settlement(r, Rejected)]), [])
  {
    hide Encode, Backlog.WriteOrQueue, Rejections;
    var r := c.released[0];
    RejectOne(r);
    assert (c.pending + [r])[..|c.pending|] == c.pending;
  }

  function Adopted(c: Client): Client
  {
    c.(dialing := false, gen := c.gen + 1, live := true, inbound := [], backlog := [])
  }

  function Opened(c: Client): Client
  {
    c.(state := Ready, attempts := 0, dials := 0, unopened := false, waiters := [], woken := c.woken + c.waiters)
  }

  lemma {:induction false} OpenInThreeParts(c: Client, ws: seq<int>)
    requires HelloResults(Hello(c.token, Wired(c.heap, c.subs)), ws)
    ensures var hello := SendHello(Adopted(c), Hello(c.token, Wired(c.heap, c.subs)), ws);
            ClientSteps.OnOpen(c, ws) == Out(Opened(hello.c), MAGIC + hello.wrote)
  {
    hide SendHello, Hello, Wired;
  }

  /** close, field by field. */
  lemma CloseFields(c: Client)
    ensures ClientSteps.Close(c) ==
            Client(Closed, false, c.dialing, None, c.attempts, c.gen, [], [], c.timers - Ids(c.pending), [], [],
                   c.woken, c.released, c.token, c.heap, c.subs, c.issued,
                   c.log + Rejections(c.pending) + Rejections(c.waiters), c.handled, c.dials, c.unopened)
  {
    hide Ids, Rejections;
  }

  /** The client after handleDisconnect has dropped the socket and rejected what was pending. */
  function Dropped(c: Client, state: Phase): Client
  {
    Client(state, false, c.dialing, c.timer, c.attempts, c.gen, [], [], c.timers - Ids(c.pending), [], c.waiters,
           c.woken, c.released, c.token, c.heap, c.subs, c.issued, c.log + Rejections(c.pending), c.handled,
           c.dials, c.unopened)
  }

  lemma DisconnectFields(cfg: Config, c: Client, jitter: real)
    ensures ClientSteps.HandleDisconnect(cfg, c, jitter) ==
            if c.state == Closed then Dropped(c, Closed)
            else if !cfg.enabled then
              Dropped(c, Idle).(waiters := [], log := c.log + Rejections(c.pending) + Rejections(c.waiters))
            else ClientSteps.ScheduleReconnect(cfg, Dropped(c, Reconnecting), jitter)
  {
    hide Ids, Rejections, ClientSteps.ScheduleReconnect;
  }

  lemma OpenSocketDials(c: Client)
    requires !c.dialing && c.state != Closed && !(c.live && c.state == Ready)
    ensures var d := ClientSteps.OpenSocket(c); d.dialing && d.state != Closed && !(d.live && d.state == Ready)
  {}

  lemma OpenSocketKeepsWaiters(c: Client)
    ensures ClientSteps.OpenSocket(c).waiters == c.waiters
  {}

  lemma RejectOne(r: Request)
    ensures Rejections([r]) == [Settlement(r, Rejected)]
  {}

  lemma RejectOneMore(rs: seq<Request>, r: Request)
    ensures Rejections(rs + [r]) == Rejections(rs) + [Settlement(r, Rejected)]
    ensures Ids(rs + [r]) == Ids(rs) + {r.id}
  {
    assert r in rs + [r];
    forall x | x in rs ensures x in rs + [r] {}
  }

  // ---------------------------------------------------------------------------
  // The handshake loop, frame by frame
  // ---------------------------------------------------------------------------

  lemma {:induction false} HelloBegins(up: Client)
    ensures HelloResults([], []) && SendHello(up, [], []) == Out(up, [])
  {}

  lemma {:induction false} SendHelloSnoc(c: Client, fs: seq<Frame>, ws: seq<int>, f: Frame, w: int)
    requires HelloResults(fs, ws) && 0 <= w <= |Encode(f)|
    ensures HelloResults(fs + [f], ws + [w])
    ensures var o := SendHello(c, fs, ws);
            var r := ClientSteps.Request(|o.c.issued|, f, Handshake);
            var n := Send(o.c.(issued := o.c.issued + [r]), r, w);
            SendHello(c, fs + [f], ws + [w]) == Out(n.c, o.wrote + n.wrote)
    decreases |fs|
  {
    hide Send, Encode;
    if fs == [] {
      assert fs + [f] == [f] && ws + [w] == [w];
      assert [f][1..] == [] && [w][1..] == [];
      var r := ClientSteps.Request(|c.issued|, f, Handshake);
      var n := Send(c.(issued := c.issued + [r]), r, w);
      assert SendHello(n.c, [], []) == Out(n.c, []);
      assert n.wrote + [] == n.wrote && [] + n.wrote == n.wrote;
    } else {
      var r := ClientSteps.Request(|c.issued|, fs[0], Handshake);
      var first := Send(c.(issued := c.issued + [r]), r, ws[0]);
      SendHelloSnoc(first.c, fs[1..], ws[1..], f, w);
      assert (fs + [f])[1..] == fs[1..] + [f] && (ws + [w])[1..] == ws[1..] + [w];
      var rest := SendHello(first.c, fs[1..], ws[1..]);
      var q := ClientSteps.Request(|rest.c.issued|, f, Handshake);
      AppendAssoc(first.wrote, rest.wrote, Send(rest.c.(issued := rest.c.issued + [q]), q, w).wrote);
    }
  }

  /** One more handshake frame, field by field. */
  lemma {:induction false} HelloGrows(up: Client, sent: seq<Frame>, ws: seq<int>, f: Frame, w: int, base: bytes)
    requires HelloResults(sent, ws) && 0 <= w <= |Encode(f)|
    requires Backlog.WriteOrQueue(SendHello(up, sent, ws).c.backlog, Encode(f), w).Some?
    ensures HelloResults(sent + [f], ws + [w])
    ensures var o := SendHello(up, sent, ws);
            var r := ClientSteps.Request(|o.c.issued|, f, Handshake);
            var x := Backlog.WriteOrQueue(o.c.backlog, Encode(f), w).value;
            var n := SendHello(up, sent + [f], ws + [w]);
            && n.c.issued == o.c.issued + [r] && n.c.pending == o.c.pending + [r]
            && n.c.timers == o.c.timers[r.id := up.gen] && n.c.backlog == x.backlog
            && base + n.wrote == (base + o.wrote) + x.wrote
  {
    hide Encode, SendHello, Backlog.WriteOrQueue;
    SendHelloSnoc(up, sent, ws, f, w);
    SendHelloSameLife(up, sent, ws);
    var o := SendHello(up, sent, ws);
    AppendAssoc(base, o.wrote, Backlog.WriteOrQueue(o.c.backlog, Encode(f), w).value.wrote);
  }

  /** What the handshake changes, and what it leaves alone. */
  lemma {:induction false} SendHelloFields(up: Client, sent: seq<Frame>, ws: seq<int>)
    requires HelloResults(sent, ws)
    ensures var d := SendHello(up, sent, ws).c;
            d == up.(pending := d.pending, timers := d.timers, backlog := d.backlog, issued := d.issued)
  {
    hide SendHello;
    SendHelloSameLife(up, sent, ws);
    var rs := SendHelloSubmits(up, sent, ws);
  }

  lemma {:induction false} HelloWithoutSubs(token: Option<Token>, heap: seq<Entry>)
    ensures Hello(token, Wired(heap, [])) == if token.Some? then [AuthFrame(token.value)] else []
  {
    hide AuthFrame;
  }

  lemma {:induction false} WiredSnoc(heap: seq<Entry>, subs: seq<nat>, e: nat)
    ensures Wired(heap, subs + [e]) == Wired(heap, subs) + (if At(heap, e).wired then [At(heap, e)] else [])
  {
    hide At;
    if subs == [] {
      assert subs + [e] == [e];
      assert [e][1..] == [];
    } else {
      WiredSnoc(heap, subs[1..], e);
      assert (subs + [e])[1..] == subs[1..] + [e];
    }
  }

  lemma {:induction false} HelloSnoc(token: Option<Token>, heap: seq<Entry>, subs: seq<nat>, i: nat)
    requires i < |subs|
    ensures var entry := At(heap, subs[i]);
            Hello(token, Wired(heap, subs[..i + 1])) ==
            Hello(token, Wired(heap, subs[..i])) + (if entry.wired then [SubFrame(entry.channel, entry.filter)] else [])
  {
    hide SubFrame, AuthFrame, At;
    assert subs[..i + 1] == subs[..i] + [subs[i]];
    WiredSnoc(heap, subs[..i], subs[i]);
    hide Wired;
    var es, entry := Wired(heap, subs[..i]), At(heap, subs[i]);
    if entry.wired {
      assert SubFrames(es + [entry]) == SubFrames(es) + [SubFrame(entry.channel, entry.filter)];
    } else {
      assert es + [] == es;
    }
  }

  // ---------------------------------------------------------------------------
  // The consume loop, frame by frame
  // ---------------------------------------------------------------------------

  lemma {:induction false} HandleNone(c: Client)
    ensures HandleAll(c, []) == c
  {}

  lemma {:induction false} HandleSnoc(c: Client, fs: seq<Frame>, f: Frame)
    ensures HandleAll(c, fs + [f]) == HandleFrame(HandleAll(c, fs), f)
    decreases |fs|
  {
    hide HandleFrame;
    if fs == [] {
      assert fs + [f] == [f];
      assert [f][1..] == [];
    } else {
      HandleSnoc(HandleFrame(c, fs[0]), fs[1..], f);
      assert (fs + [f])[1..] == fs[1..] + [f];
    }
  }

  lemma HandleFrameFields(c: Client, f: Frame)
    ensures var d := HandleFrame(c, f);
            if IsEvent(f) || c.pending == [] then d == c
            else && d.pending == c.pending[1..] && d.timers == c.timers - {c.pending[0].id}
                 && d.log == c.log + [Settlement(c.pending[0], Resolved(f))]
  {}

  /** Handling frames changes the queue, the timers and the log, and does not look at the inbound buffer. */
  lemma {:induction false} HandleAllFields(c: Client, fs: seq<Frame>, rest: bytes)
    ensures var d := HandleAll(c, fs);
            HandleAll(c.(inbound := rest), fs) ==
            c.(inbound := rest, pending := d.pending, timers := d.timers, log := d.log)
    decreases |fs|
  {
    if fs != [] {
      HandleAllFields(HandleFrame(c, fs[0]), fs[1..], rest);
      assert HandleFrame(c.(inbound := rest), fs[0]) == HandleFrame(c, fs[0]).(inbound := rest);
    }
  }

  lemma {:induction false} ParseTurn(buffer: bytes)
    ensures match TryConsume(buffer)
            case NeedMore => ParseAll(buffer) == ([], buffer)
            case Got(f, rest) =>
              |rest| + 5 <= |buffer| && ParseAll(buffer) == ([f] + ParseAll(rest).0, ParseAll(rest).1)
  {
    hide TryConsume, EncodeAll, Encode;
  }
}
