/**
 What every run keeps about the connection's life: one link at a time, no stranded
 waiter, the reconnect budget and its delays; and when a closed client stays closed.
 */
module Lifecycle {
  import opened Bytes
  import opened Frames
  import opened Backlog
  import opened ClientSteps
  import opened System

  /** At most one of a live socket, a dial in flight and an armed reconnect timer. */
  predicate OneLink(c: Client)
  {
    && (c.live <==> c.state == Ready)
    && !(c.live && c.dialing)
    && !(c.live && c.timer.Some?)
    && !(c.dialing && c.timer.Some?)
  }

  /** A parked request always has a dial or a timer that will release or reject it. */
  predicate NoStranded(c: Client)
  {
    && (c.waiters != [] ==> c.dialing || c.timer.Some?)
    && (c.state == Closed ==> c.waiters == [])
  }

  predicate Phases(cfg: Config, c: Client)
  {
    && (!cfg.enabled ==> c.timer.None?)
    && (c.state == Connecting ==> c.dialing)
    && (c.state == Reconnecting ==> c.dialing || c.timer.Some?)
    && (c.timer.Some? ==> c.state == Reconnecting)
  }

  /** Without a connection there is nothing queued for one. */
  predicate DeadIsEmpty(c: Client) { !c.live ==> c.pending == [] && c.backlog == [] }

  predicate Sane(cfg: Config) { cfg.minDelay >= 0.0 && cfg.maxDelay >= 0.0 }

  /** The armed delay lies in [b/2, b] for the backoff b of the attempt it belongs to. */
  predicate DelayInRange(cfg: Config, c: Client)
  {
    c.timer.Some? ==>
      && c.attempts >= 1
      && Backoff(cfg, c.attempts - 1) / 2.0 <= c.timer.value <= Backoff(cfg, c.attempts - 1)
  }

  /** Dials a client may make before it gives up: one more if it never had a connection. */
  function Allowance(c: Client): nat { if c.unopened then 1 else 0 }

  /** How dials since the last open relate to the attempts counted. */
  predicate Budget(cfg: Config, c: Client)
  {
    cfg.enabled ==>
      && c.dials <= c.attempts + Allowance(c)
      && (c.dialing ==> c.dials == c.attempts + Allowance(c))
      && (c.timer.Some? ==> c.dials + 1 == c.attempts + Allowance(c))
      && (c.live ==> c.attempts == 0 && c.dials == 0 && !c.unopened)
      && (c.state == Idle ==> c.attempts == 0 && c.dials == 0 && c.unopened && !c.dialing)
      && (cfg.maxAttempts.Some? ==> c.attempts <= cfg.maxAttempts.value)
  }

  predicate LifeInv(cfg: Config, s: Sys)
  {
    && OneLink(s.c) && NoStranded(s.c) && Phases(cfg, s.c) && DeadIsEmpty(s.c)
    && Budget(cfg, s.c)
    && (Sane(cfg) ==> DelayInRange(cfg, s.c))
    && s.c.gen == |s.conns|
    && (s.c.gen == 0 <==> s.c.unopened)
    && (s.c.live || s.c.released != [] ==> s.c.gen > 0)
  }

  /** d differs from c only in the queues of the connection and the promise log. */
  predicate SameLife(c: Client, d: Client)
  {
    d == c.(inbound := d.inbound, pending := d.pending, timers := d.timers, backlog := d.backlog,
            issued := d.issued, log := d.log)
  }

  lemma SendSameLife(c: Client, r: Request, w: int)
    requires w <= |Encode(r.frame)|
    ensures SameLife(c, Send(c, r, w).c)
    ensures Send(c, r, w).c.issued == c.issued
  {}

  lemma {:induction false} SendHelloSameLife(c: Client, frames: seq<Frame>, ws: seq<int>)
    requires HelloResults(frames, ws)
    ensures SameLife(c, SendHello(c, frames, ws).c)
    decreases |frames|
  {
    hide Send, Encode;
    if frames != [] {
      var r := Request(|c.issued|, frames[0], Handshake);
      var d := c.(issued := c.issued + [r]);
      SendSameLife(d, r, ws[0]);
      SendHelloSameLife(Send(d, r, ws[0]).c, frames[1..], ws[1..]);
    }
  }

  lemma {:induction false} HandleAllSameLife(c: Client, fs: seq<Frame>)
    ensures SameLife(c, HandleAll(c, fs))
    ensures c.pending == [] ==> HandleAll(c, fs) == c
    ensures HandleAll(c, fs).backlog == c.backlog && HandleAll(c, fs).inbound == c.inbound
    ensures HandleAll(c, fs).issued == c.issued
    decreases |fs|
  {
    if fs != [] {
      HandleAllSameLife(HandleFrame(c, fs[0]), fs[1..]);
    }
  }

  lemma BackoffNonNegative(cfg: Config, n: nat)
    requires Sane(cfg)
    ensures 0.0 <= Backoff(cfg, n) <= cfg.maxDelay
  {
    DoubledGrows(cfg.minDelay, n, n);
  }

  lemma {:induction false} DoubledGrows(x: real, m: nat, n: nat)
    requires x >= 0.0 && m <= n
    ensures 0.0 <= Doubled(x, m) <= Doubled(x, n)
    decreases n
  {
    if m < n {
      DoubledGrows(x, m, n - 1);
    } else if m > 0 {
      DoubledGrows(x, m - 1, m - 1);
    }
  }

  lemma JitterInRange(b: real, j: real)
    requires b >= 0.0 && Jitter(j)
    ensures b / 2.0 <= Delay(b, j) <= b
  {
    var h := b / 2.0;
    Product(j, h);
    Product(1.0 - j, h);
    assert (1.0 - j) * h == h - j * h;
  }

  lemma Product(x: real, y: real)
    requires x >= 0.0 && y >= 0.0
    ensures x * y >= 0.0
  {}

  lemma ScheduleKeepsLife(cfg: Config, c: Client, j: real)
    requires Jitter(j) && c.state == Reconnecting && !c.live
    requires !(c.dialing && c.timer.Some?) && DeadIsEmpty(c)
    requires c.timer.Some? || c.dialing || !cfg.enabled || c.dials == c.attempts + Allowance(c)
    requires cfg.enabled
    requires Budget(cfg, c.(timer := None))
    requires c.timer.Some? ==> c.dials + 1 == c.attempts + Allowance(c)
    requires Sane(cfg) ==> DelayInRange(cfg, c)
    ensures var d := ScheduleReconnect(cfg, c, j);
            && OneLink(d) && NoStranded(d) && Phases(cfg, d) && DeadIsEmpty(d) && Budget(cfg, d)
            && (Sane(cfg) ==> DelayInRange(cfg, d)) && d.gen == c.gen && d.unopened == c.unopened
  {
    hide Backoff, Delay;
    if Sane(cfg) {
      BackoffNonNegative(cfg, c.attempts);
      JitterInRange(Backoff(cfg, c.attempts), j);
    }
  }

  lemma DisconnectKeepsLife(cfg: Config, s: Sys, j: real)
    requires LifeInv(cfg, s) && Jitter(j)
    requires s.c.gen > 0 || s.c.dialing || s.c.timer.Some? || s.c.state == Closed
    ensures LifeInv(cfg, s.(c := HandleDisconnect(cfg, s.c, j)))
  {
    hide Backoff;
    var d := RejectAllPending(s.c.(live := false, inbound := [], backlog := []));
    if d.state != Closed && cfg.enabled {
      ScheduleKeepsLife(cfg, d.(state := Reconnecting), j);
    }
  }

  lemma DialFailKeepsLife(cfg: Config, s: Sys, j: real)
    requires LifeInv(cfg, s) && Jitter(j) && s.c.dialing
    ensures LifeInv(cfg, s.(c := DialFailed(cfg, s.c, j)))
  {
    hide Backoff;
    var d := RejectAllPending(s.c.(dialing := false, live := false, inbound := [], backlog := []));
    if d.state != Closed && cfg.enabled {
      ScheduleKeepsLife(cfg, d.(state := Reconnecting), j);
    }
  }

  lemma TimeoutKeepsLife(cfg: Config, s: Sys, id: nat, j: real)
    requires LifeInv(cfg, s) && Jitter(j) && id in s.c.timers
    ensures LifeInv(cfg, s.(c := RequestTimeout(cfg, s.c, id, j)))
  {
    hide Backoff;
    var fired := s.c.(timers := s.c.timers - {id});
    var d := RejectAllPending(fired);
    if d.live {
      assert LifeInv(cfg, s.(c := d));
      DisconnectKeepsLife(cfg, s.(c := d), j);
      assert HandleDisconnect(cfg, d.(live := false), j) == HandleDisconnect(cfg, d, j);
    }
  }

  lemma OpenKeepsLife(cfg: Config, s: Sys, ws: seq<int>)
    requires LifeInv(cfg, s) && Enabled(s, DialOk(ws))
    ensures LifeInv(cfg, Apply(cfg, s, DialOk(ws)))
  {
    hide Backoff, SendHello, Hello;
    var up := s.c.(dialing := false, gen := s.c.gen + 1, live := true, inbound := [], backlog := []);
    SendHelloSameLife(up, Hello(s.c.token, Wired(s.c.heap, s.c.subs)), ws);
  }

  lemma EnsureReadyKeepsLife(cfg: Config, s: Sys, r: Request)
    requires LifeInv(cfg, s)
    ensures LifeInv(cfg, s.(c := EnsureReady(s.c, r)))
  {
    hide Backoff;
  }

  lemma IssueKeepsLife(cfg: Config, s: Sys, frame: Frame, origin: Origin)
    requires LifeInv(cfg, s)
    ensures LifeInv(cfg, s.(c := Issue(s.c, frame, origin)))
  {
    hide EnsureReady, Backoff;
    var r := Request(|s.c.issued|, frame, origin);
    EnsureReadyKeepsLife(cfg, s.(c := s.c.(issued := s.c.issued + [r])), r);
  }

  lemma SubscribeKeepsLife(cfg: Config, s: Sys, channel: bytes, handler: nat, filter: Option<bytes>)
    requires LifeInv(cfg, s)
    ensures LifeInv(cfg, s.(c := Subscribe(s.c, channel, handler, filter)))
  {
    hide Issue, Backoff, SubFrame, Find, Update;
    if Find(s.c.heap, s.c.subs, channel).None? && SubSize(channel, filter) <= MAX_PAYLOAD {
      var e := |s.c.heap|;
      var added := s.c.(heap := s.c.heap + [RawEntry.Entry(channel, filter, {handler}, false)], subs := s.c.subs + [e]);
      IssueKeepsLife(cfg, s.(c := added), SubFrame(channel, filter), SubOf(e, handler));
    }
  }

  lemma RemoveKeepsLife(cfg: Config, s: Sys, channel: bytes, handler: nat)
    requires LifeInv(cfg, s)
    ensures LifeInv(cfg, s.(c := RemoveHandler(s.c, channel, handler)))
  {
    hide Issue, Backoff, Find, Delete, UnsubFrame, Update, At;
    var found := Find(s.c.heap, s.c.subs, channel);
    if found.Some? && 4 + |channel| <= MAX_PAYLOAD {
      var entry := At(s.c.heap, found.value);
      var d := s.c.(heap := Update(s.c.heap, found.value, entry.(handlers := entry.handlers - {handler})));
      IssueKeepsLife(cfg, s.(c := d.(subs := Delete(d.heap, d.subs, channel))), UnsubFrame(channel), UnsubOf(channel));
    }
  }

  lemma OnDataKeepsLife(cfg: Config, s: Sys, chunk: bytes)
    requires LifeInv(cfg, s)
    ensures LifeInv(cfg, s.(c := OnData(s.c, chunk)))
  {
    hide Backoff, ParseAll, HandleAll;
    var (fs, rest) := ParseAll(s.c.inbound + chunk);
    HandleAllSameLife(s.c.(inbound := rest), fs);
  }

  lemma SendKeepsLife(cfg: Config, s: Sys, w: int)
    requires LifeInv(cfg, s) && Enabled(s, SendFrame(w))
    ensures LifeInv(cfg, s.(c := SendNext(s.c, w).c))
  {
    hide Backoff, Encode;
    SendSameLife(s.c.(released := s.c.released[1..]), s.c.released[0], w);
  }

  /** LifeInv looks at the connections only to count them. */
  lemma LifeIgnoresConns(cfg: Config, s: Sys, t: Sys)
    requires LifeInv(cfg, s) && t.c == s.c && |t.conns| == |s.conns|
    ensures LifeInv(cfg, t)
  {}

  /** Every step keeps the lifecycle invariant. */
  lemma StepKeepsLife(cfg: Config, s: Sys, step: Step)
    requires LifeInv(cfg, s) && Enabled(s, step)
    ensures LifeInv(cfg, Apply(cfg, s, step))
  {
    hide Backoff, OneLink, NoStranded, Phases, DeadIsEmpty, Budget, DelayInRange;
    hide Issue, EnsureReady, Subscribe, RemoveHandler, Close, SendNext, Continue, OnOpen, DialFailed, ReconnectFires;
    hide RequestTimeout, HandleDisconnect, OnData, Drain, ParseAll, Encode, Hello, AuthFrame, Submit, Open, TryConsume;
    var t := Apply(cfg, s, step);
    match step {
      case UserRequest(frame) => IssueKeepsLife(cfg, s, frame, Direct);
      case UserAuth(token) => IssueKeepsLife(cfg, s, AuthFrame(token), AuthOf(token));
      case UserSubscribe(ch, h, f) => SubscribeKeepsLife(cfg, s, ch, h, f);
      case UserUnsubscribe(ch, h) => RemoveKeepsLife(cfg, s, ch, h);
      case UserClose => CloseKeepsLife(cfg, s);
      case Wake => EnsureReadyKeepsLife(cfg, s.(c := WokenTail(cfg, s)), s.c.woken[0]);
      case SendFrame(w) =>
        SendKeepsLife(cfg, s, w);
        LifeIgnoresConns(cfg, s.(c := SendNext(s.c, w).c), t);
      case RunContinuation => ContinueKeepsLife(cfg, s);
      case DialOk(ws) => OpenKeepsLife(cfg, s, ws);
      case DialFail(j) => DialFailKeepsLife(cfg, s, j);
      case ReconnectTimer => ReconnectKeepsLife(cfg, s);
      case Timeout(id, j) => TimeoutKeepsLife(cfg, s, id, j);
      case SocketClosed(j) => DisconnectKeepsLife(cfg, s, j);
      case Data(n) =>
        OnDataKeepsLife(cfg, s, Last(s).s2c[..n]);
        LifeIgnoresConns(cfg, s.(c := OnData(s.c, Last(s).s2c[..n])), t);
      case StrayData(chunk) => OnDataKeepsLife(cfg, s, chunk);
      case DrainSocket(ws) =>
        DrainKeepsLife(cfg, s, ws);
        LifeIgnoresConns(cfg, s.(c := Drain(s.c, ws).c), t);
      case Deliver(_, _) => LifeIgnoresConns(cfg, s, t);
      case Greet(_) => LifeIgnoresConns(cfg, s, t);
      case Serve(_, _) => LifeIgnoresConns(cfg, s, t);
      case Emit(_, _) => LifeIgnoresConns(cfg, s, t);
    }
  }

  lemma CloseKeepsLife(cfg: Config, s: Sys)
    requires LifeInv(cfg, s)
    ensures LifeInv(cfg, s.(c := Close(s.c)))
  {
    hide Backoff;
  }

  lemma DrainKeepsLife(cfg: Config, s: Sys, ws: seq<int>)
    requires LifeInv(cfg, s) && Enabled(s, DrainSocket(ws))
    ensures LifeInv(cfg, s.(c := Drain(s.c, ws).c))
  {
    hide Backoff, Flush;
  }

  lemma ReconnectKeepsLife(cfg: Config, s: Sys)
    requires LifeInv(cfg, s) && s.c.timer.Some?
    ensures LifeInv(cfg, s.(c := ReconnectFires(s.c)))
  {
    hide Backoff;
  }

  lemma ContinueKeepsLife(cfg: Config, s: Sys)
    requires LifeInv(cfg, s) && s.c.handled < |s.c.log|
    ensures LifeInv(cfg, s.(c := Continue(s.c)))
  {
    hide Backoff, Continue;
    ContinueFrame(s.c);
  }

  lemma ContinueFrame(c: Client)
    requires c.handled < |c.log|
    ensures var d := Continue(c);
            d == c.(handled := c.handled + 1, heap := d.heap, subs := d.subs, token := d.token)
  {
    hide Delete, Update, At;
  }

  ghost function WokenTail(cfg: Config, s: Sys): (d: Client)
    requires LifeInv(cfg, s) && s.c.woken != []
    ensures LifeInv(cfg, s.(c := d)) && d == s.c.(woken := s.c.woken[1..])
  {
    s.c.(woken := s.c.woken[1..])
  }
}
