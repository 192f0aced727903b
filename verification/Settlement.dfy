/**
 Exactly-once settlement: in every run each issued request is in exactly one place,
 and once settled it is never settled again; every armed request timer belongs to a
 queued request and carries the current generation.
 */
module Settlement {
  import opened Bytes
  import opened Frames
  import opened Backlog
  import opened ClientSteps
  import opened System
  import opened Lifecycle

  function Requests(log: seq<ClientSteps.Settlement>): (rs: seq<Request>)
    ensures |rs| == |log|
  {
    seq(|log|, i requires 0 <= i < |log| => log[i].req)
  }

  /** How often r occurs in rs. */
  function N(rs: seq<Request>, r: Request): nat { multiset(rs)[r] }

  /** How often a request is found where it can be: parked, woken, released, awaiting its reply, settled. */
  function Places(c: Client, r: Request): nat
  {
    N(c.waiters, r) + N(c.woken, r) + N(c.released, r) + N(c.pending, r) + N(Requests(c.log), r)
  }

  predicate Numbered(rs: seq<Request>) { forall i :: 0 <= i < |rs| ==> rs[i].id == i }

  predicate TimersMatch(c: Client)
  {
    && c.timers.Keys == Ids(c.pending)
    && forall id :: id in c.timers ==> c.timers[id] == c.gen
  }

  /** Every issued request is in exactly as many places as it was issued. */
  ghost predicate Conserved(c: Client)
  {
    Numbered(c.issued) && forall r :: Places(c, r) == N(c.issued, r)
  }

  ghost predicate SettleInv(c: Client)
  {
    && Conserved(c)
    && TimersMatch(c)
    && c.handled <= |c.log|
  }

  // ---------------------------------------------------------------------------
  // A request has one place
  // ---------------------------------------------------------------------------

  lemma NAppend(a: seq<Request>, b: seq<Request>, r: Request)
    ensures N(a + b, r) == N(a, r) + N(b, r)
  {}

  lemma NOne(x: Request, r: Request)
    ensures N([x], r) == if x == r then 1 else 0
  {}

  lemma NTail(rs: seq<Request>, r: Request)
    requires rs != []
    ensures N(rs, r) == N([rs[0]], r) + N(rs[1..], r)
  {
    NAppend([rs[0]], rs[1..], r);
    assert [rs[0]] + rs[1..] == rs;
  }

  lemma NIn(rs: seq<Request>, r: Request)
    ensures r in rs <==> N(rs, r) > 0
  {
    assert r in rs <==> r in multiset(rs);
  }

  lemma {:induction false} NumberedOnce(rs: seq<Request>, r: Request)
    requires Numbered(rs)
    ensures N(rs, r) <= 1
  {
    if rs != [] {
      var n := |rs| - 1;
      NumberedOnce(rs[..n], r);
      assert rs == rs[..n] + [rs[n]];
      NAppend(rs[..n], [rs[n]], r);
      NIn(rs[..n], r);
      NOne(rs[n], r);
    }
  }

  lemma TwiceInSeq(rs: seq<Request>, i: nat, j: nat)
    requires i < j < |rs| && rs[i] == rs[j]
    ensures N(rs, rs[i]) >= 2
  {
    assert rs == rs[..j] + rs[j..];
    NAppend(rs[..j], rs[j..], rs[i]);
    assert rs[i] in rs[..j] && rs[j] in rs[j..];
    NIn(rs[..j], rs[i]);
    NIn(rs[j..], rs[i]);
  }

  lemma OnePlace(c: Client, r: Request)
    requires Conserved(c)
    ensures Places(c, r) == if r in c.issued then 1 else 0
  {
    NumberedOnce(c.issued, r);
    NIn(c.issued, r);
  }

  /** Requests with equal ids are the same request. */
  lemma SameId(c: Client, a: Request, b: Request)
    requires Conserved(c) && Places(c, a) > 0 && Places(c, b) > 0 && a.id == b.id
    ensures a == b
  {
    OnePlace(c, a);
    OnePlace(c, b);
  }

  predicate DistinctIds(rs: seq<Request>) { forall i, j :: 0 <= i < j < |rs| ==> rs[i].id != rs[j].id }

  lemma PendingDistinct(c: Client)
    requires Conserved(c)
    ensures DistinctIds(c.pending)
  {
    forall i, j | 0 <= i < j < |c.pending| ensures c.pending[i].id != c.pending[j].id {
      var a, b := c.pending[i], c.pending[j];
      if a.id == b.id {
        NIn(c.pending, a);
        NIn(c.pending, b);
        SameId(c, a, b);
        TwiceInSeq(c.pending, i, j);
        OnePlace(c, a);
      }
    }
  }

  // ---------------------------------------------------------------------------
  // What each client function does to the places
  // ---------------------------------------------------------------------------

  lemma LogAppend(a: seq<ClientSteps.Settlement>, b: seq<ClientSteps.Settlement>, r: Request)
    ensures N(Requests(a + b), r) == N(Requests(a), r) + N(Requests(b), r)
  {
    assert Requests(a + b) == Requests(a) + Requests(b);
    NAppend(Requests(a), Requests(b), r);
  }

  lemma RejectPlaces(c: Client, rs: seq<Request>, r: Request)
    ensures Places(Reject(c, rs), r) == Places(c, r) + N(rs, r)
  {
    LogAppend(c.log, Rejections(rs), r);
    assert Requests(Rejections(rs)) == rs;
    hide N, Requests, Rejections;
  }

  lemma NNone(r: Request)
    ensures N([], r) == 0
  {}

  lemma RejectAllPlaces(c: Client, r: Request)
    ensures Places(RejectAllPending(c), r) == Places(c, r)
  {
    hide N, Requests, Rejections;
    RejectPlaces(c, c.pending, r);
    NNone(r);
  }

  lemma RejectWaitersPlaces(c: Client, r: Request)
    ensures Places(RejectWaiters(c), r) == Places(c, r)
  {
    hide N, Requests, Rejections;
    RejectPlaces(c, c.waiters, r);
    NNone(r);
  }

  lemma EnsureReadyPlaces(c: Client, x: Request, r: Request)
    ensures Places(EnsureReady(c, x), r) == Places(c, r) + N([x], r)
  {
    hide N, Requests, Rejections;
    RejectPlaces(c, [x], r);
    NAppend(c.waiters, [x], r);
    NAppend(c.released, [x], r);
  }

  lemma SendPlaces(c: Client, x: Request, w: int, r: Request)
    requires w <= |Encode(x.frame)|
    ensures Places(Send(c, x, w).c, r) == Places(c, r) + N([x], r)
  {
    hide N, Requests, Rejections, Encode;
    var q := Enqueue(c, x);
    assert q.pending[..|q.pending| - 1] == c.pending && q.pending[|q.pending| - 1] == x;
    RejectPlaces(q, [x], r);
    NAppend(c.pending, [x], r);
  }

  lemma HandleFramePlaces(c: Client, f: Frame, r: Request)
    ensures Places(HandleFrame(c, f), r) == Places(c, r)
  {
    if !IsEvent(f) && c.pending != [] {
      var s := ClientSteps.Settlement(c.pending[0], Resolved(f));
      LogAppend(c.log, [s], r);
      assert Requests([s]) == [c.pending[0]];
      NTail(c.pending, r);
      hide N, Requests;
    }
  }

  lemma IssueKeepsConserved(c: Client, frame: Frame, origin: Origin)
    requires Conserved(c)
    ensures Conserved(Issue(c, frame, origin))
  {
    hide N, Requests;
    var x := Request(|c.issued|, frame, origin);
    var d := c.(issued := c.issued + [x]);
    assert EnsureReady(d, x).issued == d.issued;
    hide EnsureReady;
    forall r ensures Places(EnsureReady(d, x), r) == N(d.issued, r) {
      EnsureReadyPlaces(d, x, r);
      NAppend(c.issued, [x], r);
      assert Places(d, r) == Places(c, r);
    }
  }

  // ---------------------------------------------------------------------------
  // Timers
  // ---------------------------------------------------------------------------

  lemma IdsAppend(rs: seq<Request>, r: Request)
    ensures Ids(rs + [r]) == Ids(rs) + {r.id}
  {
    assert r in rs + [r];
    forall x | x in rs ensures x in rs + [r] {}
  }

  lemma IdsTail(rs: seq<Request>)
    requires rs != [] && DistinctIds(rs)
    ensures Ids(rs[1..]) == Ids(rs) - {rs[0].id}
  {
    forall id | id in Ids(rs) - {rs[0].id} ensures id in Ids(rs[1..]) {
      var r :| r in rs && r.id == id;
      assert r in rs[1..];
    }
    forall id | id in Ids(rs[1..]) ensures id in Ids(rs) && id != rs[0].id {
      var r :| r in rs[1..] && r.id == id;
      var i :| 0 <= i < |rs[1..]| && rs[1..][i] == r;
      assert rs[i + 1] == r;
    }
  }

  lemma HandleFrameKeepsTimers(c: Client, f: Frame)
    requires SettleInv(c)
    ensures SettleInv(HandleFrame(c, f))
  {
    hide Places, N;
    forall r ensures Places(HandleFrame(c, f), r) == Places(c, r) { HandleFramePlaces(c, f, r); }
    PendingDistinct(c);
    if !IsEvent(f) && c.pending != [] {
      IdsTail(c.pending);
    }
  }

  lemma {:induction false} HandleAllKeepsSettle(c: Client, fs: seq<Frame>)
    requires SettleInv(c)
    ensures SettleInv(HandleAll(c, fs))
    decreases |fs|
  {
    hide SettleInv, HandleFrame;
    if fs != [] {
      HandleFrameKeepsTimers(c, fs[0]);
      HandleAllKeepsSettle(HandleFrame(c, fs[0]), fs[1..]);
    }
  }

  /** x is the one issued request that is in none of the places. */
  ghost predicate Held(c: Client, x: Request)
  {
    Numbered(c.issued) && forall r :: Places(c, r) + N([x], r) == N(c.issued, r)
  }

  lemma HeldIdIsNew(c: Client, x: Request)
    requires Held(c, x)
    ensures x.id !in Ids(c.pending)
  {
    if x.id in Ids(c.pending) {
      var y :| y in c.pending && y.id == x.id;
      NIn(c.pending, y);
      NOne(x, x);
      NOne(x, y);
      NIn(c.issued, x);
      NIn(c.issued, y);
      assert Places(c, y) + N([x], y) == N(c.issued, y) && Places(c, x) + N([x], x) == N(c.issued, x);
      NumberedOnce(c.issued, x);
    }
  }

  lemma SendKeepsTimers(c: Client, x: Request, w: int)
    requires w <= |Encode(x.frame)| && x.id !in Ids(c.pending) && TimersMatch(c)
    ensures TimersMatch(Send(c, x, w).c)
  {
    hide Encode, Rejections, Ids;
    IdsAppend(c.pending, x);
    var q := Enqueue(c, x);
    if WriteOrQueue(q.backlog, Encode(x.frame), w).None? {
      assert q.pending[|q.pending| - 1] == x;
      assert q.pending[..|q.pending| - 1] == c.pending;
      assert q.timers.Keys - {x.id} == c.timers.Keys;
    }
  }

  lemma SendKeepsSettle(c: Client, x: Request, w: int)
    requires w <= |Encode(x.frame)| && Held(c, x) && TimersMatch(c) && c.handled <= |c.log|
    ensures SettleInv(Send(c, x, w).c)
  {
    hide Places, N, Encode, Ids, TimersMatch;
    HeldIdIsNew(c, x);
    SendKeepsTimers(c, x, w);
    var d := Send(c, x, w).c;
    forall r ensures Places(d, r) == N(d.issued, r) { SendPlaces(c, x, w, r); }
  }

  lemma {:induction false} SendHelloKeepsSettle(c: Client, frames: seq<Frame>, ws: seq<int>)
    requires HelloResults(frames, ws) && SettleInv(c)
    ensures SettleInv(SendHello(c, frames, ws).c)
    decreases |frames|
  {
    if frames != [] {
      var x := Request(|c.issued|, frames[0], Handshake);
      var d := c.(issued := c.issued + [x]);
      hide N, Send, Encode, Ids;
      forall r ensures Places(d, r) + N([x], r) == N(d.issued, r) {
        assert Places(d, r) == Places(c, r);
        NAppend(c.issued, [x], r);
      }
      hide Places;
      SendKeepsSettle(d, x, ws[0]);
      SendHelloKeepsSettle(Send(d, x, ws[0]).c, frames[1..], ws[1..]);
    }
  }

  lemma RejectAllKeepsSettle(c: Client)
    requires Conserved(c) && c.timers.Keys <= Ids(c.pending) && c.handled <= |c.log|
    ensures SettleInv(RejectAllPending(c)) && RejectAllPending(c).timers == map[]
  {
    hide Places, N;
    var d := RejectAllPending(c);
    forall r ensures Places(d, r) == N(d.issued, r) { RejectAllPlaces(c, r); }
    assert Ids([]) == {};
  }

  // ---------------------------------------------------------------------------
  // Every step keeps the invariant
  // ---------------------------------------------------------------------------

  /** d has the queues, log and timers of c. */
  predicate SameQueues(c: Client, d: Client)
  {
    && d.waiters == c.waiters && d.woken == c.woken && d.released == c.released && d.pending == c.pending
    && d.log == c.log && d.issued == c.issued && d.timers == c.timers && d.gen == c.gen && d.handled == c.handled
  }

  lemma SameQueuesSettle(c: Client, d: Client)
    requires SettleInv(c) && SameQueues(c, d)
    ensures SettleInv(d)
  {
    hide N, Ids;
    forall r ensures Places(d, r) == N(d.issued, r) {
      assert Places(d, r) == Places(c, r);
    }
  }

  lemma EnsureReadySame(c: Client, x: Request)
    ensures var d := EnsureReady(c, x);
            && d.issued == c.issued && d.pending == c.pending && d.timers == c.timers && d.gen == c.gen
            && d.handled == c.handled && |d.log| >= |c.log|
  {
    hide Rejections;
    var d := EnsureReady(c, x);
    if c.state == Closed {
      assert d == Reject(c, [x]);
    } else if c.live && c.state == Ready {
      assert d == c.(released := c.released + [x]);
    } else {
      var e := OpenSocket(if c.state == Idle then c.(state := Connecting) else c);
      assert d.log == c.log;
    }
  }

  lemma IssueKeepsSettle(c: Client, frame: Frame, origin: Origin)
    requires SettleInv(c)
    ensures SettleInv(Issue(c, frame, origin))
  {
    hide Conserved, Ids, EnsureReady;
    IssueKeepsConserved(c, frame, origin);
    var x := Request(|c.issued|, frame, origin);
    EnsureReadySame(c.(issued := c.issued + [x]), x);
  }

  lemma SubscribeKeepsSettle(c: Client, channel: bytes, handler: nat, filter: Option<bytes>)
    requires SettleInv(c)
    ensures SettleInv(Subscribe(c, channel, handler, filter))
  {
    hide SettleInv, Issue, Find, At, Update, SubFrame;
    var d := Subscribe(c, channel, handler, filter);
    if Find(c.heap, c.subs, channel).None? && SubSize(channel, filter) <= MAX_PAYLOAD {
      var e := |c.heap|;
      var added := c.(heap := c.heap + [RawEntry.Entry(channel, filter, {handler}, false)], subs := c.subs + [e]);
      SameQueuesSettle(c, added);
      IssueKeepsSettle(added, SubFrame(channel, filter), SubOf(e, handler));
    } else {
      SameQueuesSettle(c, d);
    }
  }

  lemma RemoveKeepsSettle(c: Client, channel: bytes, handler: nat)
    requires SettleInv(c)
    ensures SettleInv(RemoveHandler(c, channel, handler))
  {
    hide SettleInv, Issue, Find, At, Update, Delete, UnsubFrame;
    var found := Find(c.heap, c.subs, channel);
    if found.Some? {
      var entry := At(c.heap, found.value);
      var d := c.(heap := Update(c.heap, found.value, entry.(handlers := entry.handlers - {handler})));
      var gone := d.(subs := Delete(d.heap, d.subs, channel));
      SameQueuesSettle(c, d);
      SameQueuesSettle(c, gone);
      if 4 + |channel| <= MAX_PAYLOAD {
        IssueKeepsSettle(gone, UnsubFrame(channel), UnsubOf(channel));
      }
    }
  }

  lemma ContinueKeepsSettle(c: Client)
    requires SettleInv(c) && c.handled < |c.log|
    ensures SettleInv(Continue(c))
  {
    hide SettleInv, At, Update, Delete;
    var d := Continue(c);
    assert SettleInv(c.(handled := c.handled + 1)) by { HandledGrows(c); }
    SameQueuesSettle(c.(handled := c.handled + 1), d);
  }

  lemma HandledGrows(c: Client)
    requires SettleInv(c) && c.handled < |c.log|
    ensures SettleInv(c.(handled := c.handled + 1))
  {
    hide Conserved, Ids;
    ConservedIgnoresLink(c, c.(handled := c.handled + 1));
  }

  lemma WakeKeepsSettle(c: Client)
    requires SettleInv(c) && c.woken != []
    ensures SettleInv(WakeNext(c))
  {
    hide N, Ids, Requests;
    var x, d := c.woken[0], c.(woken := c.woken[1..]);
    var t := EnsureReady(d, x);
    hide EnsureReady;
    EnsureReadySame(d, x);
    forall r ensures Places(t, r) == N(t.issued, r) {
      EnsureReadyPlaces(d, x, r);
      NTail(c.woken, r);
    }
  }

  lemma SendNextKeepsSettle(c: Client, w: int)
    requires SettleInv(c) && c.released != [] && w <= |Encode(c.released[0].frame)|
    ensures SettleInv(SendNext(c, w).c)
  {
    hide N, Ids, Requests, Encode;
    var x, d := c.released[0], c.(released := c.released[1..]);
    forall r ensures Places(d, r) + N([x], r) == N(d.issued, r) {
      NTail(c.released, r);
    }
    hide Places, Send;
    SendKeepsSettle(d, x, w);
  }

  lemma OpenKeepsSettle(c: Client, ws: seq<int>)
    requires SettleInv(c) && c.pending == [] && HelloResults(Hello(c.token, Wired(c.heap, c.subs)), ws)
    ensures SettleInv(OnOpen(c, ws).c)
  {
    hide N, Requests, Hello, SendHello, Wired, Encode;
    var up := c.(dialing := false, gen := c.gen + 1, live := true, inbound := [], backlog := []);
    assert c.timers == map[];
    forall r ensures Places(up, r) == N(up.issued, r) {
      assert Places(up, r) == Places(c, r);
    }
    SendHelloKeepsSettle(up, Hello(c.token, Wired(c.heap, c.subs)), ws);
    var h := SendHello(up, Hello(c.token, Wired(c.heap, c.subs)), ws).c;
    var t := OnOpen(c, ws).c;
    hide Ids;
    forall r ensures Places(t, r) == N(t.issued, r) {
      NAppend(h.woken, h.waiters, r);
      NNone(r);
      assert Places(t, r) == Places(h, r);
    }
  }

  lemma RejectWaitersKeepsSettle(c: Client)
    requires SettleInv(c)
    ensures SettleInv(RejectWaiters(c))
  {
    hide N, Ids, Places;
    var d := RejectWaiters(c);
    forall r ensures Places(d, r) == N(d.issued, r) { RejectWaitersPlaces(c, r); }
  }

  /** Rejecting what is pending, then possibly the waiters, keeps the invariant. */
  lemma TeardownKeepsSettle(c: Client)
    requires Conserved(c) && c.timers.Keys <= Ids(c.pending) && c.handled <= |c.log|
    ensures SettleInv(RejectAllPending(c)) && SettleInv(RejectWaiters(RejectAllPending(c)))
    ensures RejectAllPending(c).timers == map[] && RejectAllPending(c).pending == []
  {
    RejectAllKeepsSettle(c);
    RejectWaitersKeepsSettle(RejectAllPending(c));
  }

  lemma ConservedIgnoresLink(c: Client, d: Client)
    requires Conserved(c)
    requires d.waiters == c.waiters && d.woken == c.woken && d.released == c.released && d.pending == c.pending
    requires d.log == c.log && d.issued == c.issued
    ensures Conserved(d)
  {
    hide N, Requests;
    forall r ensures Places(d, r) == N(d.issued, r) {
      assert Places(d, r) == Places(c, r);
    }
  }

  lemma DisconnectKeepsSettle(cfg: Config, c: Client, j: real)
    requires Conserved(c) && c.timers.Keys <= Ids(c.pending) && c.handled <= |c.log|
    ensures SettleInv(HandleDisconnect(cfg, c, j))
  {
    hide Conserved, SettleInv, Ids, Backoff, Rejections;
    var e := c.(live := false, inbound := [], backlog := []);
    ConservedIgnoresLink(c, e);
    TeardownKeepsSettle(e);
    var d := RejectAllPending(e);
    hide RejectAllPending;
    var t := HandleDisconnect(cfg, c, j);
    if t.waiters == d.waiters && t.log == d.log {
      SameQueuesSettle(d, t);
    } else {
      SameQueuesSettle(RejectWaiters(d), t);
    }
  }

  lemma CloseKeepsSettle(c: Client)
    requires SettleInv(c)
    ensures SettleInv(Close(c))
  {
    hide Conserved, Ids, Rejections;
    var e := c.(state := Closed, timer := None);
    ConservedIgnoresLink(c, e);
    TeardownKeepsSettle(e);
    hide SettleInv;
    SameQueuesSettle(RejectWaiters(RejectAllPending(e)), Close(c));
  }

  lemma TimeoutKeepsSettle(cfg: Config, c: Client, id: nat, j: real)
    requires SettleInv(c) && id in c.timers
    ensures SettleInv(RequestTimeout(cfg, c, id, j))
  {
    hide Ids, Rejections, HandleDisconnect;
    var fired := c.(timers := c.timers - {id});
    ConservedIgnoresLink(c, fired);
    RejectAllKeepsSettle(fired);
    var d := RejectAllPending(fired);
    hide Conserved;
    if d.live {
      ConservedIgnoresLink(d, d.(live := false));
      DisconnectKeepsSettle(cfg, d.(live := false), j);
    }
  }

  /** Every step keeps exactly-once settlement. */
  lemma StepKeepsSettle(cfg: Config, s: Sys, step: Step)
    requires DeadIsEmpty(s.c) && OneLink(s.c) && SettleInv(s.c) && Enabled(s, step)
    ensures SettleInv(Apply(cfg, s, step).c)
  {
    hide SettleInv, Issue, EnsureReady, Subscribe, RemoveHandler, Close, SendNext, Continue, OnOpen;
    hide RequestTimeout, HandleDisconnect, ParseAll, HandleAll, Encode, Hello, AuthFrame, Submit, Open, TryConsume;
    hide Flush;
    var c, t := s.c, Apply(cfg, s, step).c;
    match step {
      case UserRequest(frame) => IssueKeepsSettle(c, frame, Direct);
      case UserAuth(token) => IssueKeepsSettle(c, AuthFrame(token), AuthOf(token));
      case UserSubscribe(ch, h, f) => SubscribeKeepsSettle(c, ch, h, f);
      case UserUnsubscribe(ch, h) => RemoveKeepsSettle(c, ch, h);
      case UserClose => CloseKeepsSettle(c);
      case Wake => WakeKeepsSettle(c);
      case SendFrame(w) => SendNextKeepsSettle(c, w);
      case RunContinuation => ContinueKeepsSettle(c);
      case DialOk(ws) => OpenKeepsSettle(c, ws);
      case DialFail(j) =>
        SameQueuesSettle(c, c.(dialing := false));
        SettledClientTearsDown(cfg, c.(dialing := false), j);
      case Timeout(id, j) => TimeoutKeepsSettle(cfg, c, id, j);
      case SocketClosed(j) => SettledClientTearsDown(cfg, c, j);
      case Data(n) =>
        var (fs, rest) := ParseAll(c.inbound + Last(s).s2c[..n]);
        SameQueuesSettle(c, c.(inbound := rest));
        HandleAllKeepsSettle(c.(inbound := rest), fs);
      case StrayData(chunk) =>
        var (fs, rest) := ParseAll(c.inbound + chunk);
        SameQueuesSettle(c, c.(inbound := rest));
        HandleAllKeepsSettle(c.(inbound := rest), fs);
      case ReconnectTimer => SameQueuesSettle(c, t);
      case DrainSocket(_) => SameQueuesSettle(c, t);
      case Deliver(_, _) =>
      case Greet(_) =>
      case Serve(_, _) =>
      case Emit(_, _) =>
    }
  }

  lemma SettledClientTearsDown(cfg: Config, c: Client, j: real)
    requires SettleInv(c)
    ensures SettleInv(HandleDisconnect(cfg, c, j))
  {
    hide Conserved, Ids, HandleDisconnect;
    DisconnectKeepsSettle(cfg, c, j);
  }
}
