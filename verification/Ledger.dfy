/**
 What was submitted on which connection: every connection starts with the same
 handshake, and a request's bytes go to at most one connection, at most once.
 */
module Ledger {
  import opened Bytes
  import opened Frames
  import opened Backlog
  import opened ClientSteps
  import opened System
  import opened Lifecycle
  import opened Settlement
  import opened Correlation

  /** Requests waiting to be sent are never handshake requests. */
  predicate NoHandshake(rs: seq<Request>) { forall i :: 0 <= i < |rs| ==> rs[i].origin != Handshake }

  predicate UserQueues(c: Client) { NoHandshake(c.waiters) && NoHandshake(c.woken) && NoHandshake(c.released) }

  /** AUTH iff a token was held, then one SUB per live entry, then user requests only. */
  predicate Shape(conn: Conn)
  {
    var hello := Hello(conn.token, conn.live);
    && |hello| <= |conn.sent|
    && FramesOf(conn.sent[..|hello|]) == hello
    && forall i :: 0 <= i < |conn.sent| ==> (conn.sent[i].origin == Handshake <==> i < |hello|)
  }

  predicate SentAt(conns: seq<Conn>, k: nat, j: nat, r: Request)
  {
    k < |conns| && j < |conns[k].sent| && conns[k].sent[j] == r
  }

  /** A request is submitted at most once, over all connections. */
  ghost predicate SentOnce(conns: seq<Conn>)
  {
    forall k: nat, j: nat, l: nat, m: nat, r ::
      SentAt(conns, k, j, r) && SentAt(conns, l, m, r) ==> k == l && j == m
  }

  /** r is settled, or still awaiting its reply on the live connection. */
  predicate Owed(c: Client, r: Request) { r in Requests(c.log) || (c.live && r in c.pending) }

  ghost predicate SentOwed(s: Sys)
  {
    forall k: nat, j: nat, r :: SentAt(s.conns, k, j, r) ==> Owed(s.c, r)
  }

  ghost predicate LedgerInv(s: Sys)
  {
    && UserQueues(s.c)
    && (forall k :: 0 <= k < |s.conns| ==> Shape(s.conns[k]))
    && SentOnce(s.conns)
    && SentOwed(s)
  }

  // ---------------------------------------------------------------------------
  // Steps that submit nothing
  // ---------------------------------------------------------------------------

  /** What was owed stays owed or gets settled, and no handshake request enters the queues. */
  ghost predicate Quietly(c: Client, d: Client)
  {
    && UserQueues(d)
    && forall r :: Owed(c, r) ==> Owed(d, r)
  }

  predicate SameSent(a: seq<Conn>, b: seq<Conn>)
  {
    && |a| == |b|
    && forall k :: 0 <= k < |a| ==>
         && b[k].sent == a[k].sent && b[k].token == a[k].token
         && b[k].live == a[k].live && b[k].parked == a[k].parked
  }

  lemma SameSentKeepsLedger(s: Sys, t: Sys)
    requires LedgerInv(s) && SameSent(s.conns, t.conns) && Quietly(s.c, t.c)
    ensures LedgerInv(t)
  {
    hide Owed, UserQueues, Hello;
    forall k: nat, j: nat, r | SentAt(t.conns, k, j, r) ensures SentAt(s.conns, k, j, r) {}
  }

  lemma LogGrows(c: Client, d: Client, r: Request)
    requires c.log <= d.log && r in Requests(c.log)
    ensures r in Requests(d.log)
  {
    var i :| 0 <= i < |c.log| && Requests(c.log)[i] == r;
    assert Requests(d.log)[i] == r;
  }

  lemma RejectedInLog(c: Client, rs: seq<Request>, r: Request)
    requires r in rs
    ensures r in Requests(Reject(c, rs).log)
  {
    var i :| 0 <= i < |rs| && rs[i] == r;
    assert Requests(Reject(c, rs).log)[|c.log| + i] == r;
  }

  lemma RejectAllQuietly(c: Client)
    requires UserQueues(c)
    ensures Quietly(c, RejectAllPending(c))
    ensures c.log <= RejectAllPending(c).log && RejectAllPending(c).waiters == c.waiters
    ensures forall r :: Owed(c, r) ==> r in Requests(RejectAllPending(c).log)
  {
    hide Ids;
    var d := RejectAllPending(c);
    forall r | Owed(c, r) ensures r in Requests(d.log) {
      if r in c.pending {
        RejectedInLog(c, c.pending, r);
      } else {
        LogGrows(c, d, r);
      }
    }
  }

  lemma RejectWaitersQuietly(c: Client)
    requires UserQueues(c)
    ensures Quietly(c, RejectWaiters(c)) && c.log <= RejectWaiters(c).log
    ensures forall r :: r in Requests(c.log) ==> r in Requests(RejectWaiters(c).log)
  {
    hide Requests;
    forall r | r in Requests(c.log) ensures r in Requests(RejectWaiters(c).log) {
      LogGrows(c, RejectWaiters(c), r);
    }
  }

  lemma DisconnectQuietly(cfg: Config, c: Client, j: real)
    requires UserQueues(c)
    ensures Quietly(c, HandleDisconnect(cfg, c, j))
  {
    hide Ids, Requests, Backoff, Rejections;
    var e := c.(live := false, inbound := [], backlog := []);
    RejectAllQuietly(c);
    assert RejectAllPending(e).log == RejectAllPending(c).log;
    var d := RejectAllPending(e);
    hide RejectAllPending;
    RejectWaitersQuietly(d);
    var t := HandleDisconnect(cfg, c, j);
    assert t.log == d.log || t.log == RejectWaiters(d).log;
  }

  lemma TimeoutQuietly(cfg: Config, c: Client, id: nat, j: real)
    requires UserQueues(c) && id in c.timers
    ensures Quietly(c, RequestTimeout(cfg, c, id, j))
  {
    hide Ids, Requests, HandleDisconnect, Rejections;
    var fired := c.(timers := c.timers - {id});
    RejectAllQuietly(fired);
    var d := RejectAllPending(fired);
    hide RejectAllPending;
    DisconnectQuietly(cfg, d.(live := false), j);
  }

  lemma CloseQuietly(c: Client)
    requires UserQueues(c)
    ensures Quietly(c, Close(c))
  {
    hide Ids, Requests, Rejections;
    var e := c.(state := Closed, timer := None);
    RejectAllQuietly(e);
    RejectWaitersQuietly(RejectAllPending(e));
  }

  lemma EnsureReadyQuietly(c: Client, x: Request)
    requires UserQueues(c) && x.origin != Handshake
    ensures Quietly(c, EnsureReady(c, x))
  {
    hide Requests;
    var d := EnsureReady(c, x);
    EnsureReadyCalm(c, x);
    EnsureReadySame(c, x);
    assert d.live == c.live;
    forall r | Owed(c, r) ensures Owed(d, r) {
      if r in Requests(c.log) {
        LogGrows(c, d, r);
      }
    }
    hide Rejections;
  }

  lemma IssueQuietly(c: Client, frame: Frame, origin: Origin)
    requires UserQueues(c) && origin != Handshake
    ensures Quietly(c, Issue(c, frame, origin))
  {
    hide EnsureReady, Requests;
    var x := Request(|c.issued|, frame, origin);
    EnsureReadyQuietly(c.(issued := c.issued + [x]), x);
  }

  lemma SubscribeQuietly(c: Client, channel: bytes, handler: nat, filter: Option<bytes>)
    requires UserQueues(c)
    ensures Quietly(c, Subscribe(c, channel, handler, filter))
  {
    hide Issue, Find, At, Update, SubFrame, Requests;
    if Find(c.heap, c.subs, channel).None? && SubSize(channel, filter) <= MAX_PAYLOAD {
      var e := |c.heap|;
      var added := c.(heap := c.heap + [RawEntry.Entry(channel, filter, {handler}, false)], subs := c.subs + [e]);
      IssueQuietly(added, SubFrame(channel, filter), SubOf(e, handler));
    }
  }

  lemma RemoveQuietly(c: Client, channel: bytes, handler: nat)
    requires UserQueues(c)
    ensures Quietly(c, RemoveHandler(c, channel, handler))
  {
    hide Issue, Find, At, Update, Delete, UnsubFrame, Requests;
    var found := Find(c.heap, c.subs, channel);
    if found.Some? && 4 + |channel| <= MAX_PAYLOAD {
      var entry := At(c.heap, found.value);
      var d := c.(heap := Update(c.heap, found.value, entry.(handlers := entry.handlers - {handler})));
      IssueQuietly(d.(subs := Delete(d.heap, d.subs, channel)), UnsubFrame(channel), UnsubOf(channel));
    }
  }

  lemma ContinueQuietly(c: Client)
    requires UserQueues(c) && c.handled < |c.log|
    ensures Quietly(c, Continue(c))
  {
    hide At, Update, Delete, Requests;
  }

  lemma WakeQuietly(c: Client)
    requires UserQueues(c) && c.woken != []
    ensures Quietly(c, WakeNext(c))
  {
    hide EnsureReady, Requests;
    EnsureReadyQuietly(c.(woken := c.woken[1..]), c.woken[0]);
  }

  lemma {:induction false} HandleAllQuietly(c: Client, fs: seq<Frame>)
    requires UserQueues(c)
    ensures Quietly(c, HandleAll(c, fs))
    decreases |fs|
  {
    hide Requests;
    if fs != [] {
      var d := HandleFrame(c, fs[0]);
      forall r | Owed(c, r) ensures Owed(d, r) {
        if r in Requests(c.log) {
          LogGrows(c, d, r);
        } else if !IsEvent(fs[0]) && r == c.pending[0] {
          ResolvedInLog(c.log, Settlement(r, Resolved(fs[0])));
        }
      }
      HandleAllQuietly(d, fs[1..]);
    }
  }

  lemma ResolvedInLog(log: seq<ClientSteps.Settlement>, e: ClientSteps.Settlement)
    ensures e.req in Requests(log + [e])
  {
    assert Requests(log + [e])[|log|] == e.req;
  }

  // ---------------------------------------------------------------------------
  // Sending and opening
  // ---------------------------------------------------------------------------

  lemma SubmitKeepsShape(conn: Conn, x: Request, o: Out)
    requires Shape(conn) && x.origin != Handshake
    ensures Shape(Submit(conn, [x], o))
  {
    hide Hello, Concat;
    var n := |Hello(conn.token, conn.live)|;
    assert (conn.sent + [x])[..n] == conn.sent[..n];
  }

  /** A released request has never been submitted. */
  lemma ReleasedIsNew(s: Sys, k: nat, j: nat)
    requires LedgerInv(s) && Conserved(s.c) && s.c.released != []
    ensures !SentAt(s.conns, k, j, s.c.released[0])
  {
    hide Requests, Shape, Hello;
    var x := s.c.released[0];
    if SentAt(s.conns, k, j, x) {
      assert Owed(s.c, x);
      NIn(s.c.released, x);
      NIn(s.c.pending, x);
      NIn(Requests(s.c.log), x);
      OnePlace(s.c, x);
    }
  }

  lemma SubmitKeepsOnce(s: Sys, x: Request, next: Conn)
    requires SentOnce(s.conns) && s.conns != [] && next.sent == Last(s).sent + [x]
    requires forall k: nat, j: nat :: !SentAt(s.conns, k, j, x)
    ensures SentOnce(SetLast(s, next).conns)
    ensures forall k: nat, j: nat, r :: SentAt(SetLast(s, next).conns, k, j, r) ==> r == x || SentAt(s.conns, k, j, r)
  {
    var conns, last := SetLast(s, next).conns, |s.conns| - 1;
    forall k: nat, j: nat, r | SentAt(conns, k, j, r) && !(k == last && j == |Last(s).sent|)
      ensures SentAt(s.conns, k, j, r) {}
  }

  lemma SendKeepsLedger(cfg: Config, s: Sys, w: int)
    requires LedgerInv(s) && Conserved(s.c) && s.c.gen == |s.conns| && (s.c.live ==> s.c.gen > 0) && DeadIsEmpty(s.c)
    requires Enabled(s, SendFrame(w))
    ensures LedgerInv(Apply(cfg, s, SendFrame(w)))
  {
    hide Send, Encode, Concat, EncodeAll, Requests, Hello, Shape, SentOnce;
    var c, t := s.c, Apply(cfg, s, SendFrame(w));
    var x, d := c.released[0], c.(released := c.released[1..]);
    SendSameLife(d, x, w);
    SendSubmits(d, x, w);
    var o := SendNext(c, w);
    assert UserQueues(o.c);
    if c.live && (c.backlog != [] || w >= 0) {
      forall k: nat, j: nat ensures !SentAt(s.conns, k, j, x) { ReleasedIsNew(s, k, j); }
      SubmitKeepsShape(Last(s), x, o);
      SubmitKeepsOnce(s, x, Submit(Last(s), [x], o));
    } else {
      forall r | Owed(c, r) ensures Owed(o.c, r) {
        if r in Requests(c.log) { LogGrows(c, o.c, r); }
      }
      SameSentKeepsLedger(s, t);
    }
  }

  lemma OpenShape(c: Client, ws: seq<int>) returns (rs: seq<Request>)
    requires HelloResults(Hello(c.token, Wired(c.heap, c.subs)), ws) && c.pending == []
    ensures var o := OnOpen(c, ws);
            && Shape(Open(c, o)) && Open(c, o).sent == rs && o.c.pending == rs && o.c.log == c.log
            && o.c.live && o.c.released == c.released && o.c.waiters == [] && o.c.woken == c.woken + c.waiters
  {
    hide SendHello, Hello, Wired, Encode, EncodeAll, Concat;
    var frames := Hello(c.token, Wired(c.heap, c.subs));
    var up := c.(dialing := false, gen := c.gen + 1, live := true, inbound := [], backlog := []);
    rs := SendHelloSubmits(up, frames, ws);
    SendHelloSameLife(up, frames, ws);
    var o := OnOpen(c, ws);
    assert o.c.issued[|c.issued|..] == rs;
    assert rs[..|frames|] == rs;
  }

  lemma OpenKeepsOnce(s: Sys, conn: Conn, d: Client)
    requires SentOnce(s.conns) && SentOwed(s) && !s.c.live && Conserved(d)
    requires d.pending == conn.sent && d.log == s.c.log
    ensures SentOnce(s.conns + [conn])
  {
    hide Requests;
    PendingDistinct(d);
    var conns := s.conns + [conn];
    forall k: nat, j: nat, r | SentAt(conns, k, j, r) && k < |s.conns|
      ensures SentAt(s.conns, k, j, r) && r !in d.pending
    {
      assert SentAt(s.conns, k, j, r);
      assert Owed(s.c, r);
      NIn(d.pending, r);
      NIn(Requests(d.log), r);
      OnePlace(d, r);
    }
    forall k: nat, j: nat, l: nat, m: nat, r | SentAt(conns, k, j, r) && SentAt(conns, l, m, r)
      ensures k == l && j == m
    {
      if k == |s.conns| { assert r in d.pending; }
      if l == |s.conns| { assert r in d.pending; }
    }
  }

  lemma OpenKeepsLedger(cfg: Config, s: Sys, ws: seq<int>)
    requires LedgerInv(s) && OneLink(s.c) && DeadIsEmpty(s.c) && Enabled(s, DialOk(ws))
    requires Conserved(Apply(cfg, s, DialOk(ws)).c)
    ensures LedgerInv(Apply(cfg, s, DialOk(ws)))
  {
    hide OnOpen, Open, Hello, Wired, Requests, Shape, SentOnce, Encode;
    var t := Apply(cfg, s, DialOk(ws));
    var conn := Open(s.c, OnOpen(s.c, ws));
    var rs := OpenShape(s.c, ws);
    assert t == Sys(OnOpen(s.c, ws).c, s.conns + [conn]);
    OpenKeepsOnce(s, conn, t.c);
    hide Conserved;
    forall k: nat, j: nat, r | SentAt(t.conns, k, j, r) ensures Owed(t.c, r) {
      if k < |s.conns| { assert SentAt(s.conns, k, j, r); }
    }
  }

  /** Only a send and an open submit anything. */
  lemma StepSameSent(cfg: Config, s: Sys, step: Step)
    requires Enabled(s, step) && !step.SendFrame? && !step.DialOk?
    ensures SameSent(s.conns, Apply(cfg, s, step).conns)
  {
    hide Issue, EnsureReady, Subscribe, RemoveHandler, Close, Continue, DialFailed, ReconnectFires, WakeNext;
    hide RequestTimeout, HandleDisconnect, ParseAll, OnData, Encode, Hello, AuthFrame, Open, TryConsume, Flush, Concat;
    if step.DrainSocket? && s.conns != [] {
      assert Last(s).sent + [] == Last(s).sent;
    }
  }

  /** Every step keeps the ledger. */
  lemma StepKeepsLedger(cfg: Config, s: Sys, step: Step)
    requires OneLink(s.c) && DeadIsEmpty(s.c) && s.c.gen == |s.conns| && (s.c.live ==> s.c.gen > 0)
    requires SettleInv(s.c) && LedgerInv(s) && Enabled(s, step)
    requires SettleInv(Apply(cfg, s, step).c)
    ensures LedgerInv(Apply(cfg, s, step))
  {
    hide LedgerInv, Quietly, Conserved, SameSent, UserQueues, Issue, EnsureReady, Subscribe, RemoveHandler, Close;
    hide SendNext, Continue, OnOpen;
    hide RequestTimeout, HandleDisconnect, ParseAll, HandleAll, Encode, Hello, AuthFrame, Open, TryConsume, Flush;
    var c, t := s.c, Apply(cfg, s, step);
    assert UserQueues(c) by { LedgerQueues(s); }
    match step {
      case UserRequest(frame) => IssueQuietly(c, frame, Direct);
      case UserAuth(token) => IssueQuietly(c, AuthFrame(token), AuthOf(token));
      case UserSubscribe(ch, h, f) => SubscribeQuietly(c, ch, h, f);
      case UserUnsubscribe(ch, h) => RemoveQuietly(c, ch, h);
      case UserClose => CloseQuietly(c);
      case Wake => WakeQuietly(c);
      case SendFrame(w) => SendKeepsLedger(cfg, s, w);
      case RunContinuation => ContinueQuietly(c);
      case DialOk(ws) => OpenKeepsLedger(cfg, s, ws);
      case DialFail(j) =>
        QuietlySame(c, c.(dialing := false));
        DisconnectQuietly(cfg, c.(dialing := false), j);
        QuietlyTrans(c, c.(dialing := false), t.c);
      case ReconnectTimer => QuietlySame(c, t.c);
      case Timeout(id, j) => TimeoutQuietly(cfg, c, id, j);
      case SocketClosed(j) => DisconnectQuietly(cfg, c, j);
      case Data(n) => OnDataQuietly(c, Last(s).s2c[..n]);
      case StrayData(chunk) => OnDataQuietly(c, chunk);
      case DrainSocket(_) => QuietlySame(c, t.c);
      case Deliver(_, _) => QuietlySame(c, t.c);
      case Greet(_) => QuietlySame(c, t.c);
      case Serve(_, _) => QuietlySame(c, t.c);
      case Emit(_, _) => QuietlySame(c, t.c);
    }
    if !step.SendFrame? && !step.DialOk? {
      StepSameSent(cfg, s, step);
      SameSentKeepsLedger(s, t);
    }
  }

  lemma LedgerQueues(s: Sys)
    requires LedgerInv(s)
    ensures UserQueues(s.c)
  {}

  lemma QuietlySame(c: Client, d: Client)
    requires UserQueues(c) && d.waiters == c.waiters && d.woken == c.woken && d.released == c.released
    requires d.log == c.log && d.pending == c.pending && d.live == c.live
    ensures Quietly(c, d)
  {}

  lemma QuietlyTrans(c: Client, d: Client, e: Client)
    requires Quietly(c, d) && Quietly(d, e)
    ensures Quietly(c, e)
  {}

  lemma OnDataQuietly(c: Client, chunk: bytes)
    requires UserQueues(c)
    ensures Quietly(c, OnData(c, chunk))
  {
    hide ParseAll, HandleAll;
    var (fs, rest) := ParseAll(c.inbound + chunk);
    QuietlySame(c, c.(inbound := rest));
    HandleAllQuietly(c.(inbound := rest), fs);
    QuietlyTrans(c, c.(inbound := rest), OnData(c, chunk));
  }
}
