/**
 Where a request goes next, and in which order requests are settled: those submitted on
 one connection are settled in the order in which they were submitted.
 */
module Progress {
  import opened Bytes
  import opened Frames
  import opened Backlog
  import opened ClientSteps
  import opened System
  import opened Lifecycle
  import opened Settlement
  import opened Correlation
  import opened Ledger
  import opened Subscriptions
  import opened Theorems

  // ---------------------------------------------------------------------------
  // What each step does to the queues
  // ---------------------------------------------------------------------------

  /** d settles just rs, in this order, all with a reply or all without. */
  predicate Settles(c: Client, d: Client, rs: seq<Request>, resolved: bool)
  {
    && c.log <= d.log && Requests(d.log[|c.log|..]) == rs
    && forall i :: |c.log| <= i < |d.log| ==> d.log[i].outcome.Resolved? == resolved
  }

  predicate SameQueues(c: Client, d: Client)
  {
    && d.waiters == c.waiters && d.woken == c.woken && d.released == c.released && d.pending == c.pending
    && d.live == c.live
  }

  /** x was let through, parked or turned away, whichever the phase of c says. */
  predicate Placed(c: Client, d: Client, x: Request)
  {
    match c.state
    case Closed => SameQueues(c, d) && Settles(c, d, [x], false)
    case Ready => SameQueues(c.(released := c.released + [x]), d) && d.log == c.log
    case _ => SameQueues(c.(waiters := c.waiters + [x]), d) && d.log == c.log
  }

  /** The queue was rejected, and what is parked as well if the client will not dial again. */
  predicate Torn(c: Client, d: Client)
  {
    && d.woken == c.woken && d.released == c.released && d.pending == [] && !d.live
    && if d.state in {Idle, Closed} then d.waiters == [] && Settles(c, d, c.pending + c.waiters, false)
       else d.waiters == c.waiters && Settles(c, d, c.pending, false)
  }

  /** The n oldest queued requests were answered. */
  predicate Replied(c: Client, d: Client, n: nat)
  {
    n <= |c.pending| && SameQueues(c.(pending := c.pending[n..]), d) && Settles(c, d, c.pending[..n], true)
  }

  predicate Sent(c: Client, d: Client, w: int)
    requires c.released != []
  {
    var x, rest := c.released[0], c.released[1..];
    if c.backlog != [] || w >= 0 then SameQueues(c.(released := rest, pending := c.pending + [x]), d) && d.log == c.log
    else SameQueues(c.(released := rest), d) && Settles(c, d, [x], false)
  }

  /** A call that makes at most one request. */
  predicate Calls(c: Client, d: Client)
  {
    if d.issued == c.issued then SameQueues(c, d) && d.log == c.log
    else |d.issued| == |c.issued| + 1 && c.issued <= d.issued && Placed(c, d, d.issued[|c.issued|])
  }

  predicate Opened(c: Client, d: Client)
  {
    && SameQueues(c.(waiters := [], woken := c.woken + c.waiters, pending := d.pending, live := true), d)
    && d.log == c.log && d.issued == c.issued + d.pending
  }

  predicate Tears(step: Step) { step.UserClose? || step.DialFail? || step.SocketClosed? || step.Timeout? }

  ghost predicate Shifts(c: Client, d: Client, step: Step)
  {
    (!step.DialOk? && !Called(step) ==> d.issued == c.issued) &&
    match step
    case Wake => c.woken != [] && Placed(c.(woken := c.woken[1..]), d, c.woken[0])
    case SendFrame(w) => c.released != [] && Sent(c, d, w)
    case DialOk(_) => Opened(c, d)
    case Data(_) => exists n: nat :: Replied(c, d, n)
    case _ =>
      if Tears(step) then Torn(c, d) else if Called(step) then Calls(c, d)
      else SameQueues(c, d) && d.log == c.log
  }

  predicate Called(step: Step)
  {
    step.UserRequest? || step.UserAuth? || step.UserSubscribe? || step.UserUnsubscribe?
  }

  lemma SettlesNone(c: Client, d: Client, resolved: bool)
    requires d.log == c.log
    ensures Settles(c, d, [], resolved)
  {}

  lemma RejectSettles(c: Client, rs: seq<Request>)
    ensures Settles(c, Reject(c, rs), rs, false)
  {
    assert Reject(c, rs).log[|c.log|..] == Rejections(rs);
    assert Requests(Rejections(rs)) == rs;
  }

  lemma SettlesBoth(c: Client, d: Client, e: Client, a: seq<Request>, b: seq<Request>)
    requires Settles(c, d, a, false) && Settles(d, e, b, false)
    ensures Settles(c, e, a + b, false)
  {
    assert e.log[|c.log|..] == d.log[|c.log|..] + e.log[|d.log|..];
    assert Requests(e.log[|c.log|..]) == a + b;
  }

  lemma EnsureReadyPlaces(c: Client, x: Request)
    requires c.live <==> c.state == Ready
    ensures Placed(c, EnsureReady(c, x), x) && EnsureReady(c, x).issued == c.issued
  {
    hide OpenSocket, Rejections, Settles;
    if c.state == Closed {
      RejectSettles(c, [x]);
    } else {
      OpenSocketOnlyDials(c);
      OpenSocketOnlyDials(c.(state := Connecting));
    }
  }

  lemma IssueCalls(c: Client, d: Client, frame: Frame, origin: Origin)
    requires c.live <==> c.state == Ready
    requires d == Issue(c, frame, origin)
    ensures Calls(c, d) && |d.issued| == |c.issued| + 1
  {
    hide EnsureReady, Settles;
    var x := Request(|c.issued|, frame, origin);
    EnsureReadyPlaces(c.(issued := c.issued + [x]), x);
    PlacedSame(c.(issued := c.issued + [x]), c, d, x);
  }

  lemma PlacedSame(b: Client, c: Client, d: Client, x: Request)
    requires Placed(b, d, x) && SameQueues(b, c) && b.log == c.log && b.state == c.state
    ensures Placed(c, d, x)
  {}

  lemma SubscribeCalls(c: Client, channel: bytes, handler: nat, filter: Option<bytes>)
    requires c.live <==> c.state == Ready
    ensures Calls(c, Subscribe(c, channel, handler, filter))
  {
    hide Issue, Find, At, Update, SubFrame, Settles;
    if Find(c.heap, c.subs, channel).None? && SubSize(channel, filter) <= MAX_PAYLOAD {
      var e := |c.heap|;
      var added := c.(heap := c.heap + [RawEntry.Entry(channel, filter, {handler}, false)], subs := c.subs + [e]);
      var d := Subscribe(c, channel, handler, filter);
      IssueCalls(added, d, SubFrame(channel, filter), SubOf(e, handler));
      PlacedSame(added, c, d, d.issued[|c.issued|]);
    }
  }

  lemma RemoveCalls(c: Client, channel: bytes, handler: nat)
    requires c.live <==> c.state == Ready
    ensures Calls(c, RemoveHandler(c, channel, handler))
  {
    hide Issue, Find, At, Update, Delete, UnsubFrame, Settles;
    var found := Find(c.heap, c.subs, channel);
    var d := RemoveHandler(c, channel, handler);
    if found.Some? && At(c.heap, found.value).handlers - {handler} == {} &&
       c.live && c.state == Ready && 4 + |channel| <= MAX_PAYLOAD
    {
      var entry := At(c.heap, found.value);
      var less := c.(heap := Update(c.heap, found.value, entry.(handlers := entry.handlers - {handler})));
      var gone := less.(subs := Delete(less.heap, less.subs, channel));
      IssueCalls(gone, d, UnsubFrame(channel), UnsubOf(channel));
      PlacedSame(gone, c, d, d.issued[|c.issued|]);
    }
  }

  /** Rejecting the queue and then the parked requests. */
  lemma RejectsBoth(c: Client)
    ensures var d := RejectAllPending(c); Settles(c, d, c.pending, false) && d.waiters == c.waiters
    ensures Settles(c, RejectWaiters(RejectAllPending(c)), c.pending + c.waiters, false)
  {
    hide Settles, Ids;
    var d := RejectAllPending(c);
    RejectSettles(c, c.pending);
    SettlesSame(c, Reject(c, c.pending), c, d, c.pending);
    RejectSettles(d, d.waiters);
    SettlesSame(d, Reject(d, d.waiters), d, RejectWaiters(d), d.waiters);
    SettlesBoth(c, d, RejectWaiters(d), c.pending, c.waiters);
  }

  lemma SettlesSame(a: Client, b: Client, c: Client, d: Client, rs: seq<Request>)
    requires Settles(a, b, rs, false) && a.log == c.log && b.log == d.log
    ensures Settles(c, d, rs, false)
  {}

  lemma DisconnectTears(cfg: Config, c: Client, j: real)
    requires c.state == Closed ==> c.waiters == []
    ensures Torn(c, HandleDisconnect(cfg, c, j)) && HandleDisconnect(cfg, c, j).issued == c.issued
  {
    hide Settles, Ids, Rejections, Delay, Backoff, RejectAllPending, RejectWaiters;
    var b := c.(live := false, inbound := [], backlog := []);
    var d, e := RejectAllPending(b), HandleDisconnect(cfg, c, j);
    RejectAllFrame(b);
    RejectsBoth(b);
    assert c.pending + [] == c.pending;
    SettlesSame(b, d, c, d, c.pending);
    SettlesSame(b, RejectWaiters(d), c, RejectWaiters(d), c.pending + c.waiters);
    if d.state != Closed && !cfg.enabled {
      WaitersFrame(d, d.(state := Idle));
      SettlesSame(c, RejectWaiters(d), c, e, c.pending + c.waiters);
    } else {
      var u := d.(state := Reconnecting);
      WaitersFrame(d, u.(state := Closed));
      if e.state == Closed && d.state != Closed {
        SettlesSame(c, RejectWaiters(d), c, e, c.pending + c.waiters);
      } else {
        SettlesSame(c, d, c, e, c.pending);
      }
    }
  }

  lemma RejectAllFrame(c: Client)
    ensures var d := RejectAllPending(c); d == c.(pending := [], timers := d.timers, log := d.log)
  {
    hide Rejections, Ids;
  }

  lemma WaitersFrame(c: Client, d: Client)
    requires d.waiters == c.waiters && d.log == c.log
    ensures RejectWaiters(d).log == RejectWaiters(c).log
    ensures RejectWaiters(d) == d.(waiters := [], log := RejectWaiters(d).log)
  {
    hide Rejections;
  }

  lemma TimeoutTears(cfg: Config, c: Client, id: nat, j: real)
    requires id in c.timers && TimersMatch(c) && OneLink(c) && DeadIsEmpty(c) && NoStranded(c)
    ensures Torn(c, RequestTimeout(cfg, c, id, j)) && RequestTimeout(cfg, c, id, j).issued == c.issued
  {
    hide Settles, HandleDisconnect, RejectAllPending;
    assert c.pending != [];
    var fired := c.(timers := c.timers - {id});
    var d := RejectAllPending(fired);
    var e := RequestTimeout(cfg, c, id, j);
    RejectAllFrame(fired);
    RejectsBoth(fired);
    SettlesSame(fired, d, c, d, c.pending);
    assert e == HandleDisconnect(cfg, d.(live := false), j);
    DisconnectTears(cfg, d.(live := false), j);
    var rest := if e.state in {Idle, Closed} then c.waiters else [];
    assert [] + rest == rest && c.pending + [] == c.pending;
    assert Settles(d.(live := false), e, rest, false);
    SettlesSame(d.(live := false), e, d, e, rest);
    SettlesBoth(c, d, e, c.pending, rest);
  }

  lemma CloseTears(c: Client)
    ensures Torn(c, Close(c)) && Close(c).issued == c.issued
  {
    hide Settles, Ids, Rejections, RejectAllPending, RejectWaiters;
    var b := c.(state := Closed, timer := None);
    RejectAllFrame(b);
    RejectsBoth(b);
    var d := RejectWaiters(RejectAllPending(b));
    WaitersFrame(RejectAllPending(b), RejectAllPending(b));
    SettlesSame(b, d, c, Close(c), c.pending + c.waiters);
  }

  lemma AnswersSettle(c: Client, d: Client, fs: seq<Frame>)
    requires |fs| <= |c.pending| && d.log == c.log + Answers(c.pending, fs)
    ensures Settles(c, d, c.pending[..|fs|], true)
  {
    assert d.log[|c.log|..] == Answers(c.pending, fs);
    assert Requests(Answers(c.pending, fs)) == c.pending[..|fs|];
  }

  lemma DataReplies(c: Client, conn: Conn, n: nat)
    requires Inbox(c, conn) && Wire(conn) && n <= |conn.s2c|
    ensures exists m: nat :: Replied(c, OnData(c, conn.s2c[..n]), m)
    ensures OnData(c, conn.s2c[..n]).issued == c.issued
  {
    hide ParseAll, Replies, HandleAll, Answers, Settles, Inbox, Wire, EncodeAll;
    DataAnswers(c, conn, n);
    var (fs, rest) := ParseAll(c.inbound + conn.s2c[..n]);
    var d := OnData(c, conn.s2c[..n]);
    HandleAllSameLife(c.(inbound := rest), fs);
    HandleAllIssues(c.(inbound := rest), fs);
    AnswersSettle(c, d, Replies(fs));
    assert Replied(c, d, |Replies(fs)|);
  }

  lemma {:induction false} HandleAllIssues(c: Client, fs: seq<Frame>)
    ensures HandleAll(c, fs).issued == c.issued
    ensures c.pending == [] ==> HandleAll(c, fs).pending == [] && HandleAll(c, fs).log == c.log
    decreases |fs|
  {
    hide IsEvent;
    if fs != [] { HandleAllIssues(HandleFrame(c, fs[0]), fs[1..]); }
  }

  lemma SendShifts(c: Client, w: int)
    requires c.released != [] && w <= |Encode(c.released[0].frame)|
    ensures Sent(c, SendNext(c, w).c, w) && SendNext(c, w).c.issued == c.issued
  {
    hide Settles, Encode, Concat, Ids, EncodeAll, FramesOf;
    var x, rest := c.released[0], c.released[1..];
    var b := c.(released := rest);
    SendSubmits(b, x, w);
    SendSameLife(b, x, w);
    if c.backlog == [] && w < 0 {
      FailedSendRejects(b, x, w);
      SettlesSame(b, Reject(b, [x]), c, SendNext(c, w).c, [x]);
    }
  }

  lemma FailedSendRejects(c: Client, x: Request, w: int)
    requires c.backlog == [] && w < 0 && w <= |Encode(x.frame)|
    ensures Send(c, x, w).c.log == Reject(c, [x]).log && Settles(c, Reject(c, [x]), [x], false)
  {
    hide Settles, Encode, Rejections;
    RejectSettles(c, [x]);
    var q := Enqueue(c, x);
    assert q.pending[|q.pending| - 1] == x;
    assert WriteOrQueue(q.backlog, Encode(x.frame), w).None?;
  }

  lemma OpenShifts(cfg: Config, s: Sys, ws: seq<int>)
    requires Enabled(s, DialOk(ws)) && s.c.pending == []
    ensures Opened(s.c, Apply(cfg, s, DialOk(ws)).c)
  {
    hide SendHello, Hello, Wired, Encode, EncodeAll, Concat;
    var c := s.c;
    var frames := Hello(c.token, Wired(c.heap, c.subs));
    var up := c.(dialing := false, gen := c.gen + 1, live := true, inbound := [], backlog := []);
    var rs := SendHelloSubmits(up, frames, ws);
    SendHelloSameLife(up, frames, ws);
    assert [] + rs == rs;
  }

  lemma CallShifts(cfg: Config, s: Sys, step: Step)
    requires OneLink(s.c) && Enabled(s, step) && Called(step)
    ensures Calls(s.c, Apply(cfg, s, step).c)
  {
    hide Issue, Subscribe, RemoveHandler, AuthFrame, Calls;
    var c := s.c;
    match step {
      case UserRequest(frame) => IssueCalls(c, Issue(c, frame, Direct), frame, Direct);
      case UserAuth(t) => IssueCalls(c, Issue(c, AuthFrame(t), AuthOf(t)), AuthFrame(t), AuthOf(t));
      case UserSubscribe(ch, h, f) => SubscribeCalls(c, ch, h, f);
      case UserUnsubscribe(ch, h) => RemoveCalls(c, ch, h);
    }
  }

  lemma TearShifts(cfg: Config, s: Sys, step: Step)
    requires OneLink(s.c) && DeadIsEmpty(s.c) && NoStranded(s.c) && TimersMatch(s.c) && Enabled(s, step) && Tears(step)
    ensures var d := Apply(cfg, s, step).c; Torn(s.c, d) && d.issued == s.c.issued
  {
    hide Close, HandleDisconnect, RequestTimeout, Torn, TimersMatch, OneLink, DeadIsEmpty;
    var c := s.c;
    match step {
      case UserClose => CloseTears(c);
      case DialFail(j) => DialFailTears(cfg, c, j);
      case Timeout(id, j) => TimeoutTears(cfg, c, id, j);
      case SocketClosed(j) => DisconnectTears(cfg, c, j);
    }
  }

  /** Each step of the client moves its requests as said above. */
  lemma StepShifts(cfg: Config, s: Sys, step: Step)
    requires Inv(cfg, s) && Enabled(s, step)
    ensures Shifts(s.c, Apply(cfg, s, step).c, step)
  {
    hide SettleInv, Correlated, LedgerInv, SubInv, Wire, Inbox, Budget, DelayInRange, Phases;
    hide Issue, EnsureReady, Subscribe, RemoveHandler, Close, Send, Continue, OnOpen, RequestTimeout, HandleDisconnect;
    hide OnData, ParseAll, Encode, EncodeAll, Hello, AuthFrame, Open, TryConsume, Flush, Concat, FlushResults;
    hide Torn, Sent, Opened, Replied, Calls, Settles, Placed;
    var c := s.c;
    if Called(step) {
      CallShifts(cfg, s, step);
    } else if Tears(step) {
      InvTimers(cfg, s);
      TearShifts(cfg, s, step);
    } else {
      OtherShifts(cfg, s, step);
    }
  }

  lemma OtherShifts(cfg: Config, s: Sys, step: Step)
    requires OneLink(s.c) && DeadIsEmpty(s.c) && LinkInv(s) && Enabled(s, step) && !Called(step) && !Tears(step)
    ensures Shifts(s.c, Apply(cfg, s, step).c, step)
  {
    hide Wire, Inbox, EnsureReady, Send, Continue, OnOpen, OnData, ParseAll, Encode, EncodeAll, Hello, Open, TryConsume;
    hide Flush, Concat, FlushResults, OpenSocket, HelloResults, Wired, Sent, Opened, Replied, Settles, Placed;
    var c := s.c;
    match step {
      case Wake => EnsureReadyPlaces(c.(woken := c.woken[1..]), c.woken[0]);
      case SendFrame(w) => SendShifts(c, w);
      case RunContinuation => ContinueFrame(c);
      case DialOk(ws) => OpenShifts(cfg, s, ws);
      case ReconnectTimer => OpenSocketOnlyDials(c.(timer := None));
      case Data(n) => DataReplies(c, Last(s), n);
      case StrayData(chunk) => StrayShifts(c, chunk);
      case _ =>
    }
  }

  lemma InvTimers(cfg: Config, s: Sys)
    requires Inv(cfg, s)
    ensures TimersMatch(s.c) && Conserved(s.c)
  {
    hide LifeInv, LinkInv, Correlated, LedgerInv, SubInv;
  }

  lemma DialFailTears(cfg: Config, c: Client, j: real)
    requires c.state == Closed ==> c.waiters == []
    ensures Torn(c, DialFailed(cfg, c, j)) && DialFailed(cfg, c, j).issued == c.issued
  {
    hide HandleDisconnect;
    DisconnectTears(cfg, c.(dialing := false), j);
  }

  lemma StrayShifts(c: Client, chunk: bytes)
    requires c.pending == []
    ensures var d := OnData(c, chunk); SameQueues(c, d) && d.log == c.log && d.issued == c.issued
  {
    hide ParseAll, HandleAll;
    var (fs, rest) := ParseAll(c.inbound + chunk);
    HandleAllSameLife(c.(inbound := rest), fs);
    HandleAllIssues(c.(inbound := rest), fs);
  }

  // ---------------------------------------------------------------------------
  // Where a request goes next
  // ---------------------------------------------------------------------------

  /** r was rejected in the step from c to d. */
  predicate RejectedBy(c: Client, d: Client, r: Request)
  {
    exists i :: |c.log| <= i < |d.log| && d.log[i] == Settlement(r, Rejected)
  }

  predicate ResolvedBy(c: Client, d: Client, r: Request)
  {
    exists i :: |c.log| <= i < |d.log| && d.log[i].req == r && d.log[i].outcome.Resolved?
  }

  lemma SettledOneOf(c: Client, d: Client, rs: seq<Request>, resolved: bool, r: Request)
    requires Settles(c, d, rs, resolved) && r in rs
    ensures if resolved then ResolvedBy(c, d, r) else RejectedBy(c, d, r)
  {
    var i :| 0 <= i < |rs| && rs[i] == r;
    var e := d.log[|c.log| + i];
    assert Requests(d.log[|c.log|..])[i] == e.req == r;
    if !resolved { assert e == Settlement(r, Rejected); }
  }

  /** A parked request is woken by an open, rejected when the client stops dialling, and else stays parked. */
  lemma ParkedNext(cfg: Config, s: Sys, step: Step, r: Request)
    requires Inv(cfg, s) && Enabled(s, step) && r in s.c.waiters
    ensures var d := Apply(cfg, s, step).c;
            if step.DialOk? then r in d.woken
            else if Tears(step) && d.state in {Idle, Closed} then RejectedBy(s.c, d, r)
            else r in d.waiters
  {
    hide Inv, Apply, Enabled, Settles, RejectedBy, ResolvedBy;
    StepShifts(cfg, s, step);
    var c, d := s.c, Apply(cfg, s, step).c;
    if Tears(step) && d.state in {Idle, Closed} {
      SettledOneOf(c, d, c.pending + c.waiters, false, r);
    }
  }

  lemma RejectedSame(b: Client, c: Client, d: Client, r: Request)
    requires RejectedBy(b, d, r) && b.log == c.log
    ensures RejectedBy(c, d, r)
  {}

  /** The oldest woken request is turned away, let through or parked again, as the phase says; the others wait. */
  lemma WokenNext(cfg: Config, s: Sys, step: Step, r: Request)
    requires Inv(cfg, s) && Enabled(s, step) && r in s.c.woken
    ensures var d := Apply(cfg, s, step).c;
            if step.Wake? && r == s.c.woken[0] then
              match s.c.state
              case Closed => RejectedBy(s.c, d, r)
              case Ready => r in d.released
              case _ => r in d.waiters
            else r in d.woken
  {
    hide Inv, Apply, Settles, RejectedBy, ResolvedBy, Encode, HelloResults, FlushResults, TryConsume;
    StepShifts(cfg, s, step);
    var c, d := s.c, Apply(cfg, s, step).c;
    if step.Wake? && r == c.woken[0] && c.state == Closed {
      var b := c.(woken := c.woken[1..]);
      SettledOneOf(b, d, [r], false, r);
      RejectedSame(b, c, d, r);
    }
  }

  /** The oldest released request is queued for its reply, or rejected if the socket fails on an empty backlog. */
  lemma ReleasedNext(cfg: Config, s: Sys, step: Step, r: Request)
    requires Inv(cfg, s) && Enabled(s, step) && r in s.c.released
    ensures var d := Apply(cfg, s, step).c;
            if step.SendFrame? && r == s.c.released[0] then
              if s.c.backlog == [] && step.w < 0 then RejectedBy(s.c, d, r) else r in d.pending
            else r in d.released
  {
    hide Inv, Apply, Enabled, Settles, RejectedBy, ResolvedBy;
    StepShifts(cfg, s, step);
    var c, d := s.c, Apply(cfg, s, step).c;
    if step.SendFrame? && r == c.released[0] && c.backlog == [] && step.w < 0 {
      SettledOneOf(c, d, [r], false, r);
    }
  }

  /** A queued request is answered by incoming bytes, rejected when the connection goes, and else stays queued. */
  lemma QueuedNext(cfg: Config, s: Sys, step: Step, r: Request)
    requires Inv(cfg, s) && Enabled(s, step) && r in s.c.pending
    ensures var d := Apply(cfg, s, step).c;
            if Tears(step) then RejectedBy(s.c, d, r)
            else r in d.pending || (step.Data? && ResolvedBy(s.c, d, r))
  {
    hide Inv, Apply, Settles, RejectedBy, ResolvedBy, Encode, HelloResults, FlushResults, TryConsume;
    StepShifts(cfg, s, step);
    var c, d := s.c, Apply(cfg, s, step).c;
    if Tears(step) {
      var rs := if d.state in {Idle, Closed} then c.pending + c.waiters else c.pending;
      SettledOneOf(c, d, rs, false, r);
    } else if step.Data? && r !in d.pending {
      var n: nat :| Replied(c, d, n);
      assert c.pending == c.pending[..n] + c.pending[n..];
      SettledOneOf(c, d, c.pending[..n], true, r);
    } else if step.DialOk? {
      InvDial(cfg, s);
    }
  }

  lemma InvDial(cfg: Config, s: Sys)
    requires Inv(cfg, s)
    ensures OneLink(s.c) && DeadIsEmpty(s.c)
  {
    hide SettleInv, LinkInv, Correlated, LedgerInv, SubInv, Budget, DelayInRange;
  }

  /** A new request is rejected by a closed client, let through by a ready one and parked by any other. */
  lemma NewNext(cfg: Config, s: Sys, step: Step, r: Request)
    requires Inv(cfg, s) && Enabled(s, step)
    requires var d := Apply(cfg, s, step).c; r in d.issued && r !in s.c.issued
    ensures var d := Apply(cfg, s, step).c;
            if step.DialOk? then r in d.pending
            else match s.c.state
              case Closed => RejectedBy(s.c, d, r)
              case Ready => r in d.released
              case _ => r in d.waiters
  {
    hide Inv, Apply, Enabled, Settles, RejectedBy, ResolvedBy;
    StepShifts(cfg, s, step);
    var c, d := s.c, Apply(cfg, s, step).c;
    if Called(step) {
      assert d.issued == c.issued + [d.issued[|c.issued|]];
      assert r == d.issued[|c.issued|];
      if c.state == Closed { SettledOneOf(c, d, [r], false, r); }
    }
  }

  lemma DisconnectPhase(cfg: Config, c: Client, j: real)
    ensures var d := HandleDisconnect(cfg, c, j); DropPhase(cfg, c, d, c.timer.Some? || c.dialing)
  {
    hide Rejections, Ids, Backoff, Delay;
  }

  /** linked: a dial or a timer is there already. */
  predicate DropPhase(cfg: Config, c: Client, d: Client, linked: bool)
  {
    && (d.state == Closed <==>
        c.state == Closed ||
        (cfg.enabled && !linked && cfg.maxAttempts.Some? && c.attempts >= cfg.maxAttempts.value))
    && (d.state == Idle <==> c.state != Closed && !cfg.enabled)
    && (d.state != Closed && d.state != Idle ==> d.state == Reconnecting && (d.dialing || d.timer.Some?))
  }

  /**
   The phase a lost connection, a failed dial or a timed-out request leads to: closed for a
   client that was, or that has no attempt left; idle without reconnects; else reconnecting,
   with a dial or a timer.
   */
  lemma DropLeadsTo(cfg: Config, s: Sys, step: Step)
    requires Inv(cfg, s) && Enabled(s, step) && Tears(step) && !step.UserClose?
    ensures var c, d := s.c, Apply(cfg, s, step).c;
            DropPhase(cfg, c, d, c.timer.Some? || (c.dialing && !step.DialFail?))
  {
    hide SettleInv, LinkInv, Correlated, LedgerInv, SubInv, Budget, DelayInRange, Rejections, HandleDisconnect;
    hide ParseAll, TryConsume, Encode, Hello, HelloResults, FlushResults;
    var c := s.c;
    match step
    case DialFail(j) => DisconnectPhase(cfg, c.(dialing := false), j);
    case SocketClosed(j) => DisconnectPhase(cfg, c, j);
    case Timeout(id, j) =>
      InvTimers(cfg, s);
      assert c.pending != [];
      DisconnectPhase(cfg, RejectAllPending(c.(timers := c.timers - {id})).(live := false), j);
  }

  /** The first request of an idle client dials at once. */
  lemma IdleDials(cfg: Config, s: Sys, frame: Frame)
    requires Inv(cfg, s) && s.c.state == Idle && !s.c.dialing
    ensures Enabled(s, UserRequest(frame))
    ensures var d := Apply(cfg, s, UserRequest(frame)).c; d.dialing && d.state == Connecting
  {
    hide SettleInv, LinkInv, Correlated, LedgerInv, SubInv, Budget, DelayInRange, Rejections;
  }

  // ---------------------------------------------------------------------------
  // First submitted, first settled
  // ---------------------------------------------------------------------------

  /** Whatever the log holds of a connection's requests is a prefix of them, in order. */
  predicate InLogOrder(log: seq<ClientSteps.Settlement>, sent: seq<Request>)
  {
    forall i, j, q {:trigger sent[i], sent[j], log[q]} ::
      0 <= i < j < |sent| && 0 <= q < |log| && log[q].req == sent[j] ==>
        exists p :: 0 <= p < q && log[p].req == sent[i] && (log[q].outcome.Resolved? ==> log[p].outcome.Resolved?)
  }

  /** While the connection lives, nothing submitted on it has been rejected. */
  predicate AllResolved(log: seq<ClientSteps.Settlement>, sent: seq<Request>)
  {
    forall j, q :: 0 <= j < |sent| && 0 <= q < |log| && log[q].req == sent[j] ==> log[q].outcome.Resolved?
  }

  ghost predicate FifoInv(s: Sys)
  {
    && (forall k :: 0 <= k < |s.conns| ==> InLogOrder(s.c.log, s.conns[k].sent))
    && (s.c.live ==> s.conns != [] && AllResolved(s.c.log, Last(s).sent))
  }

  lemma Apart(c: Client, r: Request)
    requires Conserved(c)
    ensures r in Requests(c.log) || r in c.pending ==> r !in c.waiters && r !in c.woken && r !in c.released
    ensures r in Requests(c.log) ==> r !in c.pending
    ensures r in Requests(c.log) || r in c.pending ==> r in c.issued
  {
    hide Requests;
    OnePlace(c, r);
    NIn(c.waiters, r);
    NIn(c.woken, r);
    NIn(c.released, r);
    NIn(c.pending, r);
    NIn(Requests(c.log), r);
  }

  /** Settling requests of other connections disturbs nothing. */
  lemma OthersSettled(c: Client, d: Client, sent: seq<Request>, rs: seq<Request>, resolved: bool)
    requires InLogOrder(c.log, sent) && Settles(c, d, rs, resolved)
    requires forall r :: r in sent ==> r !in rs
    ensures InLogOrder(d.log, sent)
    ensures AllResolved(c.log, sent) ==> AllResolved(d.log, sent)
  {
    var n := |c.log|;
    forall q | n <= q < |d.log| ensures d.log[q].req !in sent {
      assert Requests(d.log[n..])[q - n] == d.log[q].req;
    }
    forall i, j, q | 0 <= i < j < |sent| && 0 <= q < |d.log| && d.log[q].req == sent[j]
      ensures exists p :: 0 <= p < q && d.log[p].req == sent[i] &&
                          (d.log[q].outcome.Resolved? ==> d.log[p].outcome.Resolved?)
    {
      assert q < n && c.log[q] == d.log[q];
      var p :| 0 <= p < q && c.log[p].req == sent[i] && (c.log[q].outcome.Resolved? ==> c.log[p].outcome.Resolved?);
      assert c.log[p] == d.log[p];
    }
  }

  /** Requests that are not in the log may join the end. */
  lemma SentGrows(log: seq<ClientSteps.Settlement>, sent: seq<Request>, x: Request)
    requires InLogOrder(log, sent) && x !in Requests(log)
    ensures InLogOrder(log, sent + [x])
    ensures AllResolved(log, sent) ==> AllResolved(log, sent + [x])
  {
    forall q | 0 <= q < |log| ensures log[q].req != x { assert Requests(log)[q] == log[q].req; }
    var all := sent + [x];
    forall i, j, q | 0 <= i < j < |all| && 0 <= q < |log| && log[q].req == all[j]
      ensures exists p :: 0 <= p < q && log[p].req == all[i] &&
                          (log[q].outcome.Resolved? ==> log[p].outcome.Resolved?)
    {
      assert j < |sent| && sent[j] == all[j] && sent[i] == all[i];
    }
    forall j, q | 0 <= j < |all| && 0 <= q < |log| && log[q].req == all[j] && AllResolved(log, sent)
      ensures log[q].outcome.Resolved?
    {
      assert j < |sent| && sent[j] == all[j];
    }
  }

  lemma NothingLogged(log: seq<ClientSteps.Settlement>, sent: seq<Request>)
    requires forall r :: r in sent ==> r !in Requests(log)
    ensures InLogOrder(log, sent) && AllResolved(log, sent)
  {
    forall q | 0 <= q < |log| ensures log[q].req !in sent { assert Requests(log)[q] == log[q].req; }
  }

  lemma InFirst(a: seq<Request>, b: seq<Request>, i: nat)
    requires i < |a + b| && (a + b)[i] !in b
    ensures i < |a|
  {
    forall k | 0 <= k < |b| ensures (a + b)[|a| + k] == b[k] {}
    assert forall k :: |a| <= k < |a + b| ==> (a + b)[k] in b;
  }

  /** The oldest unsettled requests of the connection are settled next, and perhaps others after them. */
  lemma QueueSettled(c: Client, d: Client, done: seq<Request>, n: nat, more: seq<Request>, resolved: bool)
    requires n <= |c.pending|
    requires var sent := done + c.pending;
             InLogOrder(c.log, sent) && AllResolved(c.log, sent) && Settles(c, d, c.pending[..n] + more, resolved)
             && (forall i, j :: 0 <= i < j < |sent| ==> sent[i] != sent[j])
             && (forall r :: r in sent ==> r !in more)
    requires forall r :: r in done ==> r in Requests(c.log)
    ensures InLogOrder(d.log, done + c.pending)
    ensures resolved ==> AllResolved(d.log, done + c.pending)
  {
    var sent, rs, m := done + c.pending, c.pending[..n] + more, |c.log|;
    forall j, q | 0 <= j < |sent| && m <= q < |d.log| && d.log[q].req == sent[j]
      ensures j == |done| + q - m && q - m < n && d.log[q].outcome.Resolved? == resolved
    {
      assert Requests(d.log[m..]) == rs;
      assert Requests(d.log[m..])[q - m] == d.log[q].req;
      assert sent[j] in sent;
      InFirst(c.pending[..n], more, q - m);
      assert sent[|done| + q - m] == c.pending[q - m] == rs[q - m];
    }
    forall i, j, q | 0 <= i < j < |sent| && 0 <= q < |d.log| && d.log[q].req == sent[j]
      ensures exists p :: 0 <= p < q && d.log[p].req == sent[i] &&
                          (d.log[q].outcome.Resolved? ==> d.log[p].outcome.Resolved?)
    {
      var p := EarlierOne(c, d, done, n, more, resolved, i, j, q);
    }
    forall j, q | 0 <= j < |sent| && 0 <= q < |d.log| && d.log[q].req == sent[j] && resolved
      ensures d.log[q].outcome.Resolved?
    {
      if q < m { assert c.log[q] == d.log[q] && sent[j] == sent[j]; }
    }
  }

  lemma EarlierOne(c: Client, d: Client, done: seq<Request>, n: nat, more: seq<Request>, resolved: bool,
                   i: nat, j: nat, q: nat)
    returns (p: nat)
    requires var sent := done + c.pending;
             && n <= |c.pending| && InLogOrder(c.log, sent) && AllResolved(c.log, sent)
             && Settles(c, d, c.pending[..n] + more, resolved)
             && i < j < |sent| && q < |d.log| && d.log[q].req == sent[j]
             && (q >= |c.log| ==> j == |done| + q - |c.log| && q - |c.log| < n)
    requires forall r :: r in done ==> r in Requests(c.log)
    ensures p < q && d.log[p].req == (done + c.pending)[i]
    ensures d.log[q].outcome.Resolved? ==> d.log[p].outcome.Resolved?
  {
    var sent, rs, m := done + c.pending, c.pending[..n] + more, |c.log|;
    if q < m {
      assert c.log[q] == d.log[q] && c.log[q].req == sent[j];
      assert sent[i] == sent[i];
      p :| 0 <= p < q && c.log[p].req == sent[i] && (c.log[q].outcome.Resolved? ==> c.log[p].outcome.Resolved?);
      assert c.log[p] == d.log[p];
    } else if i < |done| {
      assert done[i] in Requests(c.log);
      p :| 0 <= p < m && Requests(c.log)[p] == done[i];
      assert d.log[p] == c.log[p] && c.log[p].req == sent[i];
    } else {
      p := m + i - |done|;
      assert Requests(d.log[m..])[p - m] == d.log[p].req == rs[p - m] == sent[i];
    }
  }

  /** What is queued was submitted on the live connection, last of all. */
  lemma QueuedIsLast(s: Sys, k: nat, j: nat)
    requires SentOnce(s.conns) && s.c.live && LinkInv(s) && k < |s.conns| && j < |s.conns[k].sent|
    requires s.conns[k].sent[j] in s.c.pending
    ensures k == |s.conns| - 1 && j >= |s.conns[k].sent| - |s.c.pending|
  {
    hide Wire;
    var r, base := s.conns[k].sent[j], |Last(s).sent| - |s.c.pending|;
    var i :| 0 <= i < |s.c.pending| && s.c.pending[i] == r;
    assert SentAt(s.conns, k, j, r);
    assert SentAt(s.conns, |s.conns| - 1, base + i, r);
  }

  /** Requests submitted on one connection are in the log already or in the queue, and there in order. */
  lemma SentSplit(s: Sys, k: nat)
    requires SentOwed(s) && SentOnce(s.conns) && LinkInv(s) && k < |s.conns|
    ensures forall r :: r in s.conns[k].sent && (k < |s.conns| - 1 || !s.c.live) ==> r in Requests(s.c.log)
    ensures forall i, j :: 0 <= i < j < |s.conns[k].sent| ==> s.conns[k].sent[i] != s.conns[k].sent[j]
    ensures s.c.live && k == |s.conns| - 1 ==>
              exists done :: s.conns[k].sent == done + s.c.pending && forall r :: r in done ==> r in Requests(s.c.log)
  {
    hide Wire, Requests;
    var c, sent := s.c, s.conns[k].sent;
    forall i, j | 0 <= i < j < |sent| ensures sent[i] != sent[j] {
      assert SentAt(s.conns, k, i, sent[i]);
      assert SentAt(s.conns, k, j, sent[j]);
    }
    if c.live {
      assert Inbox(c, Last(s));
      var base := |Last(s).sent| - |c.pending|;
      forall j | 0 <= j < |sent| && (k < |s.conns| - 1 || j < base) ensures sent[j] in Requests(c.log) {
        assert SentAt(s.conns, k, j, sent[j]);
        if sent[j] in c.pending { QueuedIsLast(s, k, j); }
      }
      if k == |s.conns| - 1 {
        assert sent == sent[..base] + c.pending;
      }
    } else {
      forall j | 0 <= j < |sent| ensures sent[j] in Requests(c.log) { assert SentAt(s.conns, k, j, sent[j]); }
    }
  }

  /** What a step settles: the oldest of the queue and perhaps the parked, or one request that was never submitted. */
  ghost predicate Batch(c: Client, d: Client, n: nat, more: seq<Request>, resolved: bool)
  {
    && n <= |c.pending| && Settles(c, d, c.pending[..n] + more, resolved)
    && (forall r :: r in more ==> r in c.waiters || r in c.woken || r in c.released || r !in c.issued)
    && (d.live && n > 0 ==> resolved)
  }

  lemma StepBatch(cfg: Config, s: Sys, step: Step) returns (n: nat, more: seq<Request>, resolved: bool)
    requires Inv(cfg, s) && Enabled(s, step)
    ensures Batch(s.c, Apply(cfg, s, step).c, n, more, resolved)
  {
    hide Inv, Apply, Enabled, Settles;
    StepShifts(cfg, s, step);
    var c, d := s.c, Apply(cfg, s, step).c;
    n, more, resolved := 0, [], false;
    assert [] + more == more && c.pending[..0] == [] && c.pending[..|c.pending|] == c.pending;
    assert c.pending + [] == c.pending;
    if d.log == c.log {
      SettlesNone(c, d, false);
    } else if Tears(step) {
      n, more := |c.pending|, if d.state in {Idle, Closed} then c.waiters else [];
    } else if step.Data? {
      var m: nat :| Replied(c, d, m);
      n, resolved := m, true;
      assert c.pending[..m] + [] == c.pending[..m];
    } else if step.Wake? {
      more := [c.woken[0]];
      assert [] + more == more;
      SettlesSame(c.(woken := c.woken[1..]), d, c, d, more);
    } else if step.SendFrame? {
      more := [c.released[0]];
      assert [] + more == more;
    } else {
      more := [d.issued[|c.issued|]];
      assert [] + more == more;
      NewIsNew(cfg, s, step);
    }
  }

  lemma NewIsNew(cfg: Config, s: Sys, step: Step)
    requires Inv(cfg, s) && Enabled(s, step)
    ensures var c, d := s.c, Apply(cfg, s, step).c;
            |d.issued| > |c.issued| && c.issued <= d.issued ==> d.issued[|c.issued|] !in c.issued
  {
    hide LifeInv, LinkInv, Correlated, LedgerInv, SubInv, Apply, Enabled, Places, TimersMatch;
    StepKeepsInv(cfg, s, step);
    var c, d := s.c, Apply(cfg, s, step).c;
    if |d.issued| > |c.issued| && c.issued <= d.issued {
      forall i | 0 <= i < |c.issued| ensures c.issued[i] != d.issued[|c.issued|] {
        assert c.issued[i].id == i && d.issued[|c.issued|].id == |c.issued|;
      }
    }
  }

  /** The requests of one connection stay in order whatever a step settles. */
  lemma BatchKeepsOrder(cfg: Config, s: Sys, d: Client, k: nat, n: nat, more: seq<Request>, resolved: bool)
    requires Inv(cfg, s) && FifoInv(s) && k < |s.conns| && Batch(s.c, d, n, more, resolved)
    ensures InLogOrder(d.log, s.conns[k].sent)
    ensures s.c.live && d.live && k == |s.conns| - 1 ==> AllResolved(d.log, s.conns[k].sent)
  {
    hide LifeInv, Correlated, SubInv, Settles, InLogOrder, AllResolved, Wire, Inbox, Shape, Conserved, SentOwed;
    hide SentOnce;
    var c, sent := s.c, s.conns[k].sent;
    SentSplit(s, k);
    if c.live && k == |s.conns| - 1 {
      var done :| sent == done + c.pending && forall r :: r in done ==> r in Requests(c.log);
      forall r | r in sent ensures r !in more { Apart(c, r); }
      QueueSettled(c, d, done, n, more, resolved);
      if n == 0 {
        assert c.pending[..0] + more == more;
        OthersSettled(c, d, sent, more, resolved);
      }
    } else {
      forall r | r in sent ensures r !in c.pending[..n] + more { Apart(c, r); }
      OthersSettled(c, d, sent, c.pending[..n] + more, resolved);
    }
  }

  lemma OnlyOpensRevive(cfg: Config, s: Sys, step: Step)
    requires Inv(cfg, s) && Enabled(s, step) && !step.DialOk?
    ensures Apply(cfg, s, step).c.live ==> s.c.live
  {
    hide Inv, Apply, Enabled, Settles;
    StepShifts(cfg, s, step);
  }

  /** What a step adds to the requests of a connection is in the queue afterwards. */
  predicate Appended(s: Sys, t: Sys, k: nat)
    requires k < |s.conns| && k < |t.conns|
  {
    || t.conns[k].sent == s.conns[k].sent
    || exists x :: x in t.c.pending && t.conns[k].sent == s.conns[k].sent + [x]
  }

  lemma SendAppends(cfg: Config, s: Sys, step: Step)
    requires Inv(cfg, s) && Enabled(s, step) && !step.DialOk?
    ensures var t := Apply(cfg, s, step); |t.conns| == |s.conns| && forall k :: 0 <= k < |s.conns| ==> Appended(s, t, k)
  {
    hide Inv, Issue, EnsureReady, Subscribe, RemoveHandler, Close, Continue, DialFailed, ReconnectFires, WakeNext;
    hide RequestTimeout, HandleDisconnect, ParseAll, OnData, Encode, Hello, AuthFrame, Open, TryConsume, Flush, Concat;
    hide FlushResults, HelloResults, Send;
    if step.SendFrame? {
      SendSubmits(s.c.(released := s.c.released[1..]), s.c.released[0], step.w);
      var x, t := s.c.released[0], Apply(cfg, s, step);
      assert s.c.backlog != [] || step.w >= 0 ==> t.c.pending == s.c.pending + [x] && x in t.c.pending;
    } else {
      StepSameSent(cfg, s, step);
    }
  }

  lemma QueuedNotLogged(cfg: Config, s: Sys)
    requires Inv(cfg, s)
    ensures forall r :: r in s.c.pending ==> r !in Requests(s.c.log)
  {
    hide LifeInv, LinkInv, Correlated, LedgerInv, SubInv, Requests, Places, TimersMatch;
    forall r | r in s.c.pending ensures r !in Requests(s.c.log) { Apart(s.c, r); }
  }

  lemma OpenSent(cfg: Config, s: Sys, ws: seq<int>)
    requires Inv(cfg, s) && Enabled(s, DialOk(ws))
    ensures var t := Apply(cfg, s, DialOk(ws));
            t.conns == s.conns + [Last(t)] && Last(t).sent == t.c.pending
  {
    hide Inv, OnOpen, HelloResults, Hello, Wired, Encode, Concat;
    InvDial(cfg, s);
    OpenShifts(cfg, s, ws);
  }

  lemma StepKeepsFifo(cfg: Config, s: Sys, step: Step)
    requires Inv(cfg, s) && FifoInv(s) && Enabled(s, step)
    ensures FifoInv(Apply(cfg, s, step))
  {
    hide Inv, Apply, Enabled, Batch, InLogOrder, AllResolved, Requests;
    var t := Apply(cfg, s, step);
    StepKeepsInv(cfg, s, step);
    QueuedNotLogged(cfg, t);
    var n, more, resolved := StepBatch(cfg, s, step);
    forall k | 0 <= k < |s.conns|
      ensures InLogOrder(t.c.log, s.conns[k].sent)
      ensures s.c.live && t.c.live && k == |s.conns| - 1 ==> AllResolved(t.c.log, s.conns[k].sent)
    {
      BatchKeepsOrder(cfg, s, t.c, k, n, more, resolved);
    }
    if step.DialOk? {
      OpenSent(cfg, s, step.ws);
      NothingLogged(t.c.log, Last(t).sent);
    } else {
      SendAppends(cfg, s, step);
      OnlyOpensRevive(cfg, s, step);
      forall k | 0 <= k < |s.conns|
        ensures InLogOrder(t.c.log, t.conns[k].sent)
        ensures t.c.live && k == |s.conns| - 1 ==> AllResolved(t.c.log, t.conns[k].sent)
      {
        assert Appended(s, t, k);
        if t.conns[k].sent != s.conns[k].sent {
          var x :| x in t.c.pending && t.conns[k].sent == s.conns[k].sent + [x];
          SentGrows(t.c.log, s.conns[k].sent, x);
        }
      }
    }
  }

  lemma {:induction false} RunKeepsFifo(cfg: Config, s: Sys, steps: seq<Step>, t: Sys)
    requires Inv(cfg, s) && FifoInv(s) && Run(cfg, s, steps, t)
    ensures FifoInv(t)
    decreases |steps|
  {
    hide Inv, FifoInv, Apply, Enabled;
    if steps != [] {
      StepKeepsFifo(cfg, s, steps[0]);
      StepKeepsInv(cfg, s, steps[0]);
      RunKeepsFifo(cfg, Apply(cfg, s, steps[0]), steps[1..], t);
    }
  }

  /**
   In every run, when a request submitted on a connection has settled, every request submitted
   on it before has settled earlier; and with a reply, if the later one got one.
   */
  lemma SettledInOrder(cfg: Config, steps: seq<Step>, t: Sys, k: nat, i: nat, j: nat, q: nat)
    requires Run(cfg, INIT_SYS, steps, t)
    requires k < |t.conns| && i < j < |t.conns[k].sent| && q < |t.c.log| && t.c.log[q].req == t.conns[k].sent[j]
    ensures exists p :: 0 <= p < q && t.c.log[p].req == t.conns[k].sent[i] &&
                        (t.c.log[q].outcome.Resolved? ==> t.c.log[p].outcome.Resolved?)
  {
    hide Run, Inv;
    InitInv(cfg);
    RunKeepsFifo(cfg, INIT_SYS, steps, t);
    var sent := t.conns[k].sent;
    assert sent[i] == sent[i] && sent[j] == sent[j];
  }
}
