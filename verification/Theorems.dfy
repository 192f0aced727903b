/**
 What holds in every reachable state of the client, its connections and the server.
 */
module Theorems {
  import opened Bytes
  import opened Frames
  import opened Commands
  import opened Backlog
  import opened ClientSteps
  import opened System
  import opened Lifecycle
  import opened Settlement
  import opened Correlation
  import opened Ledger
  import opened Subscriptions

  ghost predicate Inv(cfg: Config, s: Sys)
  {
    LifeInv(cfg, s) && SettleInv(s.c) && LinkInv(s) && Correlated(s) && LedgerInv(s) && SubInv(s)
  }

  lemma InitInv(cfg: Config)
    ensures Inv(cfg, INIT_SYS)
  {
    forall r ensures Places(INIT, r) == N(INIT.issued, r) {
      assert Requests([]) == [];
      NNone(r);
    }
    assert Ids([]) == {};
  }

  lemma StepKeepsInv(cfg: Config, s: Sys, step: Step)
    requires Inv(cfg, s) && Enabled(s, step)
    ensures Inv(cfg, Apply(cfg, s, step))
  {
    hide Apply, Enabled, LinkInv, Correlated, LedgerInv, SubInv, Budget, DelayInRange, Phases, NoStranded;
    hide Conserved, TimersMatch;
    StepKeepsLife(cfg, s, step);
    StepKeepsSettle(cfg, s, step);
    StepKeepsLink(cfg, s, step);
    StepKeepsLedger(cfg, s, step);
    StepKeepsSubs(cfg, s, step);
  }

  lemma {:induction false} RunKeepsInv(cfg: Config, s: Sys, steps: seq<Step>, t: Sys)
    requires Inv(cfg, s) && Run(cfg, s, steps, t)
    ensures Inv(cfg, t)
    decreases |steps|
  {
    hide Inv, Apply, Enabled;
    if steps != [] {
      StepKeepsInv(cfg, s, steps[0]);
      RunKeepsInv(cfg, Apply(cfg, s, steps[0]), steps[1..], t);
    }
  }

  lemma {:induction false} Reachable(cfg: Config, steps: seq<Step>, t: Sys)
    requires Run(cfg, INIT_SYS, steps, t)
    ensures Inv(cfg, t)
  {
    hide Inv, Run;
    InitInv(cfg);
    RunKeepsInv(cfg, INIT_SYS, steps, t);
  }

  // ---------------------------------------------------------------------------
  // Correlation
  // ---------------------------------------------------------------------------

  /**
   In every run, under any chunking, partial writes and events, a resolved request holds the reply
   to its own frame.
   */
  lemma {:induction false} RepliesReachTheirRequests(cfg: Config, steps: seq<Step>, t: Sys, i: nat)
    requires Run(cfg, INIT_SYS, steps, t)
    requires i < |t.c.log| && t.c.log[i].outcome.Resolved?
    ensures exists k: nat, j: nat :: AnsweredAt(t.conns, k, j, t.c.log[i])
  {
    hide Run;
    Reachable(cfg, steps, t);
    assert Answered(t.conns, t.c.log[i]);
  }

  /** The bytes the socket has accepted for commands the server has not answered, without the magic. */
  function Underway(conn: Conn): bytes
    requires conn.greeted || |conn.srvIn + conn.c2s| >= |MAGIC|
  {
    if conn.greeted then conn.srvIn + conn.c2s else (conn.srvIn + conn.c2s)[|MAGIC|..]
  }

  /** The replies in transit are the server's last ones, made for the frames of the first pending requests, in order. */
  predicate AnsweredFirst(conn: Conn, pending: seq<Request>, inTransit: seq<Frame>)
    requires |inTransit| <= |pending|
  {
    var first := |conn.sent| - |pending|;
    && 0 <= first && first + |inTransit| == |conn.served|
    && RepliesOf(conn.served[first..]) == inTransit
    && CommandsOf(conn.served[first..]) == FramesOf(pending[..|inTransit|])
  }

  /**
   The bytes underway hold whole the frames of the first of these requests; the others are cut or
   wait in the backlog.
   */
  ghost predicate ThenTaken(rest: seq<Request>, underway: bytes, backlog: bytes)
  {
    var (taken, part) := ParseAll(underway);
    && |taken| <= |rest|
    && taken == FramesOf(rest[..|taken|])
    && part + backlog == EncodeAll(FramesOf(rest[|taken|..]))
  }

  /**
   In every live state, the handshake included, the pending queue lists the requests whose
   replies are in transit, then those whose frames the socket has taken whole, then those
   with bytes still in the backlog.
   */
  lemma {:induction false} PendingQueueLayout(cfg: Config, steps: seq<Step>, t: Sys)
    requires Run(cfg, INIT_SYS, steps, t) && t.c.live
    ensures t.conns != [] && (Last(t).greeted || |Last(t).srvIn + Last(t).c2s| >= |MAGIC|)
    ensures var conn, inTransit := Last(t), Replies(Last(t).transit);
            && |inTransit| <= |t.c.pending|
            && AnsweredFirst(conn, t.c.pending, inTransit)
            && ThenTaken(t.c.pending[|inTransit|..], Underway(conn), Concat(t.c.backlog))
  {
    hide Run, EncodeAll, Replies, Concat, LifeInv, SettleInv, Correlated, LedgerInv, SubInv, Wire, Inbox, Underway;
    hide AnsweredFirst, ThenTaken;
    Reachable(cfg, steps, t);
    var conn := Last(t);
    assert Wire(conn) && Inbox(t.c, conn);
    InTransitFirst(t.c, conn);
    var rest := t.c.pending[|Replies(conn.transit)|..];
    UnderwayFrames(conn, rest);
    RestSplits(rest, Underway(conn), conn.unsent);
  }

  /** The oldest pending requests are those whose replies are in transit. */
  lemma InTransitFirst(c: Client, conn: Conn)
    requires Wire(conn) && Inbox(c, conn)
    ensures var inTransit := Replies(conn.transit);
            && |inTransit| <= |c.pending|
            && AnsweredFirst(conn, c.pending, inTransit)
            && c.pending[|inTransit|..] == conn.sent[|conn.served|..]
    ensures conn.unsent == Concat(c.backlog)
  {
    hide Concat, EncodeAll, Replies, FramesOf, RepliesOf, CommandsOf, Wire;
    var first := |conn.sent| - |c.pending|;
    assert |conn.served| <= |conn.sent| by { ServedWithinSent(conn); }
    SliceSlice(conn.sent, first, |conn.served| - first);
    ServedMatches(conn, first, c.pending);
  }

  lemma ServedWithinSent(conn: Conn)
    requires Wire(conn)
    ensures |conn.served| <= |conn.sent|
  {}

  lemma ServedMatches(conn: Conn, first: nat, pending: seq<Request>)
    requires Wire(conn) && first <= |conn.served| && pending == conn.sent[first..]
    ensures CommandsOf(conn.served[first..]) == FramesOf(pending[..|conn.served| - first])
  {
    hide EncodeAll, Outbound;
    var n := |conn.served| - first;
    forall i | 0 <= i < n ensures CommandsOf(conn.served[first..])[i] == FramesOf(pending[..n])[i] {
      assert conn.served[first + i].cmd == conn.sent[first + i].frame;
    }
  }

  lemma RestSplits(rest: seq<Request>, underway: bytes, unsent: bytes)
    requires underway + unsent == EncodeAll(FramesOf(rest))
    ensures ThenTaken(rest, underway, unsent)
  {
    hide ParseAll, EncodeAll;
    var taken := ParseAll(underway).0;
    ParseCutStream(underway, unsent, FramesOf(rest));
    assert FramesOf(rest)[..|taken|] == FramesOf(rest[..|taken|]);
    assert FramesOf(rest)[|taken|..] == FramesOf(rest[|taken|..]);
  }

  lemma UnderwayFrames(conn: Conn, rest: seq<Request>)
    requires Wire(conn) && rest == conn.sent[|conn.served|..]
    ensures conn.greeted || |conn.srvIn + conn.c2s| >= |MAGIC|
    ensures Underway(conn) + conn.unsent == EncodeAll(FramesOf(rest))
  {
    hide EncodeAll, FramesOf;
    AppendAssoc(conn.srvIn, conn.c2s, conn.unsent);
    if !conn.greeted {
      assert rest == conn.sent;
      var all := conn.srvIn + conn.c2s;
      assert all[2..] + conn.unsent == (all + conn.unsent)[2..];
    }
  }

  // ---------------------------------------------------------------------------
  // Settlement
  // ---------------------------------------------------------------------------

  /** Each issued request is in exactly one place; no request is settled twice. */
  lemma {:induction false} SettledExactlyOnce(cfg: Config, steps: seq<Step>, t: Sys)
    requires Run(cfg, INIT_SYS, steps, t)
    ensures forall r :: r in t.c.issued ==> Places(t.c, r) == 1
    ensures forall i, j :: 0 <= i < j < |t.c.log| ==> t.c.log[i].req != t.c.log[j].req
    ensures forall i :: 0 <= i < |t.c.log| ==> t.c.log[i].req !in t.c.pending && t.c.log[i].req !in t.c.released
  {
    hide Run, LinkInv, Correlated, LedgerInv, SubInv, LifeInv, TimersMatch;
    Reachable(cfg, steps, t);
    var c := t.c;
    forall r | r in c.issued ensures Places(c, r) == 1 { OnePlace(c, r); }
    hide N;
    forall i, j | 0 <= i < j < |c.log| ensures c.log[i].req != c.log[j].req {
      if c.log[i].req == c.log[j].req {
        TwiceInSeq(Requests(c.log), i, j);
        OnePlace(c, c.log[i].req);
      }
    }
    forall i | 0 <= i < |c.log| ensures c.log[i].req !in c.pending && c.log[i].req !in c.released {
      var r := c.log[i].req;
      LogIn(c, i);
      NIn(Requests(c.log), r);
      NIn(c.pending, r);
      NIn(c.released, r);
      OnePlace(c, r);
    }
  }

  /** Promises settle for good: the log of a run only ever grows. */
  lemma {:induction false} SettlementIsFinal(cfg: Config, s: Sys, steps: seq<Step>, t: Sys)
    requires Inv(cfg, s) && Run(cfg, s, steps, t)
    ensures s.c.log <= t.c.log
    decreases |steps|
  {
    hide Inv, Apply, Enabled;
    if steps != [] {
      StepExtendsLog(cfg, s, steps[0]);
      StepKeepsInv(cfg, s, steps[0]);
      SettlementIsFinal(cfg, Apply(cfg, s, steps[0]), steps[1..], t);
    }
  }

  lemma StepExtendsLog(cfg: Config, s: Sys, step: Step)
    requires Inv(cfg, s) && Enabled(s, step)
    ensures s.c.log <= Apply(cfg, s, step).c.log
  {
    hide SettleInv, LedgerInv, SubInv, Correlated, Wire, Inbox, Budget, DelayInRange, Issue, EnsureReady, Subscribe;
    hide RemoveHandler;
    hide Close, Send, Continue, OnOpen, RequestTimeout, HandleDisconnect, OnData, ParseAll, Encode, EncodeAll;
    hide Hello, AuthFrame;
    hide Open, TryConsume, Flush, Concat;
    var c := s.c;
    match step {
      case UserRequest(frame) => IssueCalm(c, frame, Direct);
      case UserAuth(token) => IssueCalm(c, AuthFrame(token), AuthOf(token));
      case UserSubscribe(ch, h, f) => SubscribeCalm(c, ch, h, f);
      case UserUnsubscribe(ch, h) => RemoveCalm(c, ch, h);
      case UserClose => CloseCalm(c);
      case Wake => WakeCalm(c);
      case SendFrame(w) => SendSubmits(c.(released := c.released[1..]), c.released[0], w);
      case RunContinuation => ContinueCalm(c);
      case DialOk(ws) => OpenKeepsLink(c, ws);
      case DialFail(j) => DialFailCalm(cfg, c, j);
      case ReconnectTimer =>
      case Timeout(id, j) => TimeoutCalm(cfg, c, id, j);
      case SocketClosed(j) => DisconnectCalm(cfg, c, j);
      case Data(n) => DataAnswers(c, Last(s), n);
      case StrayData(chunk) => StrayDataIsCalm(c, chunk);
      case DrainSocket(_) =>
      case Deliver(_, _) =>
      case Greet(_) =>
      case Serve(_, _) =>
      case Emit(_, _) =>
    }
  }

  // ---------------------------------------------------------------------------
  // Connections do not mix
  // ---------------------------------------------------------------------------

  /** A request's bytes go to at most one connection, at most once, and only there can it be answered. */
  lemma {:induction false} NothingIsReplayed(cfg: Config, steps: seq<Step>, t: Sys, r: Request,
                                             k: nat, j: nat, l: nat, m: nat)
    requires Run(cfg, INIT_SYS, steps, t)
    requires SentAt(t.conns, k, j, r) && SentAt(t.conns, l, m, r)
    ensures k == l && j == m
  {
    hide Run;
    Reachable(cfg, steps, t);
  }

  /** Armed request timers are exactly those of the queued requests, all of the current generation. */
  lemma {:induction false} TimersBelongToQueue(cfg: Config, steps: seq<Step>, t: Sys)
    requires Run(cfg, INIT_SYS, steps, t)
    ensures t.c.timers.Keys == Ids(t.c.pending)
    ensures forall id :: id in t.c.timers ==> t.c.timers[id] == t.c.gen == |t.conns|
  {
    hide Run, LinkInv, Correlated, LedgerInv, SubInv;
    Reachable(cfg, steps, t);
  }

  lemma OpenedBytes(c: Client, ws: seq<int>)
    requires HelloResults(Hello(c.token, Wired(c.heap, c.subs)), ws) && c.pending == []
    ensures var o := OnOpen(c, ws);
            && o.c.inbound == [] && o.c.pending == Open(c, o).sent
            && (forall i :: 0 <= i < |o.c.pending| ==> o.c.pending[i].origin == Handshake)
            && o.wrote + Concat(o.c.backlog) == MAGIC + EncodeAll(Hello(c.token, Wired(c.heap, c.subs)))
  {
    hide SendHello, Hello, Wired, Encode, EncodeAll;
    var frames := Hello(c.token, Wired(c.heap, c.subs));
    var up := c.(dialing := false, gen := c.gen + 1, live := true, inbound := [], backlog := []);
    var rs := SendHelloSubmits(up, frames, ws);
    var hello := SendHello(up, frames, ws);
    var o := OnOpen(c, ws);
    assert o.c.issued[|c.issued|..] == rs;
    assert Concat([]) == [];
    hide Concat;
    AppendAssoc(MAGIC, hello.wrote, Concat(o.c.backlog));
  }

  /** A connection opens with nothing left over from the one before. */
  lemma {:induction false} OpensClean(cfg: Config, steps: seq<Step>, t: Sys, ws: seq<int>)
    requires Run(cfg, INIT_SYS, steps, t) && Enabled(t, DialOk(ws))
    ensures t.c.pending == [] && t.c.backlog == [] && t.c.timers == map[]
    ensures var u := Apply(cfg, t, DialOk(ws));
            && u.c.inbound == [] && u.c.pending == Last(u).sent
            && (forall i :: 0 <= i < |u.c.pending| ==> u.c.pending[i].origin == Handshake)
            && Last(u).c2s + Concat(u.c.backlog) == MAGIC + EncodeAll(Hello(t.c.token, Wired(t.c.heap, t.c.subs)))
  {
    hide Run, LinkInv, Correlated, LedgerInv, SubInv, OnOpen, Hello, Wired, Encode, EncodeAll, Concat, Budget;
    hide DelayInRange, Phases, Conserved;
    Reachable(cfg, steps, t);
    assert Ids([]) == {};
    assert t.c.timers == map[];
    OpenedBytes(t.c, ws);
  }

  /**
   On every connection the submitted frames are AUTH iff a token was held, one SUB per
   live entry, then user frames only, one request each; and the bytes are that stream.
   */
  lemma {:induction false} HandshakeShape(cfg: Config, steps: seq<Step>, t: Sys, k: nat)
    requires Run(cfg, INIT_SYS, steps, t) && k < |t.conns|
    ensures Shape(t.conns[k])
    ensures !t.conns[k].greeted ==> Outbound(t.conns[k]) == MAGIC + EncodeAll(FramesOf(t.conns[k].sent))
    ensures forall i :: 0 <= i < |t.conns[k].served| ==>
              i < |t.conns[k].sent| && t.conns[k].served[i].cmd == t.conns[k].sent[i].frame
  {
    hide Run, Hello, EncodeAll;
    Reachable(cfg, steps, t);
    assert Wire(t.conns[k]);
  }

  // ---------------------------------------------------------------------------
  // Bytes
  // ---------------------------------------------------------------------------

  function CommandsOf(ss: seq<Served>): (fs: seq<Frame>)
    ensures |fs| == |ss|
  {
    seq(|ss|, i requires 0 <= i < |ss| => ss[i].cmd)
  }

  /** Every byte the socket of a connection has accepted, in order. */
  function Accepted(conn: Conn): bytes
  {
    (if conn.greeted then MAGIC + EncodeAll(CommandsOf(conn.served)) else []) + (conn.srvIn + conn.c2s)
  }

  /**
   The bytes a connection accepted, followed by what waits for it, are the magic and all submitted
   frames in order.
   */
  lemma {:induction false} BytesConserved(cfg: Config, steps: seq<Step>, t: Sys, k: nat)
    requires Run(cfg, INIT_SYS, steps, t) && k < |t.conns|
    ensures Accepted(t.conns[k]) + t.conns[k].unsent == MAGIC + EncodeAll(FramesOf(t.conns[k].sent))
    ensures t.c.live ==> t.conns != [] && Last(t).unsent == Concat(t.c.backlog)
  {
    hide Run, SubInv, LedgerInv, EncodeAll, Replies, Concat;
    Reachable(cfg, steps, t);
    WireConserves(t.conns[k]);
  }

  lemma WireConserves(conn: Conn)
    requires Wire(conn)
    ensures Accepted(conn) + conn.unsent == MAGIC + EncodeAll(FramesOf(conn.sent))
  {
    hide EncodeAll;
    var head := if conn.greeted then MAGIC + EncodeAll(CommandsOf(conn.served)) else [];
    AppendAssoc(head, conn.srvIn + conn.c2s, conn.unsent);
    AppendAssoc(conn.srvIn, conn.c2s, conn.unsent);
    if conn.greeted {
      var n := |conn.served|;
      assert CommandsOf(conn.served) + FramesOf(conn.sent[n..]) == FramesOf(conn.sent);
      EncodeAllAppend(CommandsOf(conn.served), FramesOf(conn.sent[n..]));
      AppendAssoc(MAGIC, EncodeAll(CommandsOf(conn.served)), Outbound(conn));
    }
  }

  /**
   A send fails exactly when the backlog is empty and the socket reports an error; then none
   of its bytes went out and the entry taken back from the queue is its own.
   */
  lemma FailedSendLeavesNoTrace(c: Client, r: Request, w: int)
    requires w <= |Encode(r.frame)|
    ensures var o := Send(c, r, w);
            if c.backlog == [] && w < 0 then
              && o.wrote == [] && o.c.pending == c.pending && o.c.backlog == []
              && o.c.log == c.log + [ClientSteps.Settlement(r, Rejected)]
            else
              && o.c.pending == c.pending + [r] && o.c.log == c.log
              && o.wrote + Concat(o.c.backlog) == Concat(c.backlog) + Encode(r.frame)
  {
    hide Encode, Concat;
    SendConserves(c.backlog, Encode(r.frame), w);
  }

  // ---------------------------------------------------------------------------
  // Subscriptions
  // ---------------------------------------------------------------------------

  /**
   On the live connection the last SUB or UNSUB frame submitted for a channel marked
   wire-subscribed is a SUB, except exactly when it is an UNSUB the user sent by hand on this
   very connection. What the server made of the frames is in `ServerView`.
   */
  lemma {:induction false} SubscriptionsAgree(cfg: Config, steps: seq<Step>, t: Sys, e: nat)
    requires Run(cfg, INIT_SYS, steps, t)
    requires t.c.live && e in t.c.subs && At(t.c.heap, e).wired
    ensures t.conns != []
    ensures var channel := At(t.c.heap, e).channel;
            var last := LastWord(Last(t).sent, channel);
            && last.Some?
            && (channel !in Replay(FramesOf(Last(t).sent)) <==>
                last.value.origin == Direct && last.value.frame.code == UNSUB)
  {
    hide Run, LifeInv, SettleInv, LinkInv, Correlated, LedgerInv, Static, Replay, FramesOf;
    Reachable(cfg, steps, t);
    assert Submitted(t.c, e);
    AnchoredLastWord(Last(t).sent, e, At(t.c.heap, e).channel);
    ReplayIsLastWord(Last(t).sent, At(t.c.heap, e).channel);
  }

  ghost predicate Among(heap: seq<Entry>, subs: seq<nat>, x: Entry)
  {
    exists k :: 0 <= k < |subs| && At(heap, subs[k]) == x
  }

  lemma {:induction false} WiredAmong(heap: seq<Entry>, subs: seq<nat>, x: Entry)
    requires x in Wired(heap, subs)
    ensures Among(heap, subs, x)
  {
    if At(heap, subs[0]) != x {
      WiredAmong(heap, subs[1..], x);
      var k :| 0 <= k < |subs[1..]| && At(heap, subs[1..][k]) == x;
      assert At(heap, subs[k + 1]) == x;
    }
  }

  predicate DistinctChannels(es: seq<Entry>) { forall i, j :: 0 <= i < j < |es| ==> es[i].channel != es[j].channel }

  lemma {:induction false} WiredDistinct(heap: seq<Entry>, subs: seq<nat>)
    requires Distinct(heap, subs)
    ensures DistinctChannels(Wired(heap, subs))
  {
    if subs != [] {
      var x, rest := At(heap, subs[0]), subs[1..];
      WiredDistinct(heap, rest);
      var q := Wired(heap, rest);
      forall j | 0 <= j < |q| ensures x.channel != q[j].channel {
        WiredAmong(heap, rest, q[j]);
        var k :| 0 <= k < |rest| && At(heap, rest[k]) == q[j];
        assert At(heap, subs[k + 1]) == q[j];
      }
      ChannelsCons(x, q);
      hide At, DistinctChannels;
      assert Wired(heap, subs) == (if x.wired then [x] else []) + q;
      assert [] + q == q;
    }
  }

  lemma ChannelsCons(x: Entry, q: seq<Entry>)
    requires DistinctChannels(q) && forall j :: 0 <= j < |q| ==> x.channel != q[j].channel
    ensures DistinctChannels([x] + q)
  {}

  /** One open never re-sends the same channel twice. */
  lemma {:induction false} ResubscribesOnce(cfg: Config, steps: seq<Step>, t: Sys, ws: seq<int>)
    requires Run(cfg, INIT_SYS, steps, t) && Enabled(t, DialOk(ws))
    ensures DistinctChannels(Last(Apply(cfg, t, DialOk(ws))).live)
  {
    hide Run, OnOpen, LifeInv, SettleInv, LinkInv, Correlated, LedgerInv, Wired, DistinctChannels;
    Reachable(cfg, steps, t);
    WiredDistinct(t.c.heap, t.c.subs);
  }

  // ---------------------------------------------------------------------------
  // Lifecycle
  // ---------------------------------------------------------------------------

  /** At most one link at a time, and every parked request has a dial or a timer to wait for. */
  lemma {:induction false} OneLinkAndNoStrandedWaiter(cfg: Config, steps: seq<Step>, t: Sys)
    requires Run(cfg, INIT_SYS, steps, t)
    ensures OneLink(t.c) && NoStranded(t.c)
  {
    hide Run, LinkInv, Correlated, LedgerInv, SubInv, SettleInv;
    Reachable(cfg, steps, t);
  }

  lemma IssueWhenClosed(c: Client, frame: Frame, origin: Origin)
    requires c.state == Closed
    ensures Issue(c, frame, origin).state == Closed && Issue(c, frame, origin).dialing == c.dialing
  {}

  lemma UserCallsKeepClosed(c: Client, channel: bytes, handler: nat, filter: Option<bytes>)
    requires c.state == Closed && !c.live
    ensures Subscribe(c, channel, handler, filter).state == Closed
    ensures Subscribe(c, channel, handler, filter).dialing == c.dialing
    ensures RemoveHandler(c, channel, handler).state == Closed
    ensures RemoveHandler(c, channel, handler).dialing == c.dialing
  {
    hide Find, At, Update, Delete, SubFrame, UnsubFrame, Rejections;
  }

  /** A step leaves the closed state exactly when it is a dial in flight succeeding. */
  lemma ClosedIsLeftOnlyByADial(cfg: Config, s: Sys, step: Step)
    requires Inv(cfg, s) && Enabled(s, step) && s.c.state == Closed
    ensures Apply(cfg, s, step).c.state != Closed <==> step.DialOk?
    ensures !s.c.dialing ==> Apply(cfg, s, step).c.state == Closed && !Apply(cfg, s, step).c.dialing
  {
    hide SettleInv, SubInv, LinkInv, LedgerInv, Correlated, Budget, DelayInRange, Issue, Subscribe, RemoveHandler;
    hide At, Update, Delete, AuthFrame, SendHello, Hello, Wired, Backoff;
    hide ParseAll, HandleAll, Send, Encode, TryConsume, Flush, Concat, Rejections, Ids;
    hide Continue, HandleDisconnect, RequestTimeout, OnOpen, Open;
    var c := s.c;
    match step {
      case UserRequest(frame) => IssueWhenClosed(c, frame, Direct);
      case UserAuth(token) => IssueWhenClosed(c, AuthFrame(token), AuthOf(token));
      case UserSubscribe(ch, h, f) => UserCallsKeepClosed(c, ch, h, f);
      case UserUnsubscribe(ch, h) => UserCallsKeepClosed(c, ch, h, None);
      case SendFrame(w) => SendSameLife(c.(released := c.released[1..]), c.released[0], w);
      case StrayData(chunk) =>
        var (fs, rest) := ParseAll(c.inbound + chunk);
        HandleAllSameLife(c.(inbound := rest), fs);
      case RunContinuation => ContinueFrame(c);
      case DialFail(j) => CallbacksKeepClosed(cfg, c.(dialing := false), 0, j);
      case Timeout(id, j) => CallbacksKeepClosed(cfg, c, id, j);
      case SocketClosed(j) => CallbacksKeepClosed(cfg, c, 0, j);
      case DialOk(ws) => OpenResetsBudget(cfg, s, ws);
      case _ =>
    }
  }

  lemma CallbacksKeepClosed(cfg: Config, c: Client, id: nat, j: real)
    requires c.state == Closed
    ensures HandleDisconnect(cfg, c, j).state == Closed && HandleDisconnect(cfg, c, j).dialing == c.dialing
    ensures id in c.timers ==> var d := RequestTimeout(cfg, c, id, j); d.state == Closed && d.dialing == c.dialing
  {
    hide Rejections, Ids, Backoff;
  }

  /** Closed with no dial in flight is never left, whatever is called and whatever calls back. */
  lemma {:induction false} ClosedForGood(cfg: Config, s: Sys, steps: seq<Step>, t: Sys)
    requires Inv(cfg, s) && Run(cfg, s, steps, t) && s.c.state == Closed && !s.c.dialing
    ensures t.c.state == Closed && !t.c.dialing
    decreases |steps|
  {
    hide Inv, Apply, Enabled;
    if steps != [] {
      ClosedIsLeftOnlyByADial(cfg, s, steps[0]);
      StepKeepsInv(cfg, s, steps[0]);
      ClosedForGood(cfg, Apply(cfg, s, steps[0]), steps[1..], t);
    }
  }

  /** The exact budget, in every run: a failed dial closes the client iff it was the last one allowed. */
  lemma {:induction false} LastDialCloses(cfg: Config, steps: seq<Step>, s: Sys, j: real)
    requires Run(cfg, INIT_SYS, steps, s) && Enabled(s, DialFail(j)) && cfg.enabled && s.c.state != Closed
    ensures Apply(cfg, s, DialFail(j)).c.state == Closed <==>
              cfg.maxAttempts.Some? && s.c.dials == cfg.maxAttempts.value + Allowance(s.c)
    ensures cfg.maxAttempts.Some? ==> s.c.dials <= cfg.maxAttempts.value + Allowance(s.c)
  {
    hide Run, SettleInv, SubInv, LinkInv, LedgerInv, Correlated, Backoff, Rejections, Ids, Hello, Wired, TryConsume;
    Reachable(cfg, steps, s);
  }

  /** A successful open resets the budget. */
  lemma OpenResetsBudget(cfg: Config, s: Sys, ws: seq<int>)
    requires Enabled(s, DialOk(ws))
    ensures var c := Apply(cfg, s, DialOk(ws)).c; c.attempts == 0 && c.dials == 0 && c.state == Ready && c.live
  {
    hide SendHello, Hello, Wired, Encode;
    var up := s.c.(dialing := false, gen := s.c.gen + 1, live := true, inbound := [], backlog := []);
    SendHelloSameLife(up, Hello(s.c.token, Wired(s.c.heap, s.c.subs)), ws);
  }

  /** The backoff never shrinks from one attempt to the next and never exceeds maxDelayMs. */
  lemma BackoffGrows(cfg: Config, m: nat, n: nat)
    requires Sane(cfg) && m <= n
    ensures 0.0 <= Backoff(cfg, m) <= Backoff(cfg, n) <= cfg.maxDelay
  {
    hide Doubled;
    DoubledGrows(cfg.minDelay, m, n);
  }

  /** The backoff starts at minDelayMs and doubles with each attempt until it reaches maxDelayMs. */
  lemma BackoffDoubles(cfg: Config, n: nat)
    requires Sane(cfg)
    ensures Backoff(cfg, 0) == if cfg.minDelay <= cfg.maxDelay then cfg.minDelay else cfg.maxDelay
    ensures var next := 2.0 * Backoff(cfg, n);
            Backoff(cfg, n + 1) == if next <= cfg.maxDelay then next else cfg.maxDelay
  {
    DoubledGrows(cfg.minDelay, n, n + 1);
  }

  /** The jitter reaches every delay from half the backoff up to the backoff. */
  lemma JitterCovers(b: real, d: real)
    requires 0.0 < b && b / 2.0 <= d < b
    ensures exists j :: Jitter(j) && Delay(b, j) == d
  {
    var h := b / 2.0;
    var j := (d - h) / h;
    assert j * h == d - h;
    QuotientInRange(d - h, h);
    assert Jitter(j) && Delay(b, j) == d;
  }

  lemma QuotientInRange(x: real, h: real)
    requires h > 0.0 && 0.0 <= x < h
    ensures 0.0 <= x / h < 1.0
  {
    var q := x / h;
    assert q * h == x;
    if q < 0.0 { ProductBelow(q, h); }
    if q >= 1.0 { ProductAbove(q, h); }
  }

  lemma ProductBelow(q: real, h: real)
    requires q < 0.0 < h
    ensures q * h < 0.0
  {}

  lemma ProductAbove(q: real, h: real)
    requires 1.0 <= q && 0.0 < h
    ensures h <= q * h
  {
    Product(q - 1.0, h);
    assert (q - 1.0) * h == q * h - h;
  }

  /** Every armed reconnect delay lies in [b/2, b] for the backoff b of its attempt. */
  lemma {:induction false} DelaysInRange(cfg: Config, steps: seq<Step>, t: Sys)
    requires Run(cfg, INIT_SYS, steps, t) && Sane(cfg) && t.c.timer.Some?
    ensures t.c.attempts >= 1
    ensures Backoff(cfg, t.c.attempts - 1) / 2.0 <= t.c.timer.value <= Backoff(cfg, t.c.attempts - 1)
  {
    hide Run, LinkInv, Correlated, LedgerInv, SubInv, SettleInv, Backoff;
    Reachable(cfg, steps, t);
  }

  /** The client after one request was made and close() was called while it waited for the dial. */
  lemma ClosedWhileDialing(cfg: Config, r: Request) returns (a: Sys, b: Sys, c: Sys)
    requires r == Request(0, RawFrame.Frame(0x04, []), Direct)
    ensures Enabled(INIT_SYS, UserRequest(r.frame)) && a == Apply(cfg, INIT_SYS, UserRequest(r.frame))
    ensures Enabled(a, UserClose) && b == Apply(cfg, a, UserClose)
    ensures Enabled(b, RunContinuation) && c == Apply(cfg, b, RunContinuation)
    ensures c == Sys(INIT.(state := Closed, dialing := true, dials := 1, issued := [r],
                           log := [ClientSteps.Settlement(r, Rejected)], handled := 1), [])
  {
    hide Find, At, Update, Delete, Hello, Wired, TryConsume, Encode, Close, Continue;
    var parked := INIT.(state := Connecting, dialing := true, dials := 1, issued := [r], waiters := [r]);
    a := Apply(cfg, INIT_SYS, UserRequest(r.frame));
    assert a.c == parked;
    b := Apply(cfg, a, UserClose);
    CloseThenContinue(parked, r);
    c := Apply(cfg, b, RunContinuation);
  }

  /** close() rejects the parked request of a client that has done nothing else. */
  lemma CloseThenContinue(c: Client, r: Request)
    requires r.origin == Direct
    requires c == INIT.(state := Connecting, dialing := true, dials := 1, issued := [r], waiters := [r])
    ensures var log := [ClientSteps.Settlement(r, Rejected)];
            && Close(c) == c.(state := Closed, waiters := [], log := log)
            && Continue(Close(c)) == c.(state := Closed, waiters := [], log := log, handled := 1)
  {
    hide At, Update, Delete;
    assert Rejections([]) == [] && Rejections([r]) == [ClientSteps.Settlement(r, Rejected)];
  }

  lemma BareDialSucceeds(s: Sys)
    requires s.c.dialing && Quiet(s.c) && s.c.token == None && s.c.heap == [] && s.c.subs == []
    ensures Enabled(s, DialOk([]))
  {
    assert Wired([], []) == [] && Hello(None, []) == [];
  }

  /** close() during a dial does not stick: when the dial succeeds the client is ready again. */
  lemma CloseDuringDialReopens(cfg: Config) returns (steps: seq<Step>, t: Sys)
    ensures Run(cfg, INIT_SYS, steps, t) && UserClose in steps && t.c.state == Ready && t.c.live
  {
    hide Apply, Enabled;
    var r := Request(0, RawFrame.Frame(0x04, []), Direct);
    var a, b, c := ClosedWhileDialing(cfg, r);
    BareDialSucceeds(c);
    OpenResetsBudget(cfg, c, []);
    t := Apply(cfg, c, DialOk([]));
    assert Run(cfg, t, [], t);
    RunCons(cfg, c, DialOk([]), [], t);
    RunCons(cfg, b, RunContinuation, [DialOk([])] + [], t);
    var last := [RunContinuation] + ([DialOk([])] + []);
    RunCons(cfg, a, UserClose, last, t);
    RunCons(cfg, INIT_SYS, UserRequest(r.frame), [UserClose] + last, t);
    steps := [UserRequest(r.frame)] + ([UserClose] + last);
    hide Run;
    assert steps[1] == UserClose;
  }

  lemma {:induction false} RunCons(cfg: Config, s: Sys, step: Step, steps: seq<Step>, t: Sys)
    requires Enabled(s, step) && Run(cfg, Apply(cfg, s, step), steps, t)
    ensures Run(cfg, s, [step] + steps, t)
  {
    hide Apply, Enabled;
    assert ([step] + steps)[1..] == steps;
  }

  lemma {:induction false} RunJoin(cfg: Config, s: Sys, xs: seq<Step>, u: Sys, ys: seq<Step>, t: Sys)
    requires Run(cfg, s, xs, u) && Run(cfg, u, ys, t)
    ensures Run(cfg, s, xs + ys, t)
    decreases |xs|
  {
    hide Apply, Enabled;
    if xs == [] {
      assert xs + ys == ys;
    } else {
      RunJoin(cfg, Apply(cfg, s, xs[0]), xs[1..], u, ys, t);
      assert (xs + ys)[1..] == xs[1..] + ys && (xs + ys)[0] == xs[0];
    }
  }

  /** A run goes on by one step. */
  lemma RunSnoc(cfg: Config, s: Sys, steps: seq<Step>, t: Sys, step: Step)
    requires Run(cfg, s, steps, t) && Enabled(t, step)
    ensures Run(cfg, s, steps + [step], Apply(cfg, t, step))
  {
    hide Apply, Enabled, Run;
    NoSteps(cfg, Apply(cfg, t, step));
    RunCons(cfg, t, step, [], Apply(cfg, t, step));
    assert [step] + [] == [step];
    RunJoin(cfg, s, steps, t, [step], Apply(cfg, t, step));
  }

  /** One failing dial per jitter value, with the reconnect timer firing in between. */
  function FailingDials(js: seq<real>): seq<Step>
  {
    if js == [] then []
    else if |js| == 1 then [DialFail(js[0])]
    else [DialFail(js[0])] + ([ReconnectTimer] + FailingDials(js[1..]))
  }

  /** A failed dial with attempts left arms the timer, whose firing dials again; with none left it closes. */
  lemma DialFailsOnce(cfg: Config, c: Client, j: real)
    requires cfg.enabled && cfg.maxAttempts.Some?
    requires c.dialing && c.timer.None? && c.state != Closed && c.pending == [] && Quiet(c)
    ensures var d := DialFailed(cfg, c, j);
            if c.attempts >= cfg.maxAttempts.value then
              d.state == Closed && !d.dialing && d.dials == c.dials && d.waiters == []
            else
              && d.timer.Some? && Quiet(d)
              && var e := ReconnectFires(d);
                 && e.dialing && e.timer.None? && e.state != Closed && e.pending == [] && Quiet(e)
                 && e.attempts == c.attempts + 1 && e.dials == c.dials + 1
  {
    hide Backoff, Ids;
    assert Rejections([]) == [];
    assert c.log + [] == c.log;
  }

  predicate Jitters(js: seq<real>) { forall i :: 0 <= i < |js| ==> Jitter(js[i]) }

  lemma {:induction false} FailFrom(cfg: Config, s: Sys, js: seq<real>) returns (t: Sys)
    requires cfg.enabled && |js| > 0 && Jitters(js) && cfg.maxAttempts == Some(s.c.attempts + |js| - 1)
    requires s.c.dialing && s.c.timer.None? && s.c.state != Closed && s.c.pending == [] && Quiet(s.c)
    ensures Run(cfg, s, FailingDials(js), t)
    ensures t.c.state == Closed && !t.c.dialing && t.c.dials == s.c.dials + |js| - 1 && t.c.waiters == []
    decreases |js|
  {
    hide Hello, Wired, TryConsume, Encode, FlushResults, DialFailed, ReconnectFires, Run;
    var j := js[0];
    var d := Apply(cfg, s, DialFail(j));
    DialFailsOnce(cfg, s.c, j);
    if |js| == 1 {
      t := d;
      NoSteps(cfg, t);
      RunCons(cfg, s, DialFail(j), [], t);
      assert [DialFail(j)] + [] == FailingDials(js);
    } else {
      var e := Apply(cfg, d, ReconnectTimer);
      t := FailFrom(cfg, e, js[1..]);
      RunCons(cfg, d, ReconnectTimer, FailingDials(js[1..]), t);
      RunCons(cfg, s, DialFail(j), [ReconnectTimer] + FailingDials(js[1..]), t);
    }
  }

  lemma {:induction false} NoSteps(cfg: Config, t: Sys)
    ensures Run(cfg, t, [], t)
  {}

  /**
   If every dial fails, whatever the jitter, the client is closed after exactly maxAttempts + 1
   dials and no waiter is left.
   */
  lemma GivesUpAfterMaxAttempts(cfg: Config, frame: Frame, js: seq<real>) returns (t: Sys)
    requires cfg.enabled && cfg.maxAttempts.Some? && |js| == cfg.maxAttempts.value + 1 && Jitters(js)
    ensures Run(cfg, INIT_SYS, [UserRequest(frame)] + FailingDials(js), t)
    ensures t.c.state == Closed && !t.c.dialing && t.c.dials == cfg.maxAttempts.value + 1 && t.c.waiters == []
  {
    hide Backoff, Hello, Wired, TryConsume, Run, FailingDials;
    var s := Apply(cfg, INIT_SYS, UserRequest(frame));
    t := FailFrom(cfg, s, js);
    RunCons(cfg, INIT_SYS, UserRequest(frame), FailingDials(js), t);
  }

  // ---------------------------------------------------------------------------
  // Giving up, over every run without a connection
  // ---------------------------------------------------------------------------

  function FailedDials(steps: seq<Step>): nat
  {
    if steps == [] then 0 else (if steps[0].DialFail? then 1 else 0) + FailedDials(steps[1..])
  }

  /** The same attempts and phase. */
  predicate SameCount(c: Client, d: Client)
  {
    d.attempts == c.attempts && d.gen == c.gen && (d.state == Closed <==> c.state == Closed)
  }

  lemma EnsureReadySameCount(c: Client, x: Request)
    ensures SameCount(c, EnsureReady(c, x))
  {
    hide Rejections;
  }

  lemma IssueSameCount(c: Client, frame: Frame, origin: Origin)
    ensures SameCount(c, Issue(c, frame, origin))
  {
    hide EnsureReady;
    var r := Request(|c.issued|, frame, origin);
    EnsureReadySameCount(c.(issued := c.issued + [r]), r);
  }

  lemma UserCallsSameCount(c: Client, channel: bytes, handler: nat, filter: Option<bytes>)
    ensures SameCount(c, Subscribe(c, channel, handler, filter)) && SameCount(c, RemoveHandler(c, channel, handler))
  {
    hide Find, At, Update, Delete, SubFrame, UnsubFrame, Issue;
    var found := Find(c.heap, c.subs, channel);
    if found.None? && SubSize(channel, filter) <= MAX_PAYLOAD {
      var x := RawEntry.Entry(channel, filter, {handler}, false);
      var added := c.(heap := c.heap + [x], subs := c.subs + [|c.heap|]);
      IssueSameCount(added, SubFrame(channel, filter), SubOf(|c.heap|, handler));
    }
    if found.Some? && 4 + |channel| <= MAX_PAYLOAD {
      var entry := At(c.heap, found.value);
      var d := c.(heap := Update(c.heap, found.value, entry.(handlers := entry.handlers - {handler})));
      IssueSameCount(d.(subs := Delete(d.heap, d.subs, channel)), UnsubFrame(channel), UnsubOf(channel));
    }
  }

  /** While no connection was ever open, only failed dials count, and only they and close() close. */
  lemma UnopenedStep(cfg: Config, s: Sys, step: Step)
    requires Inv(cfg, s) && Enabled(s, step) && !step.DialOk?
    requires cfg.enabled && cfg.maxAttempts.Some? && s.c.gen == 0 && s.c.state != Closed
    ensures var d := Apply(cfg, s, step).c;
            && d.gen == 0
            && (d.state == Closed <==> step.UserClose? || (step.DialFail? && s.c.attempts >= cfg.maxAttempts.value))
            && (d.state != Closed ==> d.attempts == s.c.attempts + if step.DialFail? then 1 else 0)
  {
    hide SubInv, LinkInv, LedgerInv, Correlated, Budget, DelayInRange, Issue, Subscribe, RemoveHandler, Conserved;
    hide At, Update, Delete, AuthFrame, Hello, Wired, Backoff, ParseAll, HandleAll, Send, Encode, TryConsume, Flush;
    hide Concat, Rejections, Continue, EnsureReady, HandleDisconnect, RequestTimeout;
    var c := s.c;
    assert c.pending == [] && !c.live;
    match step {
      case UserRequest(frame) => IssueSameCount(c, frame, Direct);
      case UserAuth(token) => IssueSameCount(c, AuthFrame(token), AuthOf(token));
      case UserSubscribe(ch, h, f) => UserCallsSameCount(c, ch, h, f);
      case UserUnsubscribe(ch, h) => UserCallsSameCount(c, ch, h, None);
      case StrayData(chunk) =>
        var (fs, rest) := ParseAll(c.inbound + chunk);
        HandleAllSameLife(c.(inbound := rest), fs);
      case RunContinuation => ContinueFrame(c);
      case Wake => EnsureReadySameCount(c.(woken := c.woken[1..]), c.woken[0]);
      case DialFail(j) => DisconnectCounts(cfg, c.(dialing := false), j);
      case SocketClosed(j) => DisconnectCounts(cfg, c, j);
      case _ =>
    }
  }

  /** A disconnect counts an attempt, or gives up, only with no dial in flight. */
  lemma DisconnectCounts(cfg: Config, c: Client, j: real)
    requires cfg.enabled && cfg.maxAttempts.Some? && c.state != Closed && c.timer.None?
    ensures var d := HandleDisconnect(cfg, c, j);
            && d.gen == c.gen
            && (d.state == Closed <==> !c.dialing && c.attempts >= cfg.maxAttempts.value)
            && (d.state != Closed ==> d.attempts == c.attempts + if c.dialing then 0 else 1)
  {
    hide Rejections, Ids, Backoff;
  }

  lemma {:induction false} UnopenedRun(cfg: Config, s: Sys, steps: seq<Step>, t: Sys)
    requires Inv(cfg, s) && Run(cfg, s, steps, t) && forall i :: 0 <= i < |steps| ==> !steps[i].DialOk?
    requires cfg.enabled && cfg.maxAttempts.Some? && s.c.gen == 0 && s.c.attempts <= cfg.maxAttempts.value
    ensures s.c.state == Closed ==> t.c.state == Closed
    ensures s.c.state != Closed ==>
              (t.c.state == Closed <==>
               s.c.attempts + FailedDials(steps) > cfg.maxAttempts.value || UserClose in steps)
    decreases |steps|
  {
    hide Inv, Apply, Enabled;
    if steps != [] {
      var u := Apply(cfg, s, steps[0]);
      StepKeepsInv(cfg, s, steps[0]);
      assert steps == [steps[0]] + steps[1..];
      if s.c.state == Closed {
        ClosedIsLeftOnlyByADial(cfg, s, steps[0]);
        ClosedRun(cfg, u, steps[1..], t);
      } else {
        UnopenedStep(cfg, s, steps[0]);
        if u.c.state == Closed {
          ClosedRun(cfg, u, steps[1..], t);
        } else {
          UnopenedRun(cfg, u, steps[1..], t);
        }
      }
    }
  }

  lemma {:induction false} ClosedRun(cfg: Config, s: Sys, steps: seq<Step>, t: Sys)
    requires Inv(cfg, s) && Run(cfg, s, steps, t) && s.c.state == Closed
    requires forall i :: 0 <= i < |steps| ==> !steps[i].DialOk?
    ensures t.c.state == Closed
    decreases |steps|
  {
    hide Inv, Apply, Enabled;
    if steps != [] {
      ClosedIsLeftOnlyByADial(cfg, s, steps[0]);
      StepKeepsInv(cfg, s, steps[0]);
      ClosedRun(cfg, Apply(cfg, s, steps[0]), steps[1..], t);
    }
  }

  /**
   In every run in which no dial succeeds, whatever else the user does meanwhile, the client is
   closed exactly when close() was called or maxAttempts + 1 dials have failed.
   */
  lemma {:induction false} ClosedIffDialsSpent(cfg: Config, steps: seq<Step>, t: Sys)
    requires Run(cfg, INIT_SYS, steps, t) && forall i :: 0 <= i < |steps| ==> !steps[i].DialOk?
    requires cfg.enabled && cfg.maxAttempts.Some?
    ensures t.c.state == Closed <==> FailedDials(steps) >= cfg.maxAttempts.value + 1 || UserClose in steps
  {
    hide Inv, Run, FailedDials;
    InitInv(cfg);
    UnopenedRun(cfg, INIT_SYS, steps, t);
  }

  /**
   Why an ended socket must refuse bytes: a request released just before close() is settled by
   whatever frame still arrives on the old socket exactly when that socket took its bytes.
   */
  lemma StrayReplySettlesStaleSend(c: Client, w: int, reply: Frame)
    requires c.released != [] && w <= |Encode(c.released[0].frame)| && !IsEvent(reply)
    ensures var d := OnData(SendNext(Close(c), w).c, Encode(reply));
            && d.log != []
            && (d.log[|d.log| - 1] == ClientSteps.Settlement(c.released[0], Resolved(reply)) <==> w >= 0)
            && (d.log[|d.log| - 1] == ClientSteps.Settlement(c.released[0], Rejected) <==> w < 0)
  {
    hide Encode, TryConsume, EncodeAll, Ids;
    var d := SendNext(Close(c), w).c;
    assert Encode(reply) + [] == Encode(reply);
    ConsumeEncoded(reply, []);
    EmptyHasNoFrame();
    assert ParseAll([]) == ([], []);
    assert [] + Encode(reply) == Encode(reply);
    var rest: seq<Frame> := [];
    assert [reply] + rest == [reply];
    assert ParseAll(Encode(reply)) == ([reply], []);
    assert HandleAll(d.(inbound := []), [reply]) == HandleFrame(d.(inbound := []), reply);
  }
}
