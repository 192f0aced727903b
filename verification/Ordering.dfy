/**
 Requests keep their order. Every request is numbered when it is made; the ones that wait
 for a connection are released oldest first, and what is released is written in that
 order. Only a request made while older ones are still being woken can overtake them.
 */
module Ordering {
  import opened Bytes
  import opened Frames
  import opened Backlog
  import opened ClientSteps
  import opened System
  import opened Lifecycle
  import opened Settlement
  import opened Correlation
  import opened Ledger
  import opened Subscriptions
  import opened Theorems

  predicate Increasing(rs: seq<Request>) { forall i, j :: 0 <= i < j < |rs| ==> rs[i].id < rs[j].id }

  /** A request may stand before another: it is older, or only the other one had to be woken. */
  predicate Before(p: Request, q: Request, parked: seq<Request>)
  {
    p.origin == Handshake || p.id < q.id || (p !in parked && q in parked)
  }

  predicate Lined(q: seq<Request>, parked: seq<Request>)
  {
    forall i, j :: 0 <= i < j < |q| ==> Before(q[i], q[j], parked)
  }

  predicate Known(rs: seq<Request>, n: nat) { forall i :: 0 <= i < |rs| ==> rs[i].id < n }

  /** Those still to be woken on the connection are younger than those of its parked requests that went ahead. */
  predicate WokenLast(q: seq<Request>, woken: seq<Request>, parked: seq<Request>)
  {
    && (forall i :: 0 <= i < |woken| ==> woken[i] in parked)
    && forall i, j :: 0 <= i < |q| && 0 <= j < |woken| && q[i] in parked ==> q[i].id < woken[j].id
  }

  predicate ConnInOrder(conn: Conn, n: nat)
  {
    Lined(conn.sent, conn.parked) && Known(conn.sent, n) && Known(conn.parked, n)
  }

  predicate OrderInv(s: Sys)
  {
    var c := s.c;
    && Increasing(c.waiters) && Increasing(c.woken)
    && Known(c.waiters, |c.issued|) && Known(c.woken, |c.issued|) && Known(c.released, |c.issued|)
    && (c.woken != [] ==> c.live || c.state == Closed)
    && (forall k :: 0 <= k < |s.conns| ==> ConnInOrder(s.conns[k], |c.issued|))
    && (c.live ==> s.conns != [] && LiveInOrder(c, Last(s)))
  }

  predicate LiveInOrder(c: Client, conn: Conn)
  {
    Lined(conn.sent + c.released, conn.parked) && WokenLast(conn.sent + c.released, c.woken, conn.parked)
  }

  // ---------------------------------------------------------------------------
  // Steps
  // ---------------------------------------------------------------------------

  lemma KnownMore(rs: seq<Request>, n: nat, m: nat)
    requires Known(rs, n) && n <= m
    ensures Known(rs, m)
  {}

  /** Steps after which the queues are as before, or the parked requests are gone. */
  predicate SameQueues(c: Client, d: Client)
  {
    && (d.waiters == c.waiters || d.waiters == [])
    && d.woken == c.woken && d.released == c.released && |c.issued| <= |d.issued|
    && (d.live ==> c.live)
    && (d.woken != [] ==> d.live || d.state == Closed)
  }

  lemma QueuesKept(s: Sys, t: Sys)
    requires OrderInv(s) && SameQueues(s.c, t.c) && SameSent(s.conns, t.conns)
    ensures OrderInv(t)
  {
    hide Lined, Known, WokenLast, Increasing;
    var n, m := |s.c.issued|, |t.c.issued|;
    KnownMore(s.c.waiters, n, m);
    KnownMore(s.c.woken, n, m);
    KnownMore(s.c.released, n, m);
    assert Increasing([]) && Known([], m) by { NothingToOrder(m); }
    forall k | 0 <= k < |t.conns| ensures ConnInOrder(t.conns[k], m) {
      assert ConnInOrder(s.conns[k], n);
      KnownMore(s.conns[k].sent, n, m);
      KnownMore(s.conns[k].parked, n, m);
    }
  }

  lemma NothingToOrder(n: nat)
    ensures Increasing([]) && Known([], n)
  {}

  lemma AppendLined(q: seq<Request>, x: Request, parked: seq<Request>)
    requires Lined(q, parked) && forall i :: 0 <= i < |q| ==> Before(q[i], x, parked)
    ensures Lined(q + [x], parked)
  {}

  lemma AppendIncreasing(rs: seq<Request>, x: Request)
    requires Increasing(rs) && Known(rs, x.id)
    ensures Increasing(rs + [x])
  {}

  lemma AppendKnown(rs: seq<Request>, x: Request, n: nat)
    requires Known(rs, n) && x.id < n
    ensures Known(rs + [x], n)
  {}

  /** Where ensureReady puts a request. */
  lemma EnsureReadyQueues(c: Client, x: Request)
    ensures var d := EnsureReady(c, x);
            && d.woken == c.woken && d.issued == c.issued && d.live == c.live
            && (d.state == Closed <==> c.state == Closed)
            && (if c.state == Closed then d.waiters == c.waiters && d.released == c.released
                else if c.live && c.state == Ready then d.waiters == c.waiters && d.released == c.released + [x]
                else d.waiters == c.waiters + [x] && d.released == c.released)
  {
    hide Rejections, OpenSocket;
    var d := EnsureReady(c, x);
    if c.state == Closed {
      assert d == Reject(c, [x]);
    } else if c.live && c.state == Ready {
      assert d == c.(released := c.released + [x]);
    } else {
      DialsOnly(c);
      DialsOnly(c.(state := Connecting));
    }
  }

  lemma DialsOnly(c: Client)
    ensures var d := OpenSocket(c); d == c.(dialing := d.dialing, dials := d.dials)
  {}

  /** ensureReady for a request that may follow everything ahead of it. */
  lemma EnsureReadyKeepsOrder(s: Sys, x: Request)
    requires OrderInv(s) && x.id < |s.c.issued| && OneLink(s.c)
    requires !s.c.live && s.c.state != Closed ==> Known(s.c.waiters, x.id)
    requires s.c.live ==>
               var q := Last(s).sent + s.c.released;
               && (forall i :: 0 <= i < |q| ==> Before(q[i], x, Last(s).parked))
               && WokenLast([x], s.c.woken, Last(s).parked)
    ensures OrderInv(s.(c := EnsureReady(s.c, x)))
  {
    hide EnsureReady, Lined, Known, Increasing, Before;
    var c, d := s.c, EnsureReady(s.c, x);
    EnsureReadyQueues(c, x);
    AppendKnown(c.waiters, x, |c.issued|);
    AppendKnown(c.released, x, |c.issued|);
    if c.live {
      var q := Last(s).sent + c.released;
      AppendLined(q, x, Last(s).parked);
      AppendAssoc(Last(s).sent, c.released, [x]);
      assert WokenLast(q + [x], c.woken, Last(s).parked);
    } else if c.state != Closed {
      AppendIncreasing(c.waiters, x);
    }
  }

  /** A new request is younger than all. */
  lemma IssueKeepsOrder(s: Sys, frame: Frame, origin: Origin)
    requires OrderInv(s) && OneLink(s.c)
    ensures OrderInv(s.(c := Issue(s.c, frame, origin)))
  {
    hide EnsureReady;
    var c := s.c;
    var x := Request(|c.issued|, frame, origin);
    var d := c.(issued := c.issued + [x]);
    var u := s.(c := d);
    NewIsKnown(s, d);
    if d.live {
      NewIsLast(s, x);
    }
    EnsureReadyKeepsOrder(u, x);
  }

  lemma NewIsKnown(s: Sys, d: Client)
    requires OrderInv(s) && d == s.c.(issued := d.issued) && |s.c.issued| <= |d.issued|
    ensures OrderInv(s.(c := d))
  {
    hide Lined, Known, Increasing, WokenLast;
    assert SameSent(s.conns, s.conns);
    QueuesKept(s, s.(c := d));
  }

  lemma NewIsLast(s: Sys, x: Request)
    requires OrderInv(s) && s.c.live && x.id == |s.c.issued|
    ensures var q := Last(s).sent + s.c.released;
            && (forall i :: 0 <= i < |q| ==> Before(q[i], x, Last(s).parked))
            && WokenLast([x], s.c.woken, Last(s).parked)
  {
    var conn := Last(s);
    assert ConnInOrder(conn, |s.c.issued|);
    assert x !in conn.parked;
  }

  /** The oldest woken request goes next. */
  lemma WakeKeepsOrder(s: Sys)
    requires OrderInv(s) && OneLink(s.c) && s.c.woken != []
    ensures OrderInv(s.(c := WakeNext(s.c)))
  {
    hide EnsureReady, Lined;
    var c, x := s.c, s.c.woken[0];
    var d := c.(woken := c.woken[1..]);
    assert OrderInv(s.(c := d)) by { PopWoken(s); }
    if c.live {
      assert WokenLast([x], d.woken, Last(s).parked);
    }
    EnsureReadyKeepsOrder(s.(c := d), x);
  }

  lemma PopWoken(s: Sys)
    requires OrderInv(s) && s.c.woken != []
    ensures OrderInv(s.(c := s.c.(woken := s.c.woken[1..])))
  {
    hide Lined, Before;
  }

  /** A change of the map, the token or the promise log moves no request. */
  lemma EditKeepsOrder(s: Sys, d: Client)
    requires OrderInv(s)
    requires d == s.c.(heap := d.heap, subs := d.subs, token := d.token, handled := d.handled)
    ensures OrderInv(s.(c := d))
  {
    hide Lined, Known, Increasing, WokenLast;
    QueuesKept(s, s.(c := d));
  }

  lemma SubscribeKeepsOrder(s: Sys, channel: bytes, handler: nat, filter: Option<bytes>)
    requires OrderInv(s) && OneLink(s.c)
    ensures OrderInv(s.(c := Subscribe(s.c, channel, handler, filter)))
  {
    hide OrderInv, Issue, SubFrame, Find;
    var c := s.c;
    match Find(c.heap, c.subs, channel)
    case Some(e) => EditKeepsOrder(s, Subscribe(c, channel, handler, filter));
    case None =>
      if SubSize(channel, filter) <= MAX_PAYLOAD {
        var e, x := |c.heap|, RawEntry.Entry(channel, filter, {handler}, false);
        var added := c.(heap := c.heap + [x], subs := c.subs + [e]);
        EditKeepsOrder(s, added);
        IssueKeepsOrder(s.(c := added), SubFrame(channel, filter), SubOf(e, handler));
      }
  }

  lemma RemoveKeepsOrder(s: Sys, channel: bytes, handler: nat)
    requires OrderInv(s) && OneLink(s.c)
    ensures OrderInv(s.(c := RemoveHandler(s.c, channel, handler)))
  {
    hide OrderInv, Issue, UnsubFrame, Find, Delete;
    var c := s.c;
    var found := Find(c.heap, c.subs, channel);
    if found.Some? {
      var entry := At(c.heap, found.value);
      var left := entry.handlers - {handler};
      var d := c.(heap := Update(c.heap, found.value, entry.(handlers := left)));
      var gone := d.(subs := Delete(d.heap, d.subs, channel));
      EditKeepsOrder(s, d);
      EditKeepsOrder(s, gone);
      if c.live && c.state == Ready && 4 + |channel| <= MAX_PAYLOAD {
        IssueKeepsOrder(s.(c := gone), UnsubFrame(channel), UnsubOf(channel));
      }
    }
  }

  /** The head of the released queue becomes the last one sent, or is given up. */
  lemma SendKeepsOrder(cfg: Config, s: Sys, w: int)
    requires OrderInv(s) && Enabled(s, SendFrame(w))
    ensures OrderInv(Apply(cfg, s, SendFrame(w)))
  {
    hide Send, Encode, Concat, Lined, Known, Increasing, WokenLast;
    var c, t := s.c, Apply(cfg, s, SendFrame(w));
    var x, rest := c.released[0], c.released[1..];
    SendSameLife(c.(released := rest), x, w);
    SendIssues(c.(released := rest), x, w);
    assert c.released == [x] + rest;
    PopKnown(x, rest, |c.issued|);
    if c.live {
      var conn := Last(s);
      var sent := conn.sent;
      assert ConnInOrder(conn, |c.issued|);
      AppendKnown(sent, x, |c.issued|);
      AppendAssoc(sent, [x], rest);
      DropLined(sent, x, rest, conn.parked);
      DropWoken(sent, x, rest, c.woken, conn.parked);
    }
  }

  lemma SendIssues(c: Client, x: Request, w: int)
    requires w <= |Encode(x.frame)|
    ensures Send(c, x, w).c.issued == c.issued
  {
    hide Encode, EncodeAll, Concat;
    SendSubmits(c, x, w);
  }

  lemma PopKnown(x: Request, rest: seq<Request>, n: nat)
    requires Known([x] + rest, n)
    ensures Known(rest, n) && x.id < n
  {
    assert forall i :: 0 <= i < |rest| ==> rest[i] == ([x] + rest)[i + 1];
    assert ([x] + rest)[0] == x;
  }

  /** A part of a line is in line. */
  lemma DropLined(sent: seq<Request>, x: Request, rest: seq<Request>, parked: seq<Request>)
    requires Lined(sent + ([x] + rest), parked)
    ensures Lined(sent + rest, parked) && Lined(sent + [x], parked)
  {
    hide Before;
    var all, q := sent + ([x] + rest), sent + rest;
    forall i, j | 0 <= i < j < |q| ensures Before(q[i], q[j], parked) {
      var a, b := if i < |sent| then i else i + 1, if j < |sent| then j else j + 1;
      assert q[i] == all[a] && q[j] == all[b];
    }
    assert sent + [x] == all[..|sent| + 1];
  }

  lemma DropWoken(sent: seq<Request>, x: Request, rest: seq<Request>, woken: seq<Request>, parked: seq<Request>)
    requires WokenLast(sent + ([x] + rest), woken, parked)
    ensures WokenLast(sent + rest, woken, parked)
  {
    var all, q := sent + ([x] + rest), sent + rest;
    forall i | 0 <= i < |q| ensures q[i] == all[if i < |sent| then i else i + 1] {}
  }

  /** A new connection starts with the handshake and will be joined by the parked requests in order. */
  lemma OpenKeepsOrder(cfg: Config, s: Sys, ws: seq<int>)
    requires OrderInv(s) && OneLink(s.c) && DeadIsEmpty(s.c) && Enabled(s, DialOk(ws))
    requires Numbered(Apply(cfg, s, DialOk(ws)).c.issued)
    ensures OrderInv(Apply(cfg, s, DialOk(ws)))
  {
    hide OnOpen, Hello, Wired, Encode, Lined, Known, Increasing, WokenLast;
    var c, t := s.c, Apply(cfg, s, DialOk(ws));
    var conn := Open(c, OnOpen(c, ws));
    OpenedSubs(c, ws);
    var n, m := |c.issued|, |t.c.issued|;
    assert conn.sent == t.c.issued[n..];
    NewNumbers(t.c.issued, n);
    OpenResetsBudget(cfg, s, ws);
    NothingToOrder(m);
    KnownMore(c.waiters, n, m);
    assert t.c.woken == c.waiters && conn.parked == c.waiters;
    forall k | 0 <= k < |s.conns| ensures ConnInOrder(t.conns[k], m) {
      assert ConnInOrder(s.conns[k], n);
      KnownMore(s.conns[k].sent, n, m);
      KnownMore(s.conns[k].parked, n, m);
    }
    HandshakeLined(conn.sent, conn.parked);
    assert conn.sent + [] == conn.sent;
    HandshakeWoken(conn.sent, c.waiters, n);
    assert t.conns == s.conns + [conn] && t.c.released == [] && t.c.waiters == [];
    assert ConnInOrder(conn, m);
    assert LiveInOrder(t.c, conn);
    hide Apply, Open, ConnInOrder, LiveInOrder;
    forall k | 0 <= k < |t.conns| ensures ConnInOrder(t.conns[k], m) {}
  }

  lemma HandshakeLined(sent: seq<Request>, parked: seq<Request>)
    requires forall i :: 0 <= i < |sent| ==> sent[i].origin == Handshake
    ensures Lined(sent, parked)
  {}

  lemma NewNumbers(issued: seq<Request>, n: nat)
    requires Numbered(issued) && n <= |issued|
    ensures Known(issued[n..], |issued|) && forall i :: 0 <= i < |issued[n..]| ==> issued[n..][i].id >= n
  {
    forall i | 0 <= i < |issued[n..]| ensures issued[n..][i].id == n + i {
      assert issued[n..][i] == issued[n + i];
    }
  }

  lemma HandshakeWoken(sent: seq<Request>, parked: seq<Request>, n: nat)
    requires Known(parked, n) && forall i :: 0 <= i < |sent| ==> sent[i].id >= n
    ensures WokenLast(sent, parked, parked)
  {}

  lemma CloseQueues(c: Client)
    ensures var d := Close(c);
            && d.waiters == [] && d.woken == c.woken && d.released == c.released && d.issued == c.issued
            && !d.live && d.state == Closed
  {
    hide Rejections, Ids;
  }

  /** The callbacks that may drop the connection. */
  lemma TeardownQueues(cfg: Config, c: Client, id: nat, j: real)
    requires c.woken == []
    ensures SameQueues(c, HandleDisconnect(cfg, c, j))
    ensures id in c.timers ==> SameQueues(c, RequestTimeout(cfg, c, id, j))
  {
    hide HandleDisconnect, Rejections, Ids;
    DisconnectSameSubs(cfg, c, j);
    DisconnectLive(cfg, c, j);
    if id in c.timers {
      TimeoutSameSubs(cfg, c, id, j);
      DisconnectLive(cfg, RejectAllPending(c.(timers := c.timers - {id})).(live := false), j);
    }
  }

  lemma DisconnectLive(cfg: Config, c: Client, j: real)
    ensures !HandleDisconnect(cfg, c, j).live
  {
    hide Rejections, Ids, Backoff;
  }

  /** Steps that leave the queues as they are. */
  lemma OtherStepsSameQueues(cfg: Config, s: Sys, step: Step)
    requires OrderInv(s) && Enabled(s, step)
    requires step.UserClose? || step.DialFail? || step.ReconnectTimer? || step.Timeout? || step.SocketClosed? ||
             step.Data? || step.StrayData? || step.DrainSocket? || step.Deliver? || step.Greet? || step.Serve? ||
             step.Emit?
    ensures SameQueues(s.c, Apply(cfg, s, step).c)
  {
    hide Close, HandleDisconnect, RequestTimeout, ParseAll, HandleAll, Encode, Hello, TryConsume, Flush, Concat;
    hide FlushResults, Wired, Lined, Known, Increasing, WokenLast, ConnInOrder, OpenSocket;
    var c := s.c;
    match step {
      case UserClose => CloseQueues(c);
      case DialFail(j) => TeardownQueues(cfg, c.(dialing := false), 0, j);
      case ReconnectTimer => DialsOnly(c.(timer := None));
      case Timeout(id, j) => TeardownQueues(cfg, c, id, j);
      case SocketClosed(j) => TeardownQueues(cfg, c, 0, j);
      case Data(n) =>
        var (fs, rest) := ParseAll(c.inbound + Last(s).s2c[..n]);
        HandleAllSameLife(c.(inbound := rest), fs);
        HandleAllIssues(c.(inbound := rest), fs);
      case StrayData(chunk) =>
        var (fs, rest) := ParseAll(c.inbound + chunk);
        HandleAllSameLife(c.(inbound := rest), fs);
        HandleAllIssues(c.(inbound := rest), fs);
      case _ =>
    }
  }

  lemma {:induction false} HandleAllIssues(c: Client, fs: seq<Frame>)
    ensures HandleAll(c, fs).issued == c.issued
    decreases |fs|
  {
    hide IsEvent;
    if fs != [] { HandleAllIssues(HandleFrame(c, fs[0]), fs[1..]); }
  }

  /** Every step keeps the order. */
  lemma StepKeepsOrder(cfg: Config, s: Sys, step: Step)
    requires Inv(cfg, s) && OrderInv(s) && Enabled(s, step)
    ensures OrderInv(Apply(cfg, s, step))
  {
    hide OrderInv, SettleInv, LinkInv, Correlated, LedgerInv, SubInv, NoStranded, Budget, DelayInRange, Phases;
    hide Issue, EnsureReady, Subscribe, RemoveHandler, Continue, SendNext, OnOpen, Hello, Encode, AuthFrame;
    var c := s.c;
    match step {
      case UserRequest(frame) => IssueKeepsOrder(s, frame, Direct);
      case UserAuth(token) => IssueKeepsOrder(s, AuthFrame(token), AuthOf(token));
      case UserSubscribe(ch, h, f) => SubscribeKeepsOrder(s, ch, h, f);
      case UserUnsubscribe(ch, h) => RemoveKeepsOrder(s, ch, h);
      case Wake => WakeKeepsOrder(s);
      case SendFrame(w) => SendKeepsOrder(cfg, s, w);
      case RunContinuation =>
        ContinueFrame(c);
        EditKeepsOrder(s, Continue(c));
      case DialOk(ws) =>
        StepKeepsInv(cfg, s, step);
        OpenNumbered(cfg, s, ws);
        OpenKeepsOrder(cfg, s, ws);
      case _ =>
        OtherStepsSameQueues(cfg, s, step);
        StepSameSent(cfg, s, step);
        QueuesKept(s, Apply(cfg, s, step));
    }
  }

  lemma OpenNumbered(cfg: Config, s: Sys, ws: seq<int>)
    requires Enabled(s, DialOk(ws)) && Inv(cfg, Apply(cfg, s, DialOk(ws)))
    ensures Numbered(Apply(cfg, s, DialOk(ws)).c.issued)
  {
    hide LifeInv, LinkInv, Correlated, LedgerInv, SubInv, TimersMatch, OnOpen, Hello, Apply, Enabled;
  }

  lemma {:induction false} RunKeepsOrder(cfg: Config, s: Sys, steps: seq<Step>, t: Sys)
    requires Inv(cfg, s) && OrderInv(s) && Run(cfg, s, steps, t)
    ensures Inv(cfg, t) && OrderInv(t)
    decreases |steps|
  {
    hide Inv, OrderInv, Apply, Enabled;
    if steps != [] {
      StepKeepsOrder(cfg, s, steps[0]);
      StepKeepsInv(cfg, s, steps[0]);
      RunKeepsOrder(cfg, Apply(cfg, s, steps[0]), steps[1..], t);
    }
  }

  lemma ReachableOrder(cfg: Config, steps: seq<Step>, t: Sys)
    requires Run(cfg, INIT_SYS, steps, t)
    ensures Inv(cfg, t) && OrderInv(t)
  {
    hide Inv, Run;
    InitInv(cfg);
    RunKeepsOrder(cfg, INIT_SYS, steps, t);
  }

  // ---------------------------------------------------------------------------
  // The theorems
  // ---------------------------------------------------------------------------

  /** In every run, the parked and the woken requests stand in the order in which they were made. */
  lemma ParkedInOrder(cfg: Config, steps: seq<Step>, t: Sys)
    requires Run(cfg, INIT_SYS, steps, t)
    ensures forall i, j :: 0 <= i < j < |t.c.waiters| ==> t.c.waiters[i].id < t.c.waiters[j].id
    ensures forall i, j :: 0 <= i < j < |t.c.woken| ==> t.c.woken[i].id < t.c.woken[j].id
  {
    hide Run, Inv;
    ReachableOrder(cfg, steps, t);
  }

  /**
   In every run, of two requests that users made and one connection carried, the older stands
   first, unless it was parked when the connection opened and the younger was not. So two
   parked ones keep their order, and so do two made on the open connection.
   */
  lemma SentInOrder(cfg: Config, steps: seq<Step>, t: Sys, k: nat, i: nat, j: nat)
    requires Run(cfg, INIT_SYS, steps, t) && k < |t.conns| && i < |t.conns[k].sent| && j < |t.conns[k].sent|
    requires t.conns[k].sent[i].origin != Handshake && t.conns[k].sent[j].origin != Handshake
    requires t.conns[k].sent[i].id < t.conns[k].sent[j].id
    ensures i < j || (t.conns[k].sent[i] in t.conns[k].parked && t.conns[k].sent[j] !in t.conns[k].parked)
  {
    hide Run, Inv;
    ReachableOrder(cfg, steps, t);
    var conn := t.conns[k];
    assert ConnInOrder(conn, |t.c.issued|);
    if j < i {
      assert Before(conn.sent[j], conn.sent[i], conn.parked);
    }
  }
}
