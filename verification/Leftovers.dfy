/**
 Where the client's subscription map and the server part ways: channels the server is
 subscribed to although the client has no entry for them, and entries that no later
 step will ever subscribe.
 */
module Leftovers {
  import opened Bytes
  import opened Frames
  import opened Commands
  import opened Backlog
  import opened ClientSteps
  import opened System
  import opened Lifecycle
  import opened Settlement
  import opened Correlation
  import opened Ledger
  import opened Subscriptions
  import opened Theorems
  import opened ServerView

  // ---------------------------------------------------------------------------
  // Stale channels
  // ---------------------------------------------------------------------------

  predicate NoEntry(c: Client, channel: bytes) { forall e :: e in c.subs ==> At(c.heap, e).channel != channel }

  /** The server is subscribed on the live connection, the client has no entry. */
  ghost predicate Stale(s: Sys, channel: bytes)
  {
    s.c.live && s.conns != [] && NoEntry(s.c, channel) && channel in ServerSet(Last(s).served)
  }

  predicate LiveAtOpen(conn: Conn, channel: bytes) { exists x :: x in conn.live && x.channel == channel }

  /** The request is a SUB sent by hand, or for an entry that is no longer in the map. */
  predicate Orphaned(c: Client, conn: Conn, r: Request, channel: bytes)
  {
    match r.origin
    case Direct => true
    case Handshake => LiveAtOpen(conn, channel)
    case SubOf(e, _) => e < |c.heap| && c.heap[e].channel == channel && e !in c.subs
    case _ => false
  }

  /** Who can have sent a SUB for a channel. */
  lemma SubComesFrom(cfg: Config, s: Sys, r: Request, channel: bytes)
    requires Inv(cfg, s) && s.c.live && s.conns != [] && r in Last(s).sent
    requires r.frame.code == SUB && About(r.frame, channel) && NoEntry(s.c, channel)
    ensures Orphaned(s.c, Last(s), r, channel)
  {
    hide LifeInv, LinkInv, Correlated, SentOnce, UserQueues, UnsubsFirst, Agree, WiredSettled, OneSubEach, MapOk;
    hide Hello, FirstField, TimersMatch, UnsubFrame, SubFrame, AuthFrame, Shape, Conserved;
    var j :| 0 <= j < |Last(s).sent| && Last(s).sent[j] == r;
    SentWasIssued(s, |s.conns| - 1, j);
    assert OriginOk(s.c, s.c.issued[r.id]);
    match r.origin
    case SubOf(e, _) =>
      SubFrameChannel(s.c.heap[e].channel, s.c.heap[e].filter);
      assert At(s.c.heap, e) == s.c.heap[e];
    case UnsubOf(ch) => UnsubFrameChannel(ch);
    case AuthOf(t) => AuthCode(t);
    case Handshake => HandshakeSubIsLive(Last(s), j, channel);
    case Direct =>
  }

  lemma HandshakeSubIsLive(conn: Conn, j: nat, channel: bytes)
    requires Shape(conn) && j < |conn.sent| && conn.sent[j].origin == Handshake
    requires conn.sent[j].frame.code == SUB && About(conn.sent[j].frame, channel)
    ensures LiveAtOpen(conn, channel)
  {
    hide FirstField, SubFrame, AuthFrame;
    var hello := Hello(conn.token, conn.live);
    assert FramesOf(conn.sent[..|hello|])[j] == conn.sent[j].frame;
    if conn.token.Some? && j == 0 {
      AuthCode(conn.token.value);
    } else {
      var x := conn.live[if conn.token.Some? then j - 1 else j];
      assert hello[j] == SubFrame(x.channel, x.filter);
      SubFrameChannel(x.channel, x.filter);
      assert x in conn.live;
    }
  }

  /**
   Where it comes from, in every run: when the server is subscribed to a channel without an
   entry, the last word on the channel it accepted is a SUB sent by hand or on behalf of an
   entry that has since been removed.
   */
  lemma StaleComesFrom(cfg: Config, steps: seq<Step>, t: Sys, channel: bytes)
    requires Run(cfg, INIT_SYS, steps, t) && Stale(t, channel)
    ensures var i := LastObeyed(Last(t).served, channel);
            && i.Some? && i.value < |Last(t).sent|
            && Last(t).sent[i.value].frame.code == SUB
            && Orphaned(t.c, Last(t), Last(t).sent[i.value], channel)
  {
    hide Run, LifeInv, SettleInv, Correlated, LedgerInv, SubInv, ServerSet, FramesOf, Orphaned, Inbox;
    hide EncodeAll, Outbound;
    Reachable(cfg, steps, t);
    assert Wire(Last(t));
    ServerSetIsLastObeyed(Last(t).served, channel);
    var i := LastObeyed(Last(t).served, channel).value;
    SubComesFrom(cfg, t, Last(t).sent[i], channel);
  }

  // ---------------------------------------------------------------------------
  // How a channel becomes stale
  // ---------------------------------------------------------------------------

  predicate LastHandler(c: Client, channel: bytes, handler: nat)
  {
    var found := Find(c.heap, c.subs, channel);
    found.Some? && At(c.heap, found.value).handlers - {handler} == {}
  }

  /** The settled SUB whose failure takes the last handler of its entry away. */
  predicate FailedLast(c: Client, x: ClientSteps.Settlement, channel: bytes)
  {
    && x.req.origin.SubOf? && !Succeeded(x)
    && var entry := At(c.heap, x.req.origin.entry);
       entry.channel == channel && entry.handlers - {x.req.origin.handler} == {}
  }

  /** The three steps that leave the server subscribed without an entry. */
  ghost predicate Orphans(s: Sys, step: Step, channel: bytes)
    requires Enabled(s, step)
  {
    && s.c.live && s.conns != []
    && match step
       case Serve(k, reply) =>
         var cmd := TryConsume(s.conns[k].srvIn).frame;
         k == |s.conns| - 1 && NoEntry(s.c, channel) && cmd.code == SUB && Obeyed(Served(cmd, reply), channel)
       case UserUnsubscribe(ch, handler) =>
         ch == channel && LastHandler(s.c, channel, handler) && channel in ServerSet(Last(s).served)
       case RunContinuation =>
         && FailedLast(s.c, s.c.log[s.c.handled], channel) && !NoEntry(s.c, channel)
         && channel in ServerSet(Last(s).served)
       case _ => false
  }

  /** The same entries, map and token, the same continuations run, and no request forgotten. */
  predicate KeepsMap(c: Client, d: Client)
  {
    d.heap == c.heap && d.subs == c.subs && d.token == c.token && d.handled == c.handled && c.issued <= d.issued
  }

  /** The same map, and no connection where there was none. */
  predicate SameMap(s: Sys, t: Sys)
  {
    && KeepsMap(s.c, t.c)
    && (t.c.live ==> s.c.live && t.conns != [] && s.conns != [] && Last(t).served == Last(s).served)
  }

  predicate EditsMap(step: Step) { step.UserSubscribe? || step.UserUnsubscribe? || step.RunContinuation? }

  lemma EnsureReadySameMap(c: Client, x: Request)
    ensures var d := EnsureReady(c, x); KeepsMap(c, d) && d.live == c.live
  {
    hide Rejections, OpenSocket;
    var d := EnsureReady(c, x);
    if c.state == Closed {
      assert d == Reject(c, [x]);
    } else if c.live && c.state == Ready {
      assert d == c.(released := c.released + [x]);
    } else {
      OpenSocketSameMap(c);
      OpenSocketSameMap(c.(state := Connecting));
    }
  }

  lemma OpenSocketSameMap(c: Client)
    ensures var d := OpenSocket(c); KeepsMap(c, d) && d.live == c.live
  {}

  lemma IssueSameMap(c: Client, frame: Frame, origin: Origin)
    ensures var d := Issue(c, frame, origin);
            KeepsMap(c, d) && d.live == c.live && c.issued + [Request(|c.issued|, frame, origin)] <= d.issued
  {
    hide EnsureReady;
    var r := Request(|c.issued|, frame, origin);
    EnsureReadySameMap(c.(issued := c.issued + [r]), r);
  }

  lemma CloseSameMap(c: Client)
    ensures var d := Close(c); KeepsMap(c, d) && !d.live
  {
    hide Rejections, Ids;
  }

  lemma TeardownSameMap(cfg: Config, c: Client, id: nat, j: real)
    ensures var d := HandleDisconnect(cfg, c, j); KeepsMap(c, d) && !d.live
    ensures id in c.timers ==>
              var d := RequestTimeout(cfg, c, id, j);
              KeepsMap(c, d) && (d.live ==> c.live)
  {
    hide HandleDisconnect, Rejections, Ids;
    DisconnectDrops(cfg, c, j);
    DisconnectSameSubs(cfg, c, j);
    if id in c.timers {
      TimeoutSameSubs(cfg, c, id, j);
      DisconnectDrops(cfg, RejectAllPending(c.(timers := c.timers - {id})).(live := false), j);
    }
  }

  lemma DisconnectDrops(cfg: Config, c: Client, j: real)
    ensures !HandleDisconnect(cfg, c, j).live
  {
    hide Rejections, Ids, Backoff;
  }

  /** Steps of the byte channels and the server, but for its answers. */
  predicate WireStep(step: Step)
  {
    step.Data? || step.DrainSocket? || step.Deliver? || step.Greet? || step.Emit?
  }

  /** Steps that neither edit the map nor answer a command nor open a connection. */
  lemma OtherStepsSameMap(cfg: Config, s: Sys, step: Step)
    requires LinkInv(s) && Enabled(s, step) && !EditsMap(step) && !step.Serve? && !step.DialOk?
    ensures SameMap(s, Apply(cfg, s, step))
  {
    hide LinkInv, Apply, Enabled;
    if WireStep(step) {
      WireStepsSameMap(cfg, s, step);
    } else if step.SendFrame? {
      SendSameMap(cfg, s, step.w);
    } else {
      ClientStepsSameMap(cfg, s, step);
    }
  }

  lemma ClientStepsSameMap(cfg: Config, s: Sys, step: Step)
    requires LinkInv(s) && Enabled(s, step) && !EditsMap(step) && !WireStep(step)
    requires !step.SendFrame? && !step.Serve? && !step.DialOk?
    ensures SameMap(s, Apply(cfg, s, step))
  {
    hide LinkInv, Issue, EnsureReady, Close, HandleDisconnect, RequestTimeout, ParseAll, HandleAll, Encode, Hello;
    hide AuthFrame, TryConsume, OpenSocket, FlushResults, Wired;
    var c := s.c;
    LinkHasConn(s);
    match step {
      case UserRequest(frame) => IssueSameMap(c, frame, Direct);
      case UserAuth(token) => IssueSameMap(c, AuthFrame(token), AuthOf(token));
      case UserClose => CloseSameMap(c);
      case Wake => EnsureReadySameMap(c.(woken := c.woken[1..]), c.woken[0]);
      case DialFail(j) => TeardownSameMap(cfg, c.(dialing := false), 0, j);
      case Timeout(id, j) => TeardownSameMap(cfg, c, id, j);
      case SocketClosed(j) => TeardownSameMap(cfg, c, 0, j);
      case ReconnectTimer => OpenSocketSameMap(c.(timer := None));
      case StrayData(chunk) =>
        var (fs, rest) := ParseAll(c.inbound + chunk);
        HandleAllSameLife(c.(inbound := rest), fs);
    }
  }

  lemma WireStepsSameMap(cfg: Config, s: Sys, step: Step)
    requires LinkInv(s) && Enabled(s, step) && WireStep(step)
    ensures SameMap(s, Apply(cfg, s, step))
  {
    hide LinkInv, ParseAll, HandleAll, Encode, Hello, TryConsume, Flush, Concat, FlushResults, Wired;
    var c := s.c;
    LinkHasConn(s);
    if step.Data? {
      var (fs, rest) := ParseAll(c.inbound + Last(s).s2c[..step.n]);
      HandleAllSameLife(c.(inbound := rest), fs);
    }
  }

  lemma SendSameMap(cfg: Config, s: Sys, w: int)
    requires LinkInv(s) && Enabled(s, SendFrame(w))
    ensures SameMap(s, Apply(cfg, s, SendFrame(w)))
  {
    hide LinkInv, Send, Encode, Concat;
    var c := s.c;
    LinkHasConn(s);
    SendSameLife(c.(released := c.released[1..]), c.released[0], w);
    SendIssuesNothing(c.(released := c.released[1..]), c.released[0], w);
  }

  lemma LinkHasConn(s: Sys)
    requires LinkInv(s)
    ensures s.c.live ==> s.conns != []
  {
    hide Wire, Inbox;
  }

  /** An answer makes a channel stale exactly if it grants a SUB for which there is no entry. */
  lemma ServeArises(cfg: Config, s: Sys, k: nat, reply: Frame, channel: bytes)
    requires LinkInv(s) && Enabled(s, Serve(k, reply)) && !Stale(s, channel)
    ensures Stale(Apply(cfg, s, Serve(k, reply)), channel) <==> Orphans(s, Serve(k, reply), channel)
  {
    hide LinkInv, Encode, TryConsume, FirstField;
    LinkHasConn(s);
    if s.c.live && k == |s.conns| - 1 {
      var ss, x := Last(s).served, Served(TryConsume(s.conns[k].srvIn).frame, reply);
      assert (ss + [x])[..|ss|] == ss;
    }
  }

  /** A new connection starts without stale channels. */
  lemma OpenIsNotStale(cfg: Config, s: Sys, ws: seq<int>, channel: bytes)
    requires Enabled(s, DialOk(ws))
    ensures !Stale(Apply(cfg, s, DialOk(ws)), channel)
  {
    hide OnOpen, Hello, Wired, NoEntry;
    var o := OnOpen(s.c, ws);
    assert Last(Apply(cfg, s, DialOk(ws))) == Open(s.c, o);
  }

  /** Removing a handler: the entry of its channel goes with the last one, and no other. */
  lemma RemoveArises(s: Sys, ch: bytes, handler: nat, channel: bytes)
    requires OneLink(s.c) && !Stale(s, channel)
    ensures var d := RemoveHandler(s.c, ch, handler);
            && d.live == s.c.live
            && (NoEntry(d, channel) <==> NoEntry(s.c, channel) || (ch == channel && LastHandler(s.c, channel, handler)))
            && (s.c.live && LastHandler(s.c, ch, handler) ==>
                  d.released != [] && d.released[|d.released| - 1].origin == UnsubOf(ch))
  {
    hide Issue, UnsubFrame, Delete;
    var c := s.c;
    var found := Find(c.heap, c.subs, ch);
    if found.Some? {
      var entry := At(c.heap, found.value);
      var left := entry.handlers - {handler};
      var d := c.(heap := Update(c.heap, found.value, entry.(handlers := left)));
      SameChannels(c, d, channel);
      if left == {} {
        var gone := d.(subs := Delete(d.heap, d.subs, ch));
        DeletedNoEntry(d, gone, ch, channel);
        assert SubSize(entry.channel, entry.filter) <= MAX_PAYLOAD;
        if c.live && c.state == Ready {
          IssueSameMap(gone, UnsubFrame(ch), UnsubOf(ch));
          IssueReleases(gone, UnsubFrame(ch), UnsubOf(ch));
        }
      }
    }
  }

  lemma SameChannels(c: Client, d: Client, channel: bytes)
    requires d.subs == c.subs && forall e :: At(d.heap, e).channel == At(c.heap, e).channel
    ensures NoEntry(d, channel) <==> NoEntry(c, channel)
  {}

  lemma {:induction false} DeletedNoEntry(c: Client, d: Client, ch: bytes, channel: bytes)
    requires d.heap == c.heap && d.subs == Delete(c.heap, c.subs, ch)
    ensures NoEntry(d, channel) <==> NoEntry(c, channel) || ch == channel
  {
    hide At;
  }

  lemma IssueReleases(c: Client, frame: Frame, origin: Origin)
    requires c.live && c.state == Ready
    ensures var d := Issue(c, frame, origin);
            d.released != [] && d.released[|d.released| - 1].origin == origin
  {
    var r := Request(|c.issued|, frame, origin);
    var x := c.(issued := c.issued + [r]);
    assert EnsureReady(x, r) == x.(released := x.released + [r]);
  }

  lemma ContinueArises(c: Client, channel: bytes)
    requires c.handled < |c.log|
    ensures var d := Continue(c);
            && d.live == c.live
            && (NoEntry(d, channel) <==> NoEntry(c, channel) || FailedLast(c, c.log[c.handled], channel))
  {
    hide Delete;
    ContinueFacts(c);
    var d, x := Continue(c), c.log[c.handled];
    var mid := c.(heap := d.heap);
    SameChannels(c, mid, channel);
    if x.req.origin.SubOf? && !Succeeded(x) {
      var entry := At(c.heap, x.req.origin.entry);
      if entry.handlers - {x.req.origin.handler} == {} {
        DeletedNoEntry(mid, d, entry.channel, channel);
      }
    }
  }

  lemma SubscribeArises(c: Client, ch: bytes, handler: nat, filter: Option<bytes>, channel: bytes)
    requires MapOk(c)
    ensures var d := Subscribe(c, ch, handler, filter);
            d.live == c.live && (NoEntry(d, channel) ==> NoEntry(c, channel))
  {
    hide Issue, SubFrame;
    match Find(c.heap, c.subs, ch)
    case Some(e) =>
      SameChannels(c, Subscribe(c, ch, handler, filter), channel);
    case None =>
      if SubSize(ch, filter) <= MAX_PAYLOAD {
        var n, x := |c.heap|, RawEntry.Entry(ch, filter, {handler}, false);
        var added := c.(heap := c.heap + [x], subs := c.subs + [n]);
        IssueSameMap(added, SubFrame(ch, filter), SubOf(n, handler));
        if NoEntry(added, channel) {
          forall e | e in c.subs ensures At(c.heap, e).channel != channel {
            assert e in added.subs && At(added.heap, e) == At(c.heap, e);
          }
        }
      }
  }

  /**
   How a channel becomes stale: the server grants a SUB for which there is no entry, or the last
   handler goes while the server is subscribed, by an unsubscribe or because the entry's own
   SUB failed. No other step, and no new connection, does it; and after an unsubscribe the
   UNSUB is already released behind.
   */
  lemma StaleArises(cfg: Config, s: Sys, step: Step, channel: bytes)
    requires Inv(cfg, s) && Enabled(s, step) && !Stale(s, channel)
    ensures Stale(Apply(cfg, s, step), channel) <==> Orphans(s, step, channel)
    ensures step.UserUnsubscribe? && Orphans(s, step, channel) ==>
              var q := Apply(cfg, s, step).c.released;
              q != [] && q[|q| - 1].origin == UnsubOf(channel)
  {
    hide SettleInv, LinkInv, Correlated, LedgerInv, SubInv, NoStranded, Budget, DelayInRange, Phases, ServerSet;
    hide NoEntry, LastHandler, FailedLast, Subscribe, RemoveHandler, Continue, FirstField, OnOpen, Hello, Encode;
    LinkHasConn(s);
    match step {
      case Serve(k, reply) => ServeArises(cfg, s, k, reply, channel);
      case DialOk(ws) => OpenIsNotStale(cfg, s, ws, channel);
      case UserSubscribe(ch, h, f) =>
        assert MapOk(s.c) by { MapIsOk(s); }
        SubscribeArises(s.c, ch, h, f, channel);
      case UserUnsubscribe(ch, h) => RemoveArises(s, ch, h, channel);
      case RunContinuation => ContinueArises(s.c, channel);
      case _ =>
        OtherStepsSameMap(cfg, s, step);
        SameMapSameStale(s, Apply(cfg, s, step), channel);
    }
  }

  lemma MapIsOk(s: Sys)
    requires SubInv(s)
    ensures MapOk(s.c)
  {
    hide OriginsOk, OneSubEach, WiredSettled, Agree, UnsubsFirst;
  }

  lemma SameMapSameStale(s: Sys, t: Sys, channel: bytes)
    requires SameMap(s, t)
    ensures Stale(t, channel) ==> Stale(s, channel)
  {
    hide ServerSet;
  }

  // ---------------------------------------------------------------------------
  // Entries that will never be subscribed
  // ---------------------------------------------------------------------------

  /** The entry is not live and the reply to its one SUB has come and been dealt with. */
  ghost predicate Hopeless(c: Client, e: nat) { e < |c.heap| && !c.heap[e].wired && SubSettled(c, e) }

  /** Every entry was asked for once. */
  ghost predicate Asked(c: Client, e: nat) { exists i :: 0 <= i < |c.issued| && IsSub(c.issued[i], e) }

  ghost predicate AllAsked(c: Client) { forall e: nat :: e < |c.heap| ==> Asked(c, e) }

  /** What a step does to one entry and to the requests. */
  predicate EntryKept(c: Client, d: Client, e: nat, ownSub: bool)
  {
    && c.issued <= d.issued && c.handled <= d.handled
    && (e < |c.heap| ==>
          && e < |d.heap| && (d.heap[e].wired ==> c.heap[e].wired || ownSub)
          && d.heap[e].channel == c.heap[e].channel && d.heap[e].filter == c.heap[e].filter)
  }

  /** Only the continuation of its own SUB makes an entry live. */
  lemma WiredOnlyByOwnSub(cfg: Config, s: Sys, step: Step, e: nat)
    requires Inv(cfg, s) && Enabled(s, step)
    ensures EntryKept(s.c, Apply(cfg, s, step).c, e, step.RunContinuation? && IsSub(s.c.log[s.c.handled].req, e))
  {
    hide SettleInv, LinkInv, Correlated, LedgerInv, SubInv, NoStranded, Budget, DelayInRange, Phases;
    hide Issue, Continue, Encode, Hello, OnOpen, Send, SubFrame, UnsubFrame, Delete, Find;
    var c := s.c;
    if !EditsMap(step) {
      match step {
        case Serve(_, _) =>
        case DialOk(ws) => OpenSameMap(c, ws);
        case _ => OtherStepsSameMap(cfg, s, step);
      }
    } else {
      hide Apply;
      EditsKeepUnwired(cfg, s, step, e);
    }
  }

  lemma SendIssuesNothing(c: Client, x: Request, w: int)
    requires w <= |Encode(x.frame)|
    ensures Send(c, x, w).c.issued == c.issued
  {
    hide Encode, EncodeAll, Concat;
    SendSubmits(c, x, w);
  }

  lemma OpenSameMap(c: Client, ws: seq<int>)
    requires HelloResults(Hello(c.token, Wired(c.heap, c.subs)), ws)
    ensures KeepsMap(c, OnOpen(c, ws).c)
  {
    hide SendHello, Hello, Wired, EncodeAll, Concat;
    var up := c.(dialing := false, gen := c.gen + 1, live := true, inbound := [], backlog := []);
    SendHelloSameLife(up, Hello(c.token, Wired(c.heap, c.subs)), ws);
    var rs := SendHelloSubmits(up, Hello(c.token, Wired(c.heap, c.subs)), ws);
  }

  lemma EditsKeepUnwired(cfg: Config, s: Sys, step: Step, e: nat)
    requires Enabled(s, step) && EditsMap(step)
    ensures EntryKept(s.c, Apply(cfg, s, step).c, e, step.RunContinuation? && IsSub(s.c.log[s.c.handled].req, e))
  {
    hide Issue, Continue, SubFrame, UnsubFrame, Delete, Find, FirstField;
    var c := s.c;
    match step
    case UserSubscribe(ch, h, f) => SubscribeKeepsUnwired(c, ch, h, f, e);
    case UserUnsubscribe(ch, h) => RemoveKeepsUnwired(c, ch, h, e);
    case RunContinuation =>
      ContinueFacts(c);
      assert e < |c.heap| ==> At(Continue(c).heap, e) == Continue(c).heap[e] && At(c.heap, e) == c.heap[e];
  }

  lemma SubscribeKeepsUnwired(c: Client, ch: bytes, handler: nat, filter: Option<bytes>, e: nat)
    ensures var d := Subscribe(c, ch, handler, filter);
            && EntryKept(c, d, e, false)
            && (e < |d.heap| ==> e < |c.heap| || Asked(d, e))
  {
    hide Issue, SubFrame, Find;
    if Find(c.heap, c.subs, ch).None? && SubSize(ch, filter) <= MAX_PAYLOAD {
      var n, x := |c.heap|, RawEntry.Entry(ch, filter, {handler}, false);
      var added := c.(heap := c.heap + [x], subs := c.subs + [n]);
      IssueSameMap(added, SubFrame(ch, filter), SubOf(n, handler));
      var d := Subscribe(c, ch, handler, filter);
      assert IsSub(d.issued[|c.issued|], n);
    }
  }

  lemma RemoveKeepsUnwired(c: Client, ch: bytes, handler: nat, e: nat)
    ensures var d := RemoveHandler(c, ch, handler); EntryKept(c, d, e, false) && |d.heap| == |c.heap|
  {
    hide Issue, UnsubFrame, Find, Delete;
    var found := Find(c.heap, c.subs, ch);
    if found.Some? && 4 + |ch| <= MAX_PAYLOAD {
      var entry := At(c.heap, found.value);
      var d := c.(heap := Update(c.heap, found.value, entry.(handlers := entry.handlers - {handler})));
      IssueSameMap(d.(subs := Delete(d.heap, d.subs, ch)), UnsubFrame(ch), UnsubOf(ch));
    }
  }

  /** The one SUB of an entry is settled once: a second continuation for it cannot come. */
  lemma SettledSubIsPast(c: Client, e: nat)
    requires SettleInv(c) && Static(c) && SubSettled(c, e) && c.handled < |c.log|
    ensures !IsSub(c.log[c.handled].req, e)
  {
    hide MapOk, OriginsOk, WiredSettled, TimersMatch, N;
    var i :| 0 <= i < c.handled <= |c.log| && IsSub(c.log[i].req, e);
    if IsSub(c.log[c.handled].req, e) {
      LogIn(c, i);
      LogIn(c, c.handled);
      InIssued(c, c.log[i].req);
      InIssued(c, c.log[c.handled].req);
      SameSub(c, c.log[i].req, c.log[c.handled].req, e);
      TwiceInSeq(Requests(c.log), i, c.handled);
      OnePlace(c, c.log[i].req);
    }
  }

  lemma StepKeepsHopeless(cfg: Config, s: Sys, step: Step, e: nat)
    requires Inv(cfg, s) && Enabled(s, step) && Hopeless(s.c, e)
    ensures Hopeless(Apply(cfg, s, step).c, e)
  {
    hide Apply, Enabled, LifeInv, LinkInv, Correlated, LedgerInv, Static, Conserved, TimersMatch, Agree, UnsubsFirst;
    var c, d := s.c, Apply(cfg, s, step).c;
    WiredOnlyByOwnSub(cfg, s, step, e);
    StepExtendsLog(cfg, s, step);
    StepKeepsInv(cfg, s, step);
    if step.RunContinuation? {
      ContinuationLeft(s);
      SettledSubIsPast(c, e);
    }
    var i :| 0 <= i < c.handled <= |c.log| && IsSub(c.log[i].req, e);
    assert IsSub(d.log[i].req, e);
  }

  lemma ContinuationLeft(s: Sys)
    requires Enabled(s, RunContinuation)
    ensures s.c.handled < |s.c.log|
  {}

  lemma {:induction false} RunKeepsHopeless(cfg: Config, s: Sys, steps: seq<Step>, t: Sys, e: nat)
    requires Inv(cfg, s) && Run(cfg, s, steps, t) && Hopeless(s.c, e)
    ensures Inv(cfg, t) && Hopeless(t.c, e)
    decreases |steps|
  {
    hide Inv, Apply, Enabled, Hopeless;
    if steps != [] {
      StepKeepsHopeless(cfg, s, steps[0], e);
      StepKeepsInv(cfg, s, steps[0]);
      RunKeepsHopeless(cfg, Apply(cfg, s, steps[0]), steps[1..], t, e);
    }
  }

  /** A request for e that waits to be sent or answered. */
  ghost predicate SubOpen(c: Client, e: nat)
  {
    || (exists r :: r in c.waiters && IsSub(r, e))
    || (exists r :: r in c.woken && IsSub(r, e))
    || (exists r :: r in c.released && IsSub(r, e))
    || (exists r :: r in c.pending && IsSub(r, e))
    || (exists i :: c.handled <= i < |c.log| && IsSub(c.log[i].req, e))
  }

  /** A settled request is in no queue and not settled again. */
  lemma SettledIsNowhereElse(c: Client, i: nat)
    requires Conserved(c) && i < |c.log|
    ensures var a := c.log[i].req;
            && a !in c.waiters && a !in c.woken && a !in c.released && a !in c.pending
            && forall k :: i < k < |c.log| ==> c.log[k].req != a
  {
    hide N, Numbered;
    var a := c.log[i].req;
    LogIn(c, i);
    OnePlaceOf(c, a);
    NIn(Requests(c.log), a);
    NIn(c.waiters, a);
    NIn(c.woken, a);
    NIn(c.released, a);
    NIn(c.pending, a);
    forall k | i < k < |c.log| ensures c.log[k].req != a {
      if c.log[k].req == a { TwiceInSeq(Requests(c.log), i, k); }
    }
  }

  lemma OnePlaceOf(c: Client, a: Request)
    requires Conserved(c) && a in Requests(c.log)
    ensures Places(c, a) == 1
  {
    hide Requests;
    InIssued(c, a);
    OnePlace(c, a);
  }

  /** The SUB of a hopeless entry is not on its way again. */
  lemma HopelessIsNotOpen(c: Client, e: nat)
    requires SettleInv(c) && Static(c) && SubSettled(c, e)
    ensures !SubOpen(c, e)
  {
    hide MapOk, OriginsOk, WiredSettled, TimersMatch, N, Requests, OneSubEach, Conserved;
    var i :| 0 <= i < c.handled <= |c.log| && IsSub(c.log[i].req, e);
    var a := c.log[i].req;
    LogIn(c, i);
    SettledIsNowhereElse(c, i);
    forall r | (r in c.waiters || r in c.woken || r in c.released || r in c.pending) && IsSub(r, e) ensures r == a {
      OnlySub(c, a, r, e);
    }
    forall k | c.handled <= k < |c.log| && IsSub(c.log[k].req, e) ensures c.log[k].req == a {
      LogIn(c, k);
      OnlySub(c, a, c.log[k].req, e);
    }
  }

  lemma OnlySub(c: Client, a: Request, r: Request, e: nat)
    requires Conserved(c) && OneSubEach(c) && IsSub(a, e) && IsSub(r, e) && a in Requests(c.log)
    requires r in c.waiters || r in c.woken || r in c.released || r in c.pending || r in Requests(c.log)
    ensures r == a
  {
    hide Requests;
    InIssued(c, a);
    InIssued(c, r);
    SameSub(c, a, r, e);
  }

  /** The SUB of an entry whose reply was not dealt with is still on its way. */
  lemma AskedIsOpenOrSettled(c: Client, e: nat)
    requires Conserved(c) && Asked(c, e) && c.handled <= |c.log|
    ensures SubOpen(c, e) || SubSettled(c, e)
  {
    hide N, Numbered;
    var i :| 0 <= i < |c.issued| && IsSub(c.issued[i], e);
    var a := c.issued[i];
    OnePlace(c, a);
    NIn(c.waiters, a);
    NIn(c.woken, a);
    NIn(c.released, a);
    NIn(c.pending, a);
    NIn(Requests(c.log), a);
    if a in Requests(c.log) {
      var k :| 0 <= k < |c.log| && Requests(c.log)[k] == a;
      assert IsSub(c.log[k].req, e);
    }
  }

  // ---------------------------------------------------------------------------
  // The theorems about entries
  // ---------------------------------------------------------------------------

  lemma StepKeepsAsked(cfg: Config, s: Sys, step: Step)
    requires Inv(cfg, s) && Enabled(s, step) && AllAsked(s.c)
    ensures AllAsked(Apply(cfg, s, step).c)
  {
    hide Inv, Asked;
    var c, d := s.c, Apply(cfg, s, step).c;
    StepHeapGrows(cfg, s, step);
    hide Apply, Enabled;
    forall e: nat | e < |d.heap| ensures Asked(d, e) {
      WiredOnlyByOwnSub(cfg, s, step, e);
      if e < |c.heap| {
        assert Asked(c, e);
        AskedStays(c, d, e);
      }
    }
  }

  lemma AskedStays(c: Client, d: Client, e: nat)
    requires Asked(c, e) && c.issued <= d.issued
    ensures Asked(d, e)
  {
    var i :| 0 <= i < |c.issued| && IsSub(c.issued[i], e);
    assert IsSub(d.issued[i], e);
  }

  /** Entries appear only by subscribe, which asks for them. */
  lemma StepHeapGrows(cfg: Config, s: Sys, step: Step)
    requires Inv(cfg, s) && Enabled(s, step)
    ensures forall e: nat :: |s.c.heap| <= e < |Apply(cfg, s, step).c.heap| ==> Asked(Apply(cfg, s, step).c, e)
  {
    hide SettleInv, LifeInv, LinkInv, Correlated, LedgerInv, SubInv, Asked;
    hide Issue, Continue, Encode, Hello, OnOpen, Send, SubFrame, UnsubFrame, Delete, Find, Subscribe, RemoveHandler;
    var c := s.c;
    match step {
      case Serve(_, _) =>
      case DialOk(ws) => OpenSameMap(c, ws);
      case UserSubscribe(ch, h, f) =>
        forall e: nat | |c.heap| <= e < |Subscribe(c, ch, h, f).heap| ensures Asked(Subscribe(c, ch, h, f), e) {
          SubscribeKeepsUnwired(c, ch, h, f, e);
        }
      case UserUnsubscribe(ch, h) => RemoveKeepsUnwired(c, ch, h, 0);
      case RunContinuation => ContinueFacts(c);
      case _ => OtherStepsSameMap(cfg, s, step);
    }
  }

  lemma {:induction false} RunKeepsAsked(cfg: Config, s: Sys, steps: seq<Step>, t: Sys)
    requires Inv(cfg, s) && Run(cfg, s, steps, t) && AllAsked(s.c)
    ensures Inv(cfg, t) && AllAsked(t.c)
    decreases |steps|
  {
    hide Inv, Apply, Enabled, AllAsked;
    if steps != [] {
      StepKeepsAsked(cfg, s, steps[0]);
      StepKeepsInv(cfg, s, steps[0]);
      RunKeepsAsked(cfg, Apply(cfg, s, steps[0]), steps[1..], t);
    }
  }

  /**
   The exact condition, in every run: an entry that is not live has its SUB still on its way,
   or has been given up, never both.
   */
  lemma {:induction false} UnwiredIsOpenOrHopeless(cfg: Config, steps: seq<Step>, t: Sys, e: nat)
    requires Run(cfg, INIT_SYS, steps, t) && e < |t.c.heap| && !t.c.heap[e].wired
    ensures SubOpen(t.c, e) <==> !Hopeless(t.c, e)
  {
    hide Run, LifeInv, LinkInv, Correlated, LedgerInv, Static, TimersMatch, Conserved, Asked, SubOpen, SubSettled;
    InitInv(cfg);
    RunKeepsAsked(cfg, INIT_SYS, steps, t);
    AskedIsOpenOrSettled(t.c, e);
    if SubSettled(t.c, e) {
      HopelessIsNotOpen(t.c, e);
    }
  }

  /**
   A given-up entry stays so in every later state: it is never live, its SUB is never on its way
   again, and while it is in the map no handshake subscribes its channel.
   */
  lemma {:induction false} HopelessForever(cfg: Config, s: Sys, steps: seq<Step>, t: Sys, e: nat)
    requires Inv(cfg, s) && Run(cfg, s, steps, t) && Hopeless(s.c, e)
    ensures Hopeless(t.c, e) && !SubOpen(t.c, e)
    ensures forall ws :: e in t.c.subs && Enabled(t, DialOk(ws)) ==>
              !LiveAtOpen(Last(Apply(cfg, t, DialOk(ws))), t.c.heap[e].channel)
  {
    hide Run, LifeInv, LinkInv, Correlated, LedgerInv, Static, SettleInv, SubOpen, SubSettled, Agree, UnsubsFirst;
    RunKeepsHopeless(cfg, s, steps, t, e);
    HopelessIsNotOpen(t.c, e);
    forall ws | e in t.c.subs && Enabled(t, DialOk(ws))
      ensures !LiveAtOpen(Last(Apply(cfg, t, DialOk(ws))), t.c.heap[e].channel)
    {
      assert Last(Apply(cfg, t, DialOk(ws))).live == Wired(t.c.heap, t.c.subs) by { hide OnOpen, Hello, Wired; }
      MapIsOk(t);
      NotWired(t.c, e);
    }
  }

  lemma NotWired(c: Client, e: nat)
    requires MapOk(c) && e in c.subs && e < |c.heap| && !c.heap[e].wired
    ensures forall x :: x in Wired(c.heap, c.subs) ==> x.channel != c.heap[e].channel
  {
    forall x | x in Wired(c.heap, c.subs) ensures x.channel != c.heap[e].channel {
      WiredAmong(c.heap, c.subs, x);
      WiredIsWired(c.heap, c.subs, x);
      var k :| 0 <= k < |c.subs| && At(c.heap, c.subs[k]) == x;
      var m :| 0 <= m < |c.subs| && c.subs[m] == e;
      assert k != m;
      assert At(c.heap, c.subs[m]) == c.heap[e];
    }
  }

  lemma {:induction false} WiredIsWired(heap: seq<Entry>, subs: seq<nat>, x: Entry)
    requires x in Wired(heap, subs)
    ensures x.wired
  {
    if !(At(heap, subs[0]).wired && At(heap, subs[0]) == x) {
      WiredIsWired(heap, subs[1..], x);
    }
  }
}
