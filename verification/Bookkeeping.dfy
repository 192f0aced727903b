/**
 What the client remembers between calls: the token it re-authenticates with, the channel
 and filter of every subscription, whether it is live, and its handlers; and that the
 frames it sends for them say just that to a reader of the protocol.
 */
module Bookkeeping {
  import opened Bytes
  import opened Frames
  import opened Commands
  import opened ClientSteps
  import opened System
  import opened Lifecycle
  import opened Settlement
  import opened Correlation
  import opened Ledger
  import opened Subscriptions
  import opened Theorems
  import opened Leftovers

  // ---------------------------------------------------------------------------
  // The token
  // ---------------------------------------------------------------------------

  /** The token of the last auth() among these settled requests that was not refused. */
  function LastGranted(log: seq<ClientSteps.Settlement>): Option<Token>
  {
    if log == [] then None
    else
      var n := |log| - 1;
      match log[n]
      case Settlement(Request(_, _, AuthOf(t)), Resolved(reply)) =>
        if reply.code == 0 || reply.code == 1 || reply.code == 2 then Some(t) else LastGranted(log[..n])
      case _ => LastGranted(log[..n])
  }

  predicate TokenInv(c: Client) { c.handled <= |c.log| && c.token == LastGranted(c.log[..c.handled]) }

  lemma ContinueToken(c: Client)
    requires c.handled < |c.log| && TokenInv(c)
    ensures TokenInv(Continue(c))
  {
    hide Delete, Update, At;
    var n := c.handled;
    assert c.log[..n + 1][..n] == c.log[..n];
    assert Continue(c).log == c.log;
  }

  /** Only the continuation of a settled promise changes the token. */
  lemma OthersKeepToken(cfg: Config, s: Sys, step: Step)
    requires Inv(cfg, s) && Enabled(s, step) && !step.RunContinuation?
    ensures var d := Apply(cfg, s, step).c; d.token == s.c.token && d.handled == s.c.handled
  {
    hide Inv, OnOpen, Hello, Subscribe, RemoveHandler, Encode;
    var c := s.c;
    InvLink(cfg, s);
    match step {
      case Serve(_, _) =>
      case RunContinuation =>
      case DialOk(ws) => OpenSameMap(c, ws);
      case UserSubscribe(ch, h, f) => SubscribeKeepsToken(c, ch, h, f);
      case UserUnsubscribe(ch, h) => RemoveKeepsToken(c, ch, h);
      case _ => OtherStepsSameMap(cfg, s, step);
    }
  }

  lemma InvLink(cfg: Config, s: Sys)
    requires Inv(cfg, s)
    ensures LinkInv(s)
  {
    hide LifeInv, SettleInv, LinkInv, Correlated, LedgerInv, SubInv;
  }

  lemma SubscribeKeepsToken(c: Client, ch: bytes, handler: nat, filter: Option<bytes>)
    ensures var d := Subscribe(c, ch, handler, filter); d.token == c.token && d.handled == c.handled
  {
    hide Issue, SubFrame, Find;
    if Find(c.heap, c.subs, ch).None? && SubSize(ch, filter) <= MAX_PAYLOAD {
      var added := c.(heap := c.heap + [RawEntry.Entry(ch, filter, {handler}, false)], subs := c.subs + [|c.heap|]);
      IssueSameMap(added, SubFrame(ch, filter), SubOf(|c.heap|, handler));
    }
  }

  lemma RemoveKeepsToken(c: Client, ch: bytes, handler: nat)
    ensures var d := RemoveHandler(c, ch, handler); d.token == c.token && d.handled == c.handled
  {
    hide Issue, UnsubFrame, Find, Delete;
    var found := Find(c.heap, c.subs, ch);
    if found.Some? && 4 + |ch| <= MAX_PAYLOAD {
      var entry := At(c.heap, found.value);
      var d := c.(heap := Update(c.heap, found.value, entry.(handlers := entry.handlers - {handler})));
      IssueSameMap(d.(subs := Delete(d.heap, d.subs, ch)), UnsubFrame(ch), UnsubOf(ch));
    }
  }

  lemma StepKeepsToken(cfg: Config, s: Sys, step: Step)
    requires Inv(cfg, s) && Enabled(s, step) && TokenInv(s.c)
    ensures TokenInv(Apply(cfg, s, step).c)
  {
    hide Inv, LastGranted;
    var c, d := s.c, Apply(cfg, s, step).c;
    if step.RunContinuation? {
      ContinueToken(c);
    } else {
      OthersKeepToken(cfg, s, step);
      StepExtendsLog(cfg, s, step);
      hide Apply, Enabled;
      assert d.log[..c.handled] == c.log[..c.handled];
    }
  }

  lemma {:induction false} RunKeepsToken(cfg: Config, s: Sys, steps: seq<Step>, t: Sys)
    requires Inv(cfg, s) && Run(cfg, s, steps, t) && TokenInv(s.c)
    ensures Inv(cfg, t) && TokenInv(t.c)
    decreases |steps|
  {
    hide Inv, Apply, Enabled, TokenInv;
    if steps != [] {
      StepKeepsToken(cfg, s, steps[0]);
      StepKeepsInv(cfg, s, steps[0]);
      RunKeepsToken(cfg, Apply(cfg, s, steps[0]), steps[1..], t);
    }
  }

  /** In every run the token held is that of the last auth() that was not refused, and none before. */
  lemma TokenIsLastGranted(cfg: Config, steps: seq<Step>, t: Sys)
    requires Run(cfg, INIT_SYS, steps, t)
    ensures t.c.handled <= |t.c.log| && t.c.token == LastGranted(t.c.log[..t.c.handled])
  {
    hide Run, Inv;
    InitInv(cfg);
    RunKeepsToken(cfg, INIT_SYS, steps, t);
  }

  // ---------------------------------------------------------------------------
  // What the frames say
  // ---------------------------------------------------------------------------

  lemma SubFrameSays(channel: bytes, filter: Option<bytes>)
    requires SubSize(channel, filter) <= MAX_PAYLOAD
    ensures DecodeCommand(SubFrame(channel, filter)) == Some(Normal(Sub(channel, filter)))
  {
    CommandRoundTrip(Sub(channel, filter));
    hide DecodeCommand;
  }

  lemma UnsubFrameSays(channel: bytes)
    requires 4 + |channel| <= MAX_PAYLOAD
    ensures DecodeCommand(UnsubFrame(channel)) == Some(Unsub(channel))
  {
    CommandRoundTrip(Unsub(channel));
    hide DecodeCommand;
  }

  lemma AuthFrameSays(t: Token)
    ensures DecodeCommand(AuthFrame(t)) == Some(Auth(t))
  {
    CommandRoundTrip(Auth(t));
    hide DecodeCommand;
  }

  /** What a request made for a purpose says to a reader. */
  ghost predicate Says(c: Client, r: Request)
  {
    match r.origin
    case SubOf(e, _) => e < |c.heap| && DecodeCommand(r.frame) == Some(Normal(Sub(c.heap[e].channel, c.heap[e].filter)))
    case UnsubOf(channel) => DecodeCommand(r.frame) == Some(Unsub(channel))
    case AuthOf(t) => DecodeCommand(r.frame) == Some(Auth(t))
    case _ => true
  }

  /** In every run each request of subscribe, unsubscribe and auth carries its channel, filter or token. */
  lemma RequestsSayTheirPurpose(cfg: Config, steps: seq<Step>, t: Sys, i: nat)
    requires Run(cfg, INIT_SYS, steps, t) && i < |t.c.issued|
    ensures Says(t.c, t.c.issued[i])
  {
    hide Run, LifeInv, SettleInv, LinkInv, Correlated, LedgerInv, UnsubsFirst, Agree, MapOk, OneSubEach, WiredSettled;
    hide SubFrame, UnsubFrame, AuthFrame, DecodeCommand;
    Reachable(cfg, steps, t);
    var r := t.c.issued[i];
    assert OriginOk(t.c, r);
    match r.origin
    case SubOf(e, _) => SubFrameSays(t.c.heap[e].channel, t.c.heap[e].filter);
    case UnsubOf(channel) => UnsubFrameSays(channel);
    case AuthOf(token) => AuthFrameSays(token);
    case _ =>
  }

  /** subscribe() on a new channel asks for just that channel and filter, and remembers them. */
  lemma SubscribeAsks(cfg: Config, s: Sys, channel: bytes, handler: nat, filter: Option<bytes>)
    requires Find(s.c.heap, s.c.subs, channel).None? && SubSize(channel, filter) <= MAX_PAYLOAD
    ensures Enabled(s, UserSubscribe(channel, handler, filter))
    ensures var c, d := s.c, Apply(cfg, s, UserSubscribe(channel, handler, filter)).c;
            && d.heap == c.heap + [RawEntry.Entry(channel, filter, {handler}, false)] && d.subs == c.subs + [|c.heap|]
            && |d.issued| == |c.issued| + 1
            && DecodeCommand(d.issued[|c.issued|].frame) == Some(Normal(Sub(channel, filter)))
            && d.issued[|c.issued|].origin == SubOf(|c.heap|, handler)
  {
    hide Issue, SubFrame, Find, DecodeCommand;
    var c := s.c;
    var x := RawEntry.Entry(channel, filter, {handler}, false);
    var added := c.(heap := c.heap + [x], subs := c.subs + [|c.heap|]);
    IssueSameMap(added, SubFrame(channel, filter), SubOf(|c.heap|, handler));
    IssuesOne(added, SubFrame(channel, filter), SubOf(|c.heap|, handler));
    SubFrameSays(channel, filter);
  }

  lemma IssuesOne(c: Client, frame: Frame, origin: Origin)
    ensures Issue(c, frame, origin).issued == c.issued + [Request(|c.issued|, frame, origin)]
  {
    hide EnsureReady;
    var r := Request(|c.issued|, frame, origin);
    EnsureReadySame(c.(issued := c.issued + [r]), r);
  }

  /** An entry keeps its channel and its filter for ever. */
  lemma {:induction false} EntryKeepsFilter(cfg: Config, s: Sys, steps: seq<Step>, t: Sys, e: nat)
    requires Inv(cfg, s) && Run(cfg, s, steps, t) && e < |s.c.heap|
    ensures e < |t.c.heap|
    ensures t.c.heap[e].channel == s.c.heap[e].channel && t.c.heap[e].filter == s.c.heap[e].filter
    decreases |steps|
  {
    hide Inv, Apply, Enabled;
    if steps != [] {
      WiredOnlyByOwnSub(cfg, s, steps[0], e);
      StepKeepsInv(cfg, s, steps[0]);
      EntryKeepsFilter(cfg, Apply(cfg, s, steps[0]), steps[1..], t, e);
    }
  }

  /** What the i-th frame of a handshake is for. */
  function Greeting(token: Option<Token>, live: seq<Entry>, i: nat): Command
    requires i < (if token.Some? then 1 else 0) + |live|
  {
    if token.Some? && i == 0 then Auth(token.value)
    else
      var x := live[if token.Some? then i - 1 else i];
      Normal(Sub(x.channel, x.filter))
  }

  /** On every connection the handshake reads as AUTH of the token held, then SUB of each live entry with its filter. */
  lemma HandshakeSays(cfg: Config, steps: seq<Step>, t: Sys, k: nat, i: nat)
    requires Run(cfg, INIT_SYS, steps, t) && k < |t.conns|
    requires i < (if t.conns[k].token.Some? then 1 else 0) + |t.conns[k].live|
    ensures i < |t.conns[k].sent|
    ensures DecodeCommand(t.conns[k].sent[i].frame) == Some(Greeting(t.conns[k].token, t.conns[k].live, i))
  {
    hide Run, SubFrame, AuthFrame, DecodeCommand;
    HandshakeShape(cfg, steps, t, k);
    var conn := t.conns[k];
    var hello := Hello(conn.token, conn.live);
    assert FramesOf(conn.sent[..|hello|])[i] == conn.sent[i].frame == hello[i];
    if conn.token.Some? && i == 0 {
      AuthFrameSays(conn.token.value);
    } else {
      var x := conn.live[if conn.token.Some? then i - 1 else i];
      SubFrameSays(x.channel, x.filter);
    }
  }

  /** A connection opens with AUTH of a token exactly when that token is the last one granted. */
  lemma OpensWithLastGranted(cfg: Config, steps: seq<Step>, t: Sys, ws: seq<int>, token: Token)
    requires Run(cfg, INIT_SYS, steps, t) && Enabled(t, DialOk(ws))
    ensures var sent := Last(Apply(cfg, t, DialOk(ws))).sent;
            (sent != [] && DecodeCommand(sent[0].frame) == Some(Auth(token))) <==>
            LastGranted(t.c.log[..t.c.handled]) == Some(token)
  {
    hide Run, OnOpen, Hello, Wired, DecodeCommand, LastGranted, HelloResults, Inv;
    TokenIsLastGranted(cfg, steps, t);
    RunSnoc(cfg, INIT_SYS, steps, t, DialOk(ws));
    var u := Apply(cfg, t, DialOk(ws));
    var conn := Last(u);
    assert conn.token == t.c.token;
    hide Apply, Enabled;
    OpensClean(cfg, steps, t, ws);
    HandshakeShape(cfg, steps + [DialOk(ws)], u, |u.conns| - 1);
    if conn.token.Some? || conn.live != [] {
      HandshakeSays(cfg, steps + [DialOk(ws)], u, |u.conns| - 1, 0);
    }
    HelloEmpty(conn);
  }

  /** Every request a connection opens with is part of the handshake. */
  lemma HelloEmpty(conn: Conn)
    requires Shape(conn) && forall i :: 0 <= i < |conn.sent| ==> conn.sent[i].origin == Handshake
    ensures conn.token.None? && conn.live == [] ==> conn.sent == []
  {
    hide SubFrame, AuthFrame;
    assert conn.token.None? && conn.live == [] ==> Hello(conn.token, conn.live) == [];
    assert conn.sent != [] ==> conn.sent[0].origin == Handshake;
  }

  // ---------------------------------------------------------------------------
  // Live entries
  // ---------------------------------------------------------------------------

  /** An entry whose SUB was answered with success is live. */
  ghost predicate WonIsLive(c: Client) { forall e: nat :: e < |c.heap| && SubWon(c, e) ==> c.heap[e].wired }

  /** Live entries stay live, and the continuation of a successful SUB makes its entry live. */
  lemma WiredStays(cfg: Config, s: Sys, step: Step, e: nat)
    requires Inv(cfg, s) && Enabled(s, step) && e < |s.c.heap|
    requires s.c.heap[e].wired ||
             (step.RunContinuation? && IsSub(s.c.log[s.c.handled].req, e) && Succeeded(s.c.log[s.c.handled]))
    ensures var d := Apply(cfg, s, step).c; e < |d.heap| && d.heap[e].wired
  {
    hide Inv, OnOpen, Hello, Encode, Issue, Subscribe, RemoveHandler, Continue;
    var c := s.c;
    InvLink(cfg, s);
    match step {
      case Serve(_, _) =>
      case DialOk(ws) => OpenSameMap(c, ws);
      case UserSubscribe(ch, h, f) => SubscribeKeepsWired(c, ch, h, f, e);
      case UserUnsubscribe(ch, h) => RemoveKeepsWired(c, ch, h, e);
      case RunContinuation => ContinueKeepsWired(c, e);
      case _ => OtherStepsSameMap(cfg, s, step);
    }
  }

  lemma ContinueKeepsWired(c: Client, e: nat)
    requires c.handled < |c.log| && e < |c.heap|
    requires c.heap[e].wired || (IsSub(c.log[c.handled].req, e) && Succeeded(c.log[c.handled]))
    ensures var d := Continue(c); e < |d.heap| && d.heap[e].wired
  {
    hide Delete;
  }

  lemma SubscribeKeepsWired(c: Client, ch: bytes, handler: nat, filter: Option<bytes>, e: nat)
    requires e < |c.heap| && c.heap[e].wired
    ensures var d := Subscribe(c, ch, handler, filter); e < |d.heap| && d.heap[e].wired
  {
    hide Issue, SubFrame, Find;
    if Find(c.heap, c.subs, ch).None? && SubSize(ch, filter) <= MAX_PAYLOAD {
      var added := c.(heap := c.heap + [RawEntry.Entry(ch, filter, {handler}, false)], subs := c.subs + [|c.heap|]);
      IssueSameMap(added, SubFrame(ch, filter), SubOf(|c.heap|, handler));
    }
  }

  lemma RemoveKeepsWired(c: Client, ch: bytes, handler: nat, e: nat)
    requires e < |c.heap| && c.heap[e].wired
    ensures var d := RemoveHandler(c, ch, handler); e < |d.heap| && d.heap[e].wired
  {
    hide Issue, UnsubFrame, Find, Delete;
    var found := Find(c.heap, c.subs, ch);
    if found.Some? && 4 + |ch| <= MAX_PAYLOAD {
      var entry := At(c.heap, found.value);
      var d := c.(heap := Update(c.heap, found.value, entry.(handlers := entry.handlers - {handler})));
      IssueSameMap(d.(subs := Delete(d.heap, d.subs, ch)), UnsubFrame(ch), UnsubOf(ch));
    }
  }

  lemma StepKeepsWon(cfg: Config, s: Sys, step: Step)
    requires Inv(cfg, s) && Enabled(s, step) && WonIsLive(s.c)
    ensures WonIsLive(Apply(cfg, s, step).c)
  {
    hide Inv, SubWon;
    var c, d := s.c, Apply(cfg, s, step).c;
    StepExtendsLog(cfg, s, step);
    StepKeepsInv(cfg, s, step);
    if !step.RunContinuation? { OthersKeepToken(cfg, s, step); } else { ContinueFrame(c); }
    hide Apply;
    forall e: nat | e < |d.heap| && SubWon(d, e) ensures d.heap[e].wired {
      WonBefore(cfg, s, step, d, e);
      if SubWon(c, e) || step.RunContinuation? {
        WiredStays(cfg, s, step, e);
      }
    }
  }

  /** A SUB that is won after a step was won before, or just now. */
  lemma WonBefore(cfg: Config, s: Sys, step: Step, d: Client, e: nat)
    requires Inv(cfg, s) && Enabled(s, step) && d == Apply(cfg, s, step).c && s.c.log <= d.log && SubWon(d, e)
    requires d.handled == s.c.handled + (if step.RunContinuation? then 1 else 0)
    ensures e < |s.c.heap|
    ensures SubWon(s.c, e) ||
            (step.RunContinuation? && IsSub(s.c.log[s.c.handled].req, e) && Succeeded(s.c.log[s.c.handled]))
  {
    hide LifeInv, LinkInv, Correlated, LedgerInv, Apply, UnsubsFirst, Agree, MapOk, OneSubEach, WiredSettled;
    hide SubFrame, TimersMatch, Conserved;
    var c := s.c;
    var i :| 0 <= i < d.handled <= |d.log| && Succeeded(d.log[i]) && IsSub(d.log[i].req, e);
    assert i < |c.log| && c.log[i] == d.log[i];
    LogIn(c, i);
    InIssued(c, c.log[i].req);
    assert OriginOk(c, c.issued[c.log[i].req.id]);
    if i < c.handled { assert Succeeded(c.log[i]) && IsSub(c.log[i].req, e); }
  }

  lemma {:induction false} RunKeepsWon(cfg: Config, s: Sys, steps: seq<Step>, t: Sys)
    requires Inv(cfg, s) && Run(cfg, s, steps, t) && WonIsLive(s.c)
    ensures Inv(cfg, t) && WonIsLive(t.c)
    decreases |steps|
  {
    hide Inv, Apply, Enabled, WonIsLive;
    if steps != [] {
      StepKeepsWon(cfg, s, steps[0]);
      StepKeepsInv(cfg, s, steps[0]);
      RunKeepsWon(cfg, Apply(cfg, s, steps[0]), steps[1..], t);
    }
  }

  /** In every run an entry is live exactly when its own SUB was answered with success and that was dealt with. */
  lemma LiveIffWon(cfg: Config, steps: seq<Step>, t: Sys, e: nat)
    requires Run(cfg, INIT_SYS, steps, t) && e < |t.c.heap|
    ensures t.c.heap[e].wired <==>
            exists i :: 0 <= i < t.c.handled <= |t.c.log| && IsSub(t.c.log[i].req, e) &&
                        t.c.log[i].outcome.Resolved? && t.c.log[i].outcome.reply.code in {0, 1, 2}
  {
    hide Run, LifeInv, SettleInv, LinkInv, Correlated, LedgerInv, UnsubsFirst, Agree, MapOk, OneSubEach, OriginsOk;
    InitInv(cfg);
    RunKeepsWon(cfg, INIT_SYS, steps, t);
    var c := t.c;
    if c.heap[e].wired {
      var i :| 0 <= i < c.handled <= |c.log| && Succeeded(c.log[i]) && IsSub(c.log[i].req, e);
      assert c.log[i].outcome.reply.code in {0, 1, 2};
    }
    if i :| 0 <= i < c.handled <= |c.log| && IsSub(c.log[i].req, e) &&
            c.log[i].outcome.Resolved? && c.log[i].outcome.reply.code in {0, 1, 2}
    {
      assert Succeeded(c.log[i]);
      assert SubWon(c, e);
    }
  }

  // ---------------------------------------------------------------------------
  // Handlers
  // ---------------------------------------------------------------------------

  /** The handlers registered for a channel. */
  function HandlersOf(c: Client, channel: bytes): set<nat>
  {
    match Find(c.heap, c.subs, channel)
    case Some(e) => At(c.heap, e).handlers
    case None => {}
  }

  lemma {:induction false} FindSame(heap: seq<Entry>, other: seq<Entry>, subs: seq<nat>, channel: bytes)
    requires forall e :: e in subs ==> At(other, e).channel == At(heap, e).channel
    ensures Find(other, subs, channel) == Find(heap, subs, channel)
  {
    if subs != [] && At(heap, subs[0]).channel != channel {
      FindSame(heap, other, subs[1..], channel);
    }
  }

  lemma {:induction false} FindAppend(heap: seq<Entry>, subs: seq<nat>, e: nat, channel: bytes)
    ensures Find(heap, subs + [e], channel) ==
            if Find(heap, subs, channel).Some? then Find(heap, subs, channel)
            else if At(heap, e).channel == channel then Some(e) else None
  {
    if subs == [] {
      assert subs + [e] == [e] && [e][1..] == [];
      assert Find(heap, [], channel) == None;
    } else if At(heap, subs[0]).channel != channel {
      FindAppend(heap, subs[1..], e, channel);
      assert (subs + [e])[1..] == subs[1..] + [e];
    }
  }

  lemma {:induction false} FindAfterDelete(heap: seq<Entry>, subs: seq<nat>, gone: bytes, channel: bytes)
    ensures Find(heap, Delete(heap, subs, gone), channel) == if gone == channel then None else Find(heap, subs, channel)
  {
    if subs != [] {
      var rest := Delete(heap, subs[1..], gone);
      FindAfterDelete(heap, subs[1..], gone, channel);
      if At(heap, subs[0]).channel == gone {
        assert Delete(heap, subs, gone) == [] + rest == rest;
      } else {
        assert Delete(heap, subs, gone) == [subs[0]] + rest && ([subs[0]] + rest)[1..] == rest;
      }
    }
  }

  /** Changing the handlers of one entry of the map. */
  lemma EditHandlers(c: Client, d: Client, e: nat, hs: set<nat>, channel: bytes)
    requires e in c.subs && e < |c.heap| && MapOk(c)
    requires d.subs == c.subs && d.heap == Update(c.heap, e, At(c.heap, e).(handlers := hs))
    ensures Find(d.heap, d.subs, channel) == Find(c.heap, c.subs, channel)
    ensures HandlersOf(d, channel) == if At(c.heap, e).channel == channel then hs else HandlersOf(c, channel)
  {
    hide Find;
    FindSame(c.heap, d.heap, c.subs, channel);
    if At(c.heap, e).channel == channel { OnlyEntry(c, e, channel); }
  }

  lemma OnlyEntry(c: Client, e: nat, channel: bytes)
    requires e in c.subs && MapOk(c) && At(c.heap, e).channel == channel
    ensures Find(c.heap, c.subs, channel) == Some(e)
  {
    hide Find;
    var found := Find(c.heap, c.subs, channel);
    var i :| 0 <= i < |c.subs| && c.subs[i] == e;
    if found.Some? {
      var j :| 0 <= j < |c.subs| && c.subs[j] == found.value;
      assert i == j;
    }
  }

  /** subscribe() adds a handler to its channel and to no other, unless its SUB would be too large. */
  lemma SubscribeRegisters(c: Client, channel: bytes, handler: nat, filter: Option<bytes>, x: bytes)
    requires MapOk(c)
    ensures var d := Subscribe(c, channel, handler, filter);
            HandlersOf(d, x) ==
            if x == channel && (Find(c.heap, c.subs, channel).Some? || SubSize(channel, filter) <= MAX_PAYLOAD)
            then HandlersOf(c, x) + {handler} else HandlersOf(c, x)
  {
    hide Issue, SubFrame, Find;
    match Find(c.heap, c.subs, channel)
    case Some(e) =>
      assert e < |c.heap| by { InMap(c, e); }
      EditHandlers(c, Subscribe(c, channel, handler, filter), e, At(c.heap, e).handlers + {handler}, x);
      OnlyEntry(c, e, channel);
    case None =>
      if SubSize(channel, filter) <= MAX_PAYLOAD {
        var e, n := |c.heap|, RawEntry.Entry(channel, filter, {handler}, false);
        var added := c.(heap := c.heap + [n], subs := c.subs + [e]);
        IssueSameMap(added, SubFrame(channel, filter), SubOf(e, handler));
        forall k | k in c.subs ensures At(added.heap, k) == At(c.heap, k) { InMap(c, k); }
        FindSame(c.heap, added.heap, c.subs, x);
        FindAppend(added.heap, c.subs, e, x);
      }
  }

  lemma InMap(c: Client, e: nat)
    requires MapOk(c) && e in c.subs
    ensures e < |c.heap|
  {
    var i :| 0 <= i < |c.subs| && c.subs[i] == e;
  }

  /** Unsubscribing takes one handler from its channel and none from another. */
  lemma RemoveUnregisters(c: Client, channel: bytes, handler: nat, x: bytes)
    requires MapOk(c)
    ensures var d := RemoveHandler(c, channel, handler);
            HandlersOf(d, x) == if x == channel then HandlersOf(c, x) - {handler} else HandlersOf(c, x)
  {
    hide Issue, UnsubFrame, Find, Delete;
    var found := Find(c.heap, c.subs, channel);
    if found.Some? {
      var e := found.value;
      InMap(c, e);
      var left := At(c.heap, e).handlers - {handler};
      var d := c.(heap := Update(c.heap, e, At(c.heap, e).(handlers := left)));
      EditHandlers(c, d, e, left, x);
      OnlyEntry(c, e, channel);
      if left == {} {
        var gone := d.(subs := Delete(d.heap, d.subs, channel));
        FindAfterDelete(d.heap, d.subs, channel, x);
        if c.live && c.state == Ready && 4 + |channel| <= MAX_PAYLOAD {
          IssueSameMap(gone, UnsubFrame(channel), UnsubOf(channel));
        }
      }
    }
  }

  /**
   The continuation of a SUB leaves the handlers alone if it succeeded. If it failed, its handler
   is gone from its own entry; and with the last one the channel goes from the map, also
   when by then it belongs to a newer entry, whose handlers are lost.
   */
  lemma ContinuationHandlers(c: Client, x: bytes)
    requires MapOk(c) && c.handled < |c.log| && c.log[c.handled].req.origin.SubOf?
    requires c.log[c.handled].req.origin.entry < |c.heap|
    ensures var s, d := c.log[c.handled], Continue(c);
            var e, handler := s.req.origin.entry, s.req.origin.handler;
            var entry := c.heap[e];
            HandlersOf(d, x) ==
            if Succeeded(s) || x != entry.channel then HandlersOf(c, x)
            else if e in c.subs then HandlersOf(c, x) - {handler}
            else if entry.handlers - {handler} == {} then {}
            else HandlersOf(c, x)
  {
    hide Find, Delete;
    var s, d := c.log[c.handled], Continue(c);
    var e, handler := s.req.origin.entry, s.req.origin.handler;
    var left := c.heap[e].handlers - {handler};
    assert At(c.heap, e) == c.heap[e];
    if Succeeded(s) {
      SameHandlers(c, d, x);
    } else {
      var mid := c.(heap := Update(c.heap, e, c.heap[e].(handlers := left)));
      if e in c.subs {
        EditHandlers(c, mid, e, left, x);
        OnlyEntry(c, e, c.heap[e].channel);
      } else {
        SameHandlers(c, mid, x);
      }
      FindAfterDelete(mid.heap, c.subs, c.heap[e].channel, x);
    }
  }

  /** The handlers are those of the entries in the map. */
  lemma SameHandlers(c: Client, d: Client, x: bytes)
    requires d.subs == c.subs
    requires forall e :: e in c.subs ==> At(d.heap, e).channel == At(c.heap, e).channel &&
                                         At(d.heap, e).handlers == At(c.heap, e).handlers
    ensures HandlersOf(d, x) == HandlersOf(c, x)
  {
    hide Find;
    FindSame(c.heap, d.heap, c.subs, x);
  }

  /** subscribe() on a known channel, or with a SUB over the cap, asks for nothing. */
  lemma SubscribeQuietly(c: Client, channel: bytes, handler: nat, filter: Option<bytes>)
    requires Find(c.heap, c.subs, channel).Some? || SubSize(channel, filter) > MAX_PAYLOAD
    ensures var d := Subscribe(c, channel, handler, filter);
            d.issued == c.issued && d.subs == c.subs && |d.heap| == |c.heap|
  {
    hide Find;
  }

  /**
   Unsubscribing asks for UNSUB exactly when it takes the last handler of a channel while
   connected; the channel leaves the map with its last handler, connected or not.
   */
  lemma RemoveAsks(c: Client, channel: bytes, handler: nat)
    requires MapOk(c)
    ensures var d := RemoveHandler(c, channel, handler);
            var last := Find(c.heap, c.subs, channel).Some? && HandlersOf(c, channel) <= {handler};
            && (Find(d.heap, d.subs, channel).None? <==> last || Find(c.heap, c.subs, channel).None?)
            && if last && c.live && c.state == Ready && 4 + |channel| <= MAX_PAYLOAD then
                 && |d.issued| == |c.issued| + 1 && d.issued[|c.issued|].origin == UnsubOf(channel)
                 && DecodeCommand(d.issued[|c.issued|].frame) == Some(Unsub(channel))
               else d.issued == c.issued
  {
    hide Issue, UnsubFrame, Find, Delete, DecodeCommand;
    var found := Find(c.heap, c.subs, channel);
    if found.Some? {
      var e := found.value;
      InMap(c, e);
      var left := At(c.heap, e).handlers - {handler};
      var d := c.(heap := Update(c.heap, e, At(c.heap, e).(handlers := left)));
      EditHandlers(c, d, e, left, channel);
      if left == {} {
        var gone := d.(subs := Delete(d.heap, d.subs, channel));
        FindAfterDelete(d.heap, d.subs, channel, channel);
        if c.live && c.state == Ready && 4 + |channel| <= MAX_PAYLOAD {
          IssueSameMap(gone, UnsubFrame(channel), UnsubOf(channel));
          IssuesOne(gone, UnsubFrame(channel), UnsubOf(channel));
          UnsubFrameSays(channel);
        }
      }
    }
  }

  // ---------------------------------------------------------------------------
  // The order of the map
  // ---------------------------------------------------------------------------

  predicate Ascending(es: seq<nat>, n: nat)
  {
    (forall i, j :: 0 <= i < j < |es| ==> es[i] < es[j]) && forall i :: 0 <= i < |es| ==> es[i] < n
  }

  lemma TailAscends(es: seq<nat>, n: nat)
    requires Ascending(es, n) && es != []
    ensures Ascending(es[1..], n) && es[0] < n && forall e :: e in es[1..] ==> es[0] < e
  {
    forall i | 0 <= i < |es| - 1 ensures es[1..][i] == es[i + 1] {}
  }

  lemma ConsAscends(e: nat, es: seq<nat>, n: nat)
    requires Ascending(es, n) && e < n && forall x :: x in es ==> e < x
    ensures Ascending([e] + es, n)
  {
    assert forall i :: 0 <= i < |es| ==> es[i] in es;
  }

  lemma {:induction false} DeleteAscends(heap: seq<Entry>, subs: seq<nat>, channel: bytes, n: nat)
    requires Ascending(subs, n)
    ensures Ascending(Delete(heap, subs, channel), n)
  {
    if subs != [] {
      var rest := Delete(heap, subs[1..], channel);
      TailAscends(subs, n);
      DeleteAscends(heap, subs[1..], channel, n);
      ConsAscends(subs[0], rest, n);
      hide Ascending;
      assert [] + rest == rest;
    }
  }

  lemma SubscribeAscends(c: Client, channel: bytes, handler: nat, filter: Option<bytes>)
    requires Ascending(c.subs, |c.heap|)
    ensures var d := Subscribe(c, channel, handler, filter); Ascending(d.subs, |d.heap|)
  {
    hide Issue, SubFrame, Find;
    if Find(c.heap, c.subs, channel).None? && SubSize(channel, filter) <= MAX_PAYLOAD {
      var e := |c.heap|;
      var added := c.(heap := c.heap + [RawEntry.Entry(channel, filter, {handler}, false)], subs := c.subs + [e]);
      IssueSameMap(added, SubFrame(channel, filter), SubOf(e, handler));
    }
  }

  lemma RemoveAscends(c: Client, channel: bytes, handler: nat)
    requires Ascending(c.subs, |c.heap|)
    ensures var d := RemoveHandler(c, channel, handler); Ascending(d.subs, |d.heap|)
  {
    hide Issue, UnsubFrame, Find, Delete, Ascending;
    var found := Find(c.heap, c.subs, channel);
    if found.Some? {
      var entry := At(c.heap, found.value);
      var d := c.(heap := Update(c.heap, found.value, entry.(handlers := entry.handlers - {handler})));
      DeleteAscends(d.heap, d.subs, channel, |d.heap|);
      if 4 + |channel| <= MAX_PAYLOAD {
        IssueSameMap(d.(subs := Delete(d.heap, d.subs, channel)), UnsubFrame(channel), UnsubOf(channel));
      }
    }
  }

  lemma ContinueAscends(c: Client)
    requires c.handled < |c.log| && Ascending(c.subs, |c.heap|)
    ensures var d := Continue(c); Ascending(d.subs, |d.heap|)
  {
    hide Delete, Ascending;
    match c.log[c.handled].req.origin
    case SubOf(e, handler) =>
      var entry := At(c.heap, e);
      var h := Update(c.heap, e, entry.(handlers := entry.handlers - {handler}));
      DeleteAscends(h, c.subs, entry.channel, |h|);
    case _ =>
  }

  lemma StepAscends(cfg: Config, s: Sys, step: Step)
    requires Inv(cfg, s) && Enabled(s, step) && Ascending(s.c.subs, |s.c.heap|)
    ensures var d := Apply(cfg, s, step).c; Ascending(d.subs, |d.heap|)
  {
    hide Inv, OnOpen, Hello, Encode, Issue, Subscribe, RemoveHandler, Continue, Ascending;
    var c := s.c;
    InvLink(cfg, s);
    match step {
      case Serve(_, _) =>
      case DialOk(ws) => OpenSameMap(c, ws);
      case UserSubscribe(ch, h, f) => SubscribeAscends(c, ch, h, f);
      case UserUnsubscribe(ch, h) => RemoveAscends(c, ch, h);
      case RunContinuation => ContinueAscends(c);
      case _ => OtherStepsSameMap(cfg, s, step);
    }
  }

  lemma {:induction false} RunAscends(cfg: Config, s: Sys, steps: seq<Step>, t: Sys)
    requires Inv(cfg, s) && Run(cfg, s, steps, t) && Ascending(s.c.subs, |s.c.heap|)
    ensures Inv(cfg, t) && Ascending(t.c.subs, |t.c.heap|)
    decreases |steps|
  {
    hide Inv, Apply, Enabled, Ascending;
    if steps != [] {
      StepAscends(cfg, s, steps[0]);
      StepKeepsInv(cfg, s, steps[0]);
      RunAscends(cfg, Apply(cfg, s, steps[0]), steps[1..], t);
    }
  }

  /** The identities of the live entries, in the order of the map. */
  lemma {:induction false} WiredAre(heap: seq<Entry>, subs: seq<nat>) returns (es: seq<nat>)
    requires Ascending(subs, |heap|)
    ensures Ascending(es, |heap|) && |es| == |Wired(heap, subs)|
    ensures forall i :: 0 <= i < |es| ==> es[i] in subs && heap[es[i]].wired && Wired(heap, subs)[i] == heap[es[i]]
    ensures forall e :: e in subs && heap[e].wired ==> e in es
  {
    if subs == [] {
      es := [];
    } else {
      TailAscends(subs, |heap|);
      var rest := WiredAre(heap, subs[1..]);
      ConsAscends(subs[0], rest, |heap|);
      hide Ascending;
      es := if heap[subs[0]].wired then [subs[0]] + rest else rest;
      var q := Wired(heap, subs[1..]);
      assert Wired(heap, subs) == if heap[subs[0]].wired then [heap[subs[0]]] + q else q by { assert [] + q == q; }
      assert subs == [subs[0]] + subs[1..];
    }
  }

  /**
   In every run an open subscribes again exactly the live entries of the map, oldest first:
   they are the ones whose own SUB was granted and that have not been taken from the map.
   */
  lemma OpenResubscribes(cfg: Config, steps: seq<Step>, t: Sys, ws: seq<int>) returns (es: seq<nat>)
    requires Run(cfg, INIT_SYS, steps, t) && Enabled(t, DialOk(ws))
    ensures var live := Last(Apply(cfg, t, DialOk(ws))).live;
            && |es| == |live| && (forall i, j :: 0 <= i < j < |es| ==> es[i] < es[j])
            && (forall i :: 0 <= i < |es| ==> es[i] < |t.c.heap| && live[i] == t.c.heap[es[i]])
            && (forall e: nat :: e in es <==> e in t.c.subs && At(t.c.heap, e).wired)
  {
    hide Run, Inv, OnOpen, HelloResults, Hello, Wired;
    InitInv(cfg);
    RunAscends(cfg, INIT_SYS, steps, t);
    es := WiredAre(t.c.heap, t.c.subs);
    forall e: nat | e in es ensures e in t.c.subs && At(t.c.heap, e).wired {
      var i :| 0 <= i < |es| && es[i] == e;
    }
  }
}
