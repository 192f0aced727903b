/**
 Concrete runs: the client and the server disagree about a channel in the ways the theorems
 of `ServerView` and `Leftovers` leave open.
 */
module Witnesses {
  import opened Bytes
  import opened Frames
  import opened Commands
  import opened ClientSteps
  import opened System
  import opened Subscriptions
  import opened Theorems
  import opened ServerView
  import opened Leftovers

  /** A channel whose SUB frame can be sent. */
  type Channel = ch: bytes | SubSize(ch, None) <= MAX_PAYLOAD witness []

  function FirstRequest(ch: Channel): Request { Request(0, SubFrame(ch, None), SubOf(0, 1)) }

  /** The client after its first call, subscribe(ch, 1). */
  function Asking(ch: Channel): Client
  {
    INIT.(state := Connecting, dialing := true, dials := 1, heap := [RawEntry.Entry(ch, None, {1}, false)], subs := [0],
          issued := [FirstRequest(ch)], waiters := [FirstRequest(ch)])
  }

  lemma FirstSubscribe(cfg: Config, ch: Channel)
    ensures Apply(cfg, INIT_SYS, UserSubscribe(ch, 1, None)) == Sys(Asking(ch), [])
  {
    hide SubFrame, Rejections;
  }

  // ---------------------------------------------------------------------------
  // A second subscriber that is never served
  // ---------------------------------------------------------------------------

  lemma SecondSubscribe(ch: Channel)
    ensures Subscribe(Asking(ch), ch, 2, None) == Asking(ch).(heap := [RawEntry.Entry(ch, None, {1, 2}, false)])
  {
    hide SubFrame, Issue;
    var c := Asking(ch);
    assert Find(c.heap, c.subs, ch) == Some(0);
    assert {1} + {2} == {1, 2};
    assert Update(c.heap, 0, c.heap[0].(handlers := {1, 2})) == [RawEntry.Entry(ch, None, {1, 2}, false)];
  }

  lemma DialFailsLazily(cfg: Config, ch: Channel, c: Client)
    requires !cfg.enabled && c == Asking(ch).(heap := c.heap)
    ensures DialFailed(cfg, c, 0.0) ==
            c.(state := Idle, dialing := false, waiters := [],
               log := [ClientSteps.Settlement(FirstRequest(ch), Rejected)])
  {
    hide SubFrame;
    assert Rejections([]) == [];
    assert Rejections([FirstRequest(ch)]) == [ClientSteps.Settlement(FirstRequest(ch), Rejected)];
  }

  lemma FailedSubKeepsOther(ch: Channel, c: Client)
    requires c.heap == [RawEntry.Entry(ch, None, {1, 2}, false)] && c.handled == 0
    requires c.log == [ClientSteps.Settlement(FirstRequest(ch), Rejected)]
    ensures Continue(c) == c.(handled := 1, heap := [RawEntry.Entry(ch, None, {2}, false)])
  {
    hide SubFrame, Delete;
    assert {1, 2} - {1} == {2};
  }

  /**
   Two handlers on one channel and a SUB that fails: the second subscribe() had already
   succeeded, its entry stays in the map, and by `HopelessForever` no later step subscribes it.
   */
  lemma SharedSubFails(cfg: Config, ch: Channel) returns (t: Sys)
    requires !cfg.enabled
    ensures Run(cfg, INIT_SYS,
                [UserSubscribe(ch, 1, None), UserSubscribe(ch, 2, None), DialFail(0.0), RunContinuation], t)
    ensures t.c.subs == [0] && t.c.heap == [RawEntry.Entry(ch, None, {2}, false)] && Hopeless(t.c, 0)
    ensures t.c.state == Idle
  {
    hide SubFrame, Subscribe, DialFailed, Continue, Hello, Wired, Run;
    var a := Sys(Asking(ch), []);
    var b := Sys(Asking(ch).(heap := [RawEntry.Entry(ch, None, {1, 2}, false)]), []);
    FirstSubscribe(cfg, ch);
    SecondSubscribe(ch);
    DialFailsLazily(cfg, ch, b.c);
    var d := Sys(DialFailed(cfg, b.c, 0.0), []);
    FailedSubKeepsOther(ch, d.c);
    t := Sys(Continue(d.c), []);
    assert IsSub(t.c.log[0].req, 0);
    NoSteps(cfg, t);
    RunCons(cfg, d, RunContinuation, [], t);
    RunCons(cfg, b, DialFail(0.0), [RunContinuation] + [], t);
    RunCons(cfg, a, UserSubscribe(ch, 2, None), [DialFail(0.0)] + ([RunContinuation] + []), t);
    var tail := [UserSubscribe(ch, 2, None)] + ([DialFail(0.0)] + ([RunContinuation] + []));
    RunCons(cfg, INIT_SYS, UserSubscribe(ch, 1, None), tail, t);
    assert [UserSubscribe(ch, 1, None)] + tail ==
           [UserSubscribe(ch, 1, None), UserSubscribe(ch, 2, None), DialFail(0.0), RunContinuation];
  }

  // ---------------------------------------------------------------------------
  // Opening and sending
  // ---------------------------------------------------------------------------

  /** A connection with only the magic on it, opened while these requests were parked. */
  function EmptyConn(parked: seq<Request>): Conn
  {
    Conn(None, [], parked, [], [], MAGIC, [], false, [], [], [])
  }

  /** The client once a dial succeeds with nothing to re-establish. */
  function Opened(c: Client): Client
  {
    c.(dialing := false, gen := c.gen + 1, live := true, inbound := [], backlog := [], state := Ready, attempts := 0,
       dials := 0, unopened := false, waiters := [], woken := c.woken + c.waiters)
  }

  lemma BareOpen(cfg: Config, c: Client)
    requires c.dialing && Quiet(c) && c.token == None && Wired(c.heap, c.subs) == []
    ensures Enabled(Sys(c, []), DialOk([]))
    ensures Apply(cfg, Sys(c, []), DialOk([])) == Sys(Opened(c), [EmptyConn(c.waiters)])
  {
    hide Wired;
    assert Hello(None, []) == [];
    assert MAGIC + [] == MAGIC && Concat([]) == [];
    assert c.issued[|c.issued|..] == [];
  }

  lemma WakesOne(cfg: Config, c: Client, r: Request, conns: seq<Conn>)
    requires c.live && c.state == Ready && c.woken == [r]
    ensures Enabled(Sys(c, conns), Wake)
    ensures Apply(cfg, Sys(c, conns), Wake) == Sys(c.(woken := [], released := c.released + [r]), conns)
  {
    var d := c.(woken := []);
    assert c.woken[1..] == [];
    assert EnsureReady(d, r) == d.(released := d.released + [r]);
  }

  /** A send the socket takes whole. */
  lemma SendsWhole(cfg: Config, c: Client, r: Request, conn: Conn)
    requires c.live && c.released == [r] && c.backlog == [] && conn.unsent == []
    ensures Enabled(Sys(c, [conn]), SendFrame(|Encode(r.frame)|))
    ensures Apply(cfg, Sys(c, [conn]), SendFrame(|Encode(r.frame)|)) ==
            Sys(c.(released := [], pending := c.pending + [r], timers := c.timers[r.id := c.gen]),
                [conn.(sent := conn.sent + [r], c2s := conn.c2s + Encode(r.frame))])
  {
    hide Encode;
    assert c.released[1..] == [] && Concat([]) == [];
  }

  // ---------------------------------------------------------------------------
  // The server's part, on the newest connection
  // ---------------------------------------------------------------------------

  const OK: Frame := RawFrame.Frame(0x00, [])
  const ERR: Frame := RawFrame.Frame(0x03, [])

  /** One command of one request, taken whole, with the magic still before it. */
  function Asked(live: seq<Entry>, parked: seq<Request>, r: Request): Conn
  {
    EmptyConn(parked).(live := live, sent := [r], c2s := MAGIC + Encode(r.frame))
  }

  function Replied(live: seq<Entry>, parked: seq<Request>, r: Request, reply: Frame): Conn
  {
    EmptyConn(parked).(live := live, sent := [r], c2s := [], greeted := true, served := [Served(r.frame, reply)],
                       transit := [reply], s2c := Encode(reply))
  }

  lemma Delivers(cfg: Config, c: Client, pre: seq<Conn>, conn: Conn)
    requires conn.srvIn == []
    ensures Enabled(Sys(c, pre + [conn]), Deliver(|pre|, |conn.c2s|))
    ensures Apply(cfg, Sys(c, pre + [conn]), Deliver(|pre|, |conn.c2s|)) ==
            Sys(c, pre + [conn.(c2s := [], srvIn := conn.c2s)])
  {
    assert conn.c2s[..|conn.c2s|] == conn.c2s && conn.c2s[|conn.c2s|..] == [] && [] + conn.c2s == conn.c2s;
    var next := conn.(c2s := [], srvIn := conn.c2s);
    assert (pre + [conn])[|pre| := next] == pre + [next];
  }

  lemma Greets(cfg: Config, c: Client, pre: seq<Conn>, conn: Conn, rest: bytes)
    requires conn.srvIn == MAGIC + rest && !conn.greeted
    ensures Enabled(Sys(c, pre + [conn]), Greet(|pre|))
    ensures Apply(cfg, Sys(c, pre + [conn]), Greet(|pre|)) == Sys(c, pre + [conn.(greeted := true, srvIn := rest)])
  {
    assert (MAGIC + rest)[2..] == rest;
    var next := conn.(greeted := true, srvIn := rest);
    assert (pre + [conn])[|pre| := next] == pre + [next];
  }

  lemma Serves(cfg: Config, c: Client, pre: seq<Conn>, conn: Conn, f: Frame, reply: Frame)
    requires conn.srvIn == Encode(f) && conn.greeted && !IsEvent(reply)
    ensures Enabled(Sys(c, pre + [conn]), Serve(|pre|, reply))
    ensures Apply(cfg, Sys(c, pre + [conn]), Serve(|pre|, reply)) ==
            Sys(c, pre + [conn.(srvIn := [], served := conn.served + [Served(f, reply)],
                                transit := conn.transit + [reply], s2c := conn.s2c + Encode(reply))])
  {
    hide Encode, TryConsume;
    ConsumeEncoded(f, []);
    assert Encode(f) + [] == Encode(f);
    var next := conn.(srvIn := [], served := conn.served + [Served(f, reply)], transit := conn.transit + [reply],
                      s2c := conn.s2c + Encode(reply));
    assert (pre + [conn])[|pre| := next] == pre + [next];
  }

  /** The server takes the magic and the first command, and answers it. */
  lemma ServedFirst(cfg: Config, c: Client, pre: seq<Conn>, live: seq<Entry>, parked: seq<Request>, r: Request,
                    reply: Frame)
    requires !IsEvent(reply)
    ensures var k := |pre|;
            Run(cfg, Sys(c, pre + [Asked(live, parked, r)]),
                [Deliver(k, |MAGIC| + |Encode(r.frame)|), Greet(k), Serve(k, reply)],
                Sys(c, pre + [Replied(live, parked, r, reply)]))
  {
    hide Encode, TryConsume, Apply, Enabled, Run;
    var k, conn, all := |pre|, Asked(live, parked, r), MAGIC + Encode(r.frame);
    var one, two := conn.(c2s := [], srvIn := all), conn.(c2s := [], srvIn := Encode(r.frame), greeted := true);
    var s := Sys(c, pre + [conn]);
    Delivers(cfg, c, pre, conn);
    Greets(cfg, c, pre, one, Encode(r.frame));
    Serves(cfg, c, pre, two, r.frame, reply);
    assert [] + [Served(r.frame, reply)] == [Served(r.frame, reply)] && [] + [reply] == [reply];
    assert [] + Encode(reply) == Encode(reply);
    NoSteps(cfg, s);
    RunSnoc(cfg, s, [], s, Deliver(k, |all|));
    RunSnoc(cfg, s, [] + [Deliver(k, |all|)], Sys(c, pre + [one]), Greet(k));
    RunSnoc(cfg, s, [] + [Deliver(k, |all|)] + [Greet(k)], Sys(c, pre + [two]), Serve(k, reply));
    assert [] + [Deliver(k, |all|)] + [Greet(k)] + [Serve(k, reply)] == [Deliver(k, |all|), Greet(k), Serve(k, reply)];
  }

  /** Whether the server is subscribed after one command. */
  lemma FirstWordCounts(ch: Channel, reply: Frame)
    ensures ch in ServerSet([Served(SubFrame(ch, None), reply)]) <==> reply.code <= 0x02
  {
    hide SubFrame, FirstField;
    SubFrameChannel(ch, None);
    var ss := [Served(SubFrame(ch, None), reply)];
    assert ss[..0] == [] && ServerSet([]) == {};
  }

  // ---------------------------------------------------------------------------
  // A subscription without an entry
  // ---------------------------------------------------------------------------

  lemma SubscribeAgain(ch: Channel)
    ensures Subscribe(Asking(ch), ch, 1, None) == Asking(ch)
  {
    hide SubFrame, Issue;
    var c := Asking(ch);
    assert Find(c.heap, c.subs, ch) == Some(0);
    assert {1} + {1} == {1};
    assert Update(c.heap, 0, c.heap[0].(handlers := {1})) == c.heap;
  }

  lemma UnsubscribeEarly(ch: Channel)
    ensures RemoveHandler(Asking(ch), ch, 1) == Asking(ch).(heap := [RawEntry.Entry(ch, None, {}, false)], subs := [])
  {
    hide SubFrame, UnsubFrame, Issue;
    var c := Asking(ch);
    assert Find(c.heap, c.subs, ch) == Some(0);
    assert {1} - {1} == {};
    var d := c.(heap := [RawEntry.Entry(ch, None, {}, false)]);
    assert Update(c.heap, 0, c.heap[0].(handlers := {})) == d.heap;
    assert Delete(d.heap, [], ch) == [];
    assert d.subs[1..] == [] && Delete(d.heap, d.subs, ch) == [];
  }

  /** A parked first request is sent once the dial succeeds. */
  lemma ParkedIsSent(cfg: Config, c: Client, r: Request)
    requires c.dialing && Quiet(c) && c.token == None && Wired(c.heap, c.subs) == [] && c.waiters == [r]
    ensures Run(cfg, Sys(c, []), [DialOk([]), Wake, SendFrame(|Encode(r.frame)|)],
                Sys(Opened(c).(woken := [], pending := c.pending + [r], timers := c.timers[r.id := c.gen + 1]),
                    [] + [Asked([], [r], r)]))
  {
    hide Wired, Hello, Encode, Run, Apply, Enabled;
    var n := |Encode(r.frame)|;
    var s, d := Sys(c, []), Opened(c);
    BareOpen(cfg, c);
    WakesOne(cfg, d, r, [EmptyConn([r])]);
    var e := d.(woken := [], released := [r]);
    SendsWhole(cfg, e, r, EmptyConn([r]));
    assert [] + [r] == [r] && [] + [Asked([], [r], r)] == [Asked([], [r], r)];
    NoSteps(cfg, s);
    RunSnoc(cfg, s, [], s, DialOk([]));
    RunSnoc(cfg, s, [] + [DialOk([])], Sys(d, [EmptyConn([r])]), Wake);
    RunSnoc(cfg, s, [] + [DialOk([])] + [Wake], Sys(e, [EmptyConn([r])]), SendFrame(n));
    assert [] + [DialOk([])] + [Wake] + [SendFrame(n)] == [DialOk([]), Wake, SendFrame(n)];
  }

  /**
   subscribe() is called twice with the same handler, and the second call's handle is used while the dial is
   in flight: the parked SUB is sent and granted all the same, and no UNSUB follows.
   */
  lemma UnsubscribedYetSubscribed(cfg: Config, ch: Channel) returns (steps: seq<Step>, t: Sys)
    ensures Run(cfg, INIT_SYS, steps, t)
    ensures [UserSubscribe(ch, 1, None), UserSubscribe(ch, 1, None), UserUnsubscribe(ch, 1), DialOk([])] <= steps
    ensures t.c.live && t.c.subs == [] && t.c.released == [] && Stale(t, ch)
  {
    hide SubFrame, Subscribe, RemoveHandler, Wired, Hello, Encode, Run, ServerSet;
    var r := FirstRequest(ch);
    var a := Sys(Asking(ch), []);
    var gone := Asking(ch).(heap := [RawEntry.Entry(ch, None, {}, false)], subs := []);
    FirstSubscribe(cfg, ch);
    SubscribeAgain(ch);
    UnsubscribeEarly(ch);
    assert Apply(cfg, a, UserSubscribe(ch, 1, None)) == a && Apply(cfg, a, UserUnsubscribe(ch, 1)) == Sys(gone, []);
    assert Enabled(INIT_SYS, UserSubscribe(ch, 1, None)) && Enabled(a, UserSubscribe(ch, 1, None));
    assert Enabled(a, UserUnsubscribe(ch, 1));
    hide Apply, Enabled;
    NothingWired(gone.heap);
    ParkedIsSent(cfg, gone, r);
    var d := Opened(gone).(woken := [], pending := gone.pending + [r], timers := gone.timers[r.id := gone.gen + 1]);
    ServedFirst(cfg, d, [], [], [r], r, OK);
    t := Sys(d, [] + [Replied([], [r], r, OK)]);
    NoSteps(cfg, INIT_SYS);
    RunSnoc(cfg, INIT_SYS, [], INIT_SYS, UserSubscribe(ch, 1, None));
    var first := [] + [UserSubscribe(ch, 1, None)];
    RunSnoc(cfg, INIT_SYS, first, a, UserSubscribe(ch, 1, None));
    first := first + [UserSubscribe(ch, 1, None)];
    RunSnoc(cfg, INIT_SYS, first, a, UserUnsubscribe(ch, 1));
    first := first + [UserUnsubscribe(ch, 1)];
    var sent := [DialOk([]), Wake, SendFrame(|Encode(r.frame)|)];
    RunJoin(cfg, INIT_SYS, first, Sys(gone, []), sent, Sys(d, [] + [Asked([], [r], r)]));
    var served := [Deliver(0, |MAGIC| + |Encode(r.frame)|), Greet(0), Serve(0, OK)];
    RunJoin(cfg, INIT_SYS, first + sent, Sys(d, [] + [Asked([], [r], r)]), served, t);
    steps := (first + sent) + served;
    FirstWordCounts(ch, OK);
  }

  lemma {:induction false} NothingWired(heap: seq<Entry>)
    ensures Wired(heap, []) == []
  {}

  // ---------------------------------------------------------------------------
  // A live subscription
  // ---------------------------------------------------------------------------

  /** The client takes the OK, which settles its one request. */
  lemma TakesOk(cfg: Config, c: Client, conn: Conn, r: Request)
    requires c.live && Quiet(c) && c.inbound == [] && c.pending == [r]
    requires conn.transit == [OK] && conn.s2c == Encode(OK)
    ensures Enabled(Sys(c, [conn]), Data(|Encode(OK)|))
    ensures Apply(cfg, Sys(c, [conn]), Data(|Encode(OK)|)) ==
            Sys(c.(pending := [], timers := c.timers - {r.id},
                   log := c.log + [ClientSteps.Settlement(r, Resolved(OK))]),
                [conn.(transit := [], s2c := [])])
  {
    hide Encode, TryConsume, EncodeAll, Hello, Wired;
    var chunk := Encode(OK);
    assert chunk[..|chunk|] == chunk && chunk[|chunk|..] == [] && [] + chunk == chunk;
    ParsesOne(OK);
    assert HandleAll(c, [OK]) == HandleFrame(c, OK);
    assert c.pending[1..] == [] && [OK][1..] == [];
  }

  lemma {:induction false} ParsesOne(f: Frame)
    ensures ParseAll(Encode(f)) == ([f], [])
  {
    hide Encode, TryConsume, EncodeAll;
    ConsumeEncoded(f, []);
    EmptyHasNoFrame();
    assert Encode(f) + [] == Encode(f);
    assert ParseAll([]) == ([], []);
    assert [f] + [] == [f];
  }

  lemma MarksLive(ch: Channel, c: Client)
    requires c.heap == [RawEntry.Entry(ch, None, {1}, false)] && c.handled == 0
    requires c.log == [ClientSteps.Settlement(FirstRequest(ch), Resolved(OK))]
    ensures Continue(c) == c.(handled := 1, heap := [RawEntry.Entry(ch, None, {1}, true)])
  {
    hide SubFrame, Delete;
  }

  function LiveEntry(ch: Channel): Entry { RawEntry.Entry(ch, None, {1}, true) }

  /** The client with its subscription live and nothing else going on. */
  function LiveClient(ch: Channel): Client
  {
    Opened(Asking(ch)).(woken := [], heap := [LiveEntry(ch)], handled := 1,
                        log := [ClientSteps.Settlement(FirstRequest(ch), Resolved(OK))])
  }

  function LiveConn(ch: Channel): Conn
  {
    Replied([], [FirstRequest(ch)], FirstRequest(ch), OK).(transit := [], s2c := [])
  }

  /** The client that waits for the reply to its SUB. */
  function Waiting(ch: Channel): Client
  {
    Opened(Asking(ch)).(woken := [], pending := [FirstRequest(ch)], timers := map[0 := 1])
  }

  predicate NoHands(steps: seq<Step>)
  {
    forall i :: 0 <= i < |steps| ==> !steps[i].UserRequest? && !steps[i].UserUnsubscribe?
  }

  /** Up to the point where the server has granted the SUB. */
  lemma GrantedRun(cfg: Config, ch: Channel) returns (steps: seq<Step>)
    ensures Run(cfg, INIT_SYS, steps, Sys(Waiting(ch), [Replied([], [FirstRequest(ch)], FirstRequest(ch), OK)]))
    ensures NoHands(steps)
  {
    hide SubFrame, Encode, Run, TryConsume, Hello, Subscribe, Wired;
    var r := FirstRequest(ch);
    var a := Sys(Asking(ch), []);
    FirstSubscribe(cfg, ch);
    assert Enabled(INIT_SYS, UserSubscribe(ch, 1, None));
    hide Apply, Enabled;
    NoneLive(ch);
    ParkedIsSent(cfg, a.c, r);
    var d := Waiting(ch);
    assert a.c.pending + [r] == [r] && a.c.timers[r.id := a.c.gen + 1] == map[0 := 1];
    ServedFirst(cfg, d, [], [], [r], r, OK);
    assert [] + [Replied([], [r], r, OK)] == [Replied([], [r], r, OK)];
    NoSteps(cfg, INIT_SYS);
    RunSnoc(cfg, INIT_SYS, [], INIT_SYS, UserSubscribe(ch, 1, None));
    var first := [] + [UserSubscribe(ch, 1, None)];
    var sent := [DialOk([]), Wake, SendFrame(|Encode(r.frame)|)];
    RunJoin(cfg, INIT_SYS, first, a, sent, Sys(d, [] + [Asked([], [r], r)]));
    var served := [Deliver(0, |MAGIC| + |Encode(r.frame)|), Greet(0), Serve(0, OK)];
    RunJoin(cfg, INIT_SYS, first + sent, Sys(d, [] + [Asked([], [r], r)]), served, Sys(d, [Replied([], [r], r, OK)]));
    steps := (first + sent) + served;
  }

  /** Up to the point where the subscription is live and all is quiet. */
  lemma SubscribedRun(cfg: Config, ch: Channel) returns (steps: seq<Step>)
    ensures Run(cfg, INIT_SYS, steps, Sys(LiveClient(ch), [LiveConn(ch)])) && NoHands(steps)
  {
    hide SubFrame, Encode, Run, Continue, OnData, TryConsume, Hello, Wired;
    steps := GrantedRun(cfg, ch);
    var r, d := FirstRequest(ch), Waiting(ch);
    var f := Sys(d, [Replied([], [r], r, OK)]);
    TakesOk(cfg, d, f.conns[0], r);
    var g := Apply(cfg, f, Data(|Encode(OK)|));
    MarksLive(ch, g.c);
    assert Enabled(g, RunContinuation) && Apply(cfg, g, RunContinuation) == Sys(LiveClient(ch), [LiveConn(ch)]);
    hide Apply, Enabled;
    RunSnoc(cfg, INIT_SYS, steps, f, Data(|Encode(OK)|));
    steps := steps + [Data(|Encode(OK)|)];
    RunSnoc(cfg, INIT_SYS, steps, g, RunContinuation);
    steps := steps + [RunContinuation];
  }

  lemma {:induction false} NoneLive(ch: Channel)
    ensures Wired(Asking(ch).heap, Asking(ch).subs) == []
  {
    NothingWired(Asking(ch).heap);
    assert Asking(ch).subs[1..] == [];
  }

  // ---------------------------------------------------------------------------
  // An entry unsubscribed by hand
  // ---------------------------------------------------------------------------

  lemma ReleasesDirect(cfg: Config, s: Sys, frame: Frame)
    requires s.c.live && s.c.state == Ready && s.c.released == []
    ensures Enabled(s, UserRequest(frame))
    ensures var x := Request(|s.c.issued|, frame, Direct);
            Apply(cfg, s, UserRequest(frame)) == s.(c := s.c.(issued := s.c.issued + [x], released := [x]))
  {
    var x := Request(|s.c.issued|, frame, Direct);
    var c := s.c.(issued := s.c.issued + [x]);
    assert EnsureReady(c, x) == c.(released := c.released + [x]);
  }

  lemma HandWordCounts(ch: Channel, ss: seq<Served>)
    ensures ch !in ServerSet(ss + [Served(UnsubFrame(ch), OK)])
  {
    hide UnsubFrame, FirstField;
    UnsubFrameChannel(ch);
    assert (ss + [Served(UnsubFrame(ch), OK)])[..|ss|] == ss;
  }

  /** send("UNSUB ch") by hand: the server drops the channel while the client keeps its entry as live. */
  lemma UnsubscribedByHand(cfg: Config, ch: Channel) returns (steps: seq<Step>, t: Sys)
    ensures Run(cfg, INIT_SYS, steps, t) && UserRequest(UnsubFrame(ch)) in steps
    ensures t.c.live && t.c.subs == [0] && At(t.c.heap, 0) == LiveEntry(ch)
    ensures t.conns != [] && ch !in ServerSet(Last(t).served)
  {
    hide SubFrame, UnsubFrame, Encode, Run, ServerSet, TryConsume, Hello, Wired;
    steps := SubscribedRun(cfg, ch);
    var s := Sys(LiveClient(ch), [LiveConn(ch)]);
    var x := Request(1, UnsubFrame(ch), Direct);
    var n := |Encode(x.frame)|;
    ReleasesDirect(cfg, s, UnsubFrame(ch));
    var u := Apply(cfg, s, UserRequest(UnsubFrame(ch)));
    SendsWhole(cfg, u.c, x, LiveConn(ch));
    var v := Apply(cfg, u, SendFrame(n));
    var conn := v.conns[0];
    assert [] + Encode(x.frame) == Encode(x.frame) && v.conns == [] + [conn];
    Delivers(cfg, v.c, [], conn);
    var got := conn.(c2s := [], srvIn := Encode(x.frame));
    Serves(cfg, v.c, [], got, x.frame, OK);
    t := Apply(cfg, Sys(v.c, [] + [got]), Serve(0, OK));
    HandWordCounts(ch, conn.served);
    hide Apply, Enabled;
    RunSnoc(cfg, INIT_SYS, steps, s, UserRequest(UnsubFrame(ch)));
    steps := steps + [UserRequest(UnsubFrame(ch))];
    RunSnoc(cfg, INIT_SYS, steps, u, SendFrame(n));
    steps := steps + [SendFrame(n)];
    RunSnoc(cfg, INIT_SYS, steps, v, Deliver(0, n));
    steps := steps + [Deliver(0, n)];
    RunSnoc(cfg, INIT_SYS, steps, Sys(v.c, [] + [got]), Serve(0, OK));
    steps := steps + [Serve(0, OK)];
  }

  // ---------------------------------------------------------------------------
  // A resubscribe the server refuses
  // ---------------------------------------------------------------------------

  /** The client after its connection was lost and the reconnect timer fired. */
  function Redialing(ch: Channel): Client
  {
    LiveClient(ch).(live := false, state := Reconnecting, attempts := 1, dialing := true, dials := 1)
  }

  lemma LosesConnection(cfg: Config, ch: Channel, conns: seq<Conn>)
    requires cfg.enabled && cfg.maxAttempts == None
    ensures var s := Sys(LiveClient(ch), conns);
            && Enabled(s, SocketClosed(0.0))
            && var u := Apply(cfg, s, SocketClosed(0.0));
               Enabled(u, ReconnectTimer) && Apply(cfg, u, ReconnectTimer) == Sys(Redialing(ch), conns)
  {
    hide SubFrame, Backoff, Ids, Hello, Wired;
    var c := LiveClient(ch);
    assert Rejections([]) == [] && c.log + [] == c.log && c.timers - Ids([]) == c.timers;
    assert HandleDisconnect(cfg, c, 0.0) ==
           c.(live := false, state := Reconnecting, attempts := 1, timer := Some(Delay(Backoff(cfg, 0), 0.0)));
  }

  function Resub(ch: Channel): Request { Request(1, SubFrame(ch, None), Handshake) }

  lemma Resubscribes(cfg: Config, ch: Channel, conns: seq<Conn>)
    ensures var s, ws := Sys(Redialing(ch), conns), [|Encode(SubFrame(ch, None))|];
            && Enabled(s, DialOk(ws))
            && Apply(cfg, s, DialOk(ws)) ==
               Sys(Opened(Redialing(ch)).(issued := [FirstRequest(ch), Resub(ch)], pending := [Resub(ch)],
                                          timers := map[1 := 2]),
                   conns + [Asked([LiveEntry(ch)], [], Resub(ch))])
  {
    hide SubFrame, Encode;
    var c, f := Redialing(ch), SubFrame(ch, None);
    var n := |Encode(f)|;
    assert c.subs[1..] == [] && Wired(c.heap, []) == [] && Wired(c.heap, c.subs) == [LiveEntry(ch)];
    assert Hello(None, [LiveEntry(ch)]) == [f];
    var up := c.(dialing := false, gen := c.gen + 1, live := true, inbound := [], backlog := []);
    ResubSent(ch, up);
    assert c.timers == map[];
  }

  lemma {:induction false} ResubSent(ch: Channel, up: Client)
    requires up.backlog == [] && up.pending == [] && up.timers == map[] && up.gen == 2
    requires up.issued == [FirstRequest(ch)]
    ensures var f := SubFrame(ch, None);
            && HelloResults([f], [|Encode(f)|])
            && SendHello(up, [f], [|Encode(f)|]) ==
               Out(up.(issued := [FirstRequest(ch), Resub(ch)], pending := [Resub(ch)], timers := map[1 := 2]),
                   Encode(f))
  {
    hide SubFrame, Encode;
    var f := SubFrame(ch, None);
    var d := up.(issued := up.issued + [Resub(ch)]);
    assert Send(d, Resub(ch), |Encode(f)|) == Out(d.(pending := [Resub(ch)], timers := map[1 := 2]), Encode(f));
    assert [f][1..] == [] && [|Encode(f)|][1..] == [];
    assert Encode(f) + [] == Encode(f);
  }

  /**
   After a reconnect the server refuses the SUB of the handshake. The client does not look at
   that reply: its entry stays marked live, nothing was sent by hand, and the server is not
   subscribed.
   */
  lemma ResubscribeRefused(cfg: Config, ch: Channel) returns (steps: seq<Step>, t: Sys)
    requires cfg.enabled && cfg.maxAttempts == None
    ensures Run(cfg, INIT_SYS, steps, t)
    ensures NoHands(steps)
    ensures t.c.live && t.c.subs == [0] && At(t.c.heap, 0) == LiveEntry(ch)
    ensures t.conns != [] && Settled(Last(t), ch) && ch !in ServerSet(Last(t).served)
  {
    hide SubFrame, Encode, Run, ServerSet, Apply, Enabled;
    steps := SubscribedRun(cfg, ch);
    var pre := [LiveConn(ch)];
    var s := Sys(LiveClient(ch), pre);
    var ws := [|Encode(SubFrame(ch, None))|];
    LosesConnection(cfg, ch, pre);
    Resubscribes(cfg, ch, pre);
    var u, v := Apply(cfg, s, SocketClosed(0.0)), Sys(Redialing(ch), pre);
    var y := Apply(cfg, v, DialOk(ws));
    ServedFirst(cfg, y.c, pre, [LiveEntry(ch)], [], Resub(ch), ERR);
    t := Sys(y.c, pre + [Replied([LiveEntry(ch)], [], Resub(ch), ERR)]);
    RunSnoc(cfg, INIT_SYS, steps, s, SocketClosed(0.0));
    steps := steps + [SocketClosed(0.0)];
    RunSnoc(cfg, INIT_SYS, steps, u, ReconnectTimer);
    steps := steps + [ReconnectTimer];
    RunSnoc(cfg, INIT_SYS, steps, v, DialOk(ws));
    steps := steps + [DialOk(ws)];
    var served := [Deliver(1, |MAGIC| + |Encode(SubFrame(ch, None))|), Greet(1), Serve(1, ERR)];
    RunJoin(cfg, INIT_SYS, steps, y, served, t);
    steps := steps + served;
    FirstWordCounts(ch, ERR);
  }
}
