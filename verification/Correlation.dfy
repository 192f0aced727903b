/**
 End-to-end correlation. WormWire has no request ids, so that a reply reaches its own
 request is an invariant over the client's queue, both byte channels and the server:
 the pending queue lists, in order, the requests whose replies are in transit, then
 those awaiting a reply, then those still unsent.
 */
module Correlation {
  import opened Bytes
  import opened Frames
  import opened Backlog
  import opened ClientSteps
  import opened System
  import opened Lifecycle

  function FramesOf(rs: seq<Request>): (fs: seq<Frame>)
    ensures |fs| == |rs|
  {
    seq(|rs|, i requires 0 <= i < |rs| => rs[i].frame)
  }

  function RepliesOf(ss: seq<Served>): (fs: seq<Frame>)
    ensures |fs| == |ss|
  {
    seq(|ss|, i requires 0 <= i < |ss| => ss[i].reply)
  }

  /** Everything submitted that the server has not taken yet. */
  function Outbound(conn: Conn): bytes { conn.srvIn + (conn.c2s + conn.unsent) }

  /** The server has answered a prefix of what was submitted; the rest is on its way, whole and in order. */
  predicate Wire(conn: Conn)
  {
    && |conn.served| <= |conn.sent|
    && (forall i :: 0 <= i < |conn.served| ==> conn.served[i].cmd == conn.sent[i].frame)
    && (conn.greeted ==> Outbound(conn) == EncodeAll(FramesOf(conn.sent[|conn.served|..])))
    && (!conn.greeted ==> conn.served == [] && Outbound(conn) == MAGIC + EncodeAll(FramesOf(conn.sent)))
    && (!conn.greeted ==> |conn.srvIn| + |conn.c2s| >= |MAGIC|)
  }

  /** How the client's queues line up with its live connection. */
  predicate Inbox(c: Client, conn: Conn)
  {
    && |c.pending| <= |conn.sent|
    && c.pending == conn.sent[|conn.sent| - |c.pending|..]
    && |conn.sent| - |c.pending| <= |conn.served|
    && Replies(conn.transit) == RepliesOf(conn.served[|conn.sent| - |c.pending|..])
    && c.inbound + conn.s2c == EncodeAll(conn.transit)
    && conn.unsent == Concat(c.backlog)
  }

  predicate LinkInv(s: Sys)
  {
    && (forall k :: 0 <= k < |s.conns| ==> Wire(s.conns[k]))
    && (s.c.live ==> s.conns != [] && Inbox(s.c, Last(s)))
  }

  /** Entry e of the log was answered as the j-th command of connection k. */
  predicate AnsweredAt(conns: seq<Conn>, k: nat, j: nat, e: Settlement)
  {
    && k < |conns| && j < |conns[k].sent| && j < |conns[k].served|
    && e.outcome.Resolved?
    && conns[k].sent[j] == e.req
    && conns[k].served[j] == Served(e.req.frame, e.outcome.reply)
  }

  ghost predicate Answered(conns: seq<Conn>, e: Settlement) { exists k: nat, j: nat :: AnsweredAt(conns, k, j, e) }

  /** Each resolved request holds the server's reply to its own frame. */
  ghost predicate Correlated(s: Sys)
  {
    forall i :: 0 <= i < |s.c.log| && s.c.log[i].outcome.Resolved? ==> Answered(s.conns, s.c.log[i])
  }

  // ---------------------------------------------------------------------------
  // The outgoing stream
  // ---------------------------------------------------------------------------

  lemma FramesOfAppend(a: seq<Request>, b: seq<Request>)
    ensures FramesOf(a + b) == FramesOf(a) + FramesOf(b)
  {}

  lemma Regroup(a: bytes, b: bytes, wrote: bytes, left: bytes, unsent: bytes, tail: bytes)
    requires wrote + left == unsent + tail
    ensures a + ((b + wrote) + left) == (a + (b + unsent)) + tail
  {
    assert (b + wrote) + left == b + (wrote + left);
    assert b + (unsent + tail) == (b + unsent) + tail;
  }

  lemma SliceSlice<T>(s: seq<T>, r: nat, m: nat)
    requires r + m <= |s|
    ensures s[r..][m..] == s[r + m..]
  {}

  lemma RepliesOfDrop(ss: seq<Served>, r: nat, m: nat)
    requires r + m <= |ss|
    ensures RepliesOf(ss[r..])[m..] == RepliesOf(ss[r + m..])
  {
    SliceSlice(ss, r, m);
  }

  lemma SubmitKeepsWire(conn: Conn, rs: seq<Request>, o: Out)
    requires Wire(conn)
    requires o.wrote + Concat(o.c.backlog) == conn.unsent + EncodeAll(FramesOf(rs))
    ensures Wire(Submit(conn, rs, o))
  {
    var t := Submit(conn, rs, o);
    var n := |conn.served|;
    var tail := EncodeAll(FramesOf(rs));
    assert t.sent[n..] == conn.sent[n..] + rs;
    FramesOfAppend(conn.sent[n..], rs);
    FramesOfAppend(conn.sent, rs);
    EncodeAllAppend(FramesOf(conn.sent[n..]), FramesOf(rs));
    EncodeAllAppend(FramesOf(conn.sent), FramesOf(rs));
    hide EncodeAll, FramesOf, Concat;
    Regroup(conn.srvIn, conn.c2s, o.wrote, Concat(o.c.backlog), conn.unsent, tail);
    if !conn.greeted {
      assert MAGIC + EncodeAll(FramesOf(conn.sent)) + tail == MAGIC + (EncodeAll(FramesOf(conn.sent)) + tail);
    }
  }

  lemma DeliverKeepsWire(conn: Conn, n: nat)
    requires Wire(conn) && n <= |conn.c2s|
    ensures Wire(conn.(c2s := conn.c2s[n..], srvIn := conn.srvIn + conn.c2s[..n]))
  {
    hide EncodeAll, FramesOf;
    var t := conn.(c2s := conn.c2s[n..], srvIn := conn.srvIn + conn.c2s[..n]);
    assert conn.c2s == conn.c2s[..n] + conn.c2s[n..];
    assert Outbound(t) == Outbound(conn);
  }

  lemma GreetKeepsWire(conn: Conn)
    requires Wire(conn) && !conn.greeted && |conn.srvIn| >= 2
    ensures Wire(conn.(greeted := true, srvIn := conn.srvIn[2..]))
    ensures conn.srvIn[..2] == MAGIC
  {
    hide EncodeAll, FramesOf;
    var t := conn.(greeted := true, srvIn := conn.srvIn[2..]);
    assert Outbound(conn) == conn.srvIn[..2] + Outbound(t);
    assert Outbound(conn)[..2] == MAGIC;
    assert Outbound(t) == Outbound(conn)[2..] == EncodeAll(FramesOf(conn.sent));
    assert conn.sent[|conn.served|..] == conn.sent;
  }

  /** The frame the server parses next is the next frame submitted. */
  lemma ServeTakesNext(conn: Conn)
    requires Wire(conn) && conn.greeted && TryConsume(conn.srvIn).Got?
    ensures |conn.served| < |conn.sent|
    ensures TryConsume(conn.srvIn).frame == conn.sent[|conn.served|].frame
    ensures TryConsume(conn.srvIn).rest + (conn.c2s + conn.unsent) ==
            EncodeAll(FramesOf(conn.sent[|conn.served| + 1..]))
  {
    hide TryConsume, Encode;
    var n := |conn.served|;
    var fs := FramesOf(conn.sent[n..]);
    ConsumeAppend(conn.srvIn, conn.c2s + conn.unsent);
    if fs == [] {
      EmptyHasNoFrame();
    } else {
      ConsumeEncoded(fs[0], EncodeAll(fs[1..]));
      assert conn.sent[n..][1..] == conn.sent[n + 1..];
      assert fs[1..] == FramesOf(conn.sent[n + 1..]);
    }
  }

  lemma ServeKeepsWire(conn: Conn, reply: Frame)
    requires Wire(conn) && conn.greeted && TryConsume(conn.srvIn).Got?
    ensures var p := TryConsume(conn.srvIn);
            Wire(conn.(srvIn := p.rest, served := conn.served + [Served(p.frame, reply)],
                       transit := conn.transit + [reply], s2c := conn.s2c + Encode(reply)))
  {
    hide TryConsume, Encode, EncodeAll, FramesOf;
    ServeTakesNext(conn);
  }

  // ---------------------------------------------------------------------------
  // The incoming stream
  // ---------------------------------------------------------------------------

  lemma EmitKeepsInbox(c: Client, conn: Conn, f: Frame)
    requires Inbox(c, conn) && IsEvent(f)
    ensures Inbox(c, conn.(transit := conn.transit + [f], s2c := conn.s2c + Encode(f)))
  {
    StreamGrows(c.inbound, conn.s2c, conn.transit, f);
    RepliesAppend(conn.transit, [f]);
    hide Encode, EncodeAll, Concat, RepliesOf;
    assert Replies([f]) == [];
    assert Replies(conn.transit) + [] == Replies(conn.transit);
  }

  lemma {:induction false} StreamGrows(inbound: bytes, s2c: bytes, transit: seq<Frame>, f: Frame)
    requires inbound + s2c == EncodeAll(transit)
    ensures inbound + (s2c + Encode(f)) == EncodeAll(transit + [f])
  {
    hide Encode;
    EncodeAllAppend(transit, [f]);
    assert EncodeAll([f]) == Encode(f) + EncodeAll([]) == Encode(f);
    assert inbound + (s2c + Encode(f)) == (inbound + s2c) + Encode(f);
  }

  lemma ServeKeepsInbox(c: Client, conn: Conn, cmd: Frame, reply: Frame, rest: bytes)
    requires Inbox(c, conn) && !IsEvent(reply)
    ensures Inbox(c, conn.(srvIn := rest, served := conn.served + [Served(cmd, reply)],
                           transit := conn.transit + [reply], s2c := conn.s2c + Encode(reply)))
  {
    StreamGrows(c.inbound, conn.s2c, conn.transit, reply);
    RepliesAppend(conn.transit, [reply]);
    hide Encode, EncodeAll, Concat;
    assert Replies([reply]) == [reply] + Replies([]) == [reply];
    hide Replies;
    var r := |conn.sent| - |c.pending|;
    var more := conn.served + [Served(cmd, reply)];
    assert more[r..] == conn.served[r..] + [Served(cmd, reply)];
    assert RepliesOf(more[r..]) == RepliesOf(conn.served[r..]) + [reply];
  }

  /** The settlements that pair each request with the reply in its position. */
  function Answers(rs: seq<Request>, fs: seq<Frame>): seq<Settlement>
    requires |fs| <= |rs|
  {
    seq(|fs|, i requires 0 <= i < |fs| => Settlement(rs[i], Resolved(fs[i])))
  }

  lemma AnswersCons(rs: seq<Request>, f: Frame, fs: seq<Frame>)
    requires |fs| + 1 <= |rs|
    ensures Answers(rs, [f] + fs) == [Settlement(rs[0], Resolved(f))] + Answers(rs[1..], fs)
  {}

  /** The consume loop settles the oldest requests with the non-event frames, in order. */
  lemma {:induction false} HandleAllAnswers(c: Client, fs: seq<Frame>)
    requires |Replies(fs)| <= |c.pending|
    ensures HandleAll(c, fs).pending == c.pending[|Replies(fs)|..]
    ensures HandleAll(c, fs).log == c.log + Answers(c.pending, Replies(fs))
    decreases |fs|
  {
    if fs != [] {
      var d := HandleFrame(c, fs[0]);
      var rest := Replies(fs[1..]);
      if IsEvent(fs[0]) {
        assert Replies(fs) == rest;
        HandleAllAnswers(d, fs[1..]);
      } else {
        assert Replies(fs) == [fs[0]] + rest;
        HandleAllAnswers(d, fs[1..]);
        AnswersCons(c.pending, fs[0], rest);
        SliceSlice(c.pending, 1, |rest|);
        var x := Settlement(c.pending[0], Resolved(fs[0]));
        AppendAssoc(c.log, [x], Answers(c.pending[1..], rest));
        hide Answers, Replies;
      }
    }
  }

  /** What one chunk of the incoming stream does to the client and its connection. */
  lemma ChunkConsumed(c: Client, conn: Conn, n: nat)
    requires Inbox(c, conn) && n <= |conn.s2c|
    ensures var (fs, rest) := ParseAll(c.inbound + conn.s2c[..n]);
            && fs <= conn.transit
            && rest + conn.s2c[n..] == EncodeAll(conn.transit[|fs|..])
            && |Replies(fs)| <= |conn.served| - (|conn.sent| - |c.pending|)
            && Replies(fs) == RepliesOf(conn.served[|conn.sent| - |c.pending|..])[..|Replies(fs)|]
            && Replies(conn.transit[|fs|..]) == RepliesOf(conn.served[|conn.sent| - |c.pending|..])[|Replies(fs)|..]
  {
    hide ParseAll, EncodeAll, RepliesOf, Replies, Concat;
    var chunk := conn.s2c[..n];
    assert (c.inbound + chunk) + conn.s2c[n..] == c.inbound + conn.s2c;
    ParseCutStream(c.inbound + chunk, conn.s2c[n..], conn.transit);
    var fs := ParseAll(c.inbound + chunk).0;
    assert conn.transit == fs + conn.transit[|fs|..];
    RepliesAppend(fs, conn.transit[|fs|..]);
  }

  lemma DataAnswers(c: Client, conn: Conn, n: nat)
    requires Inbox(c, conn) && Wire(conn) && n <= |conn.s2c|
    ensures var (fs, rest) := ParseAll(c.inbound + conn.s2c[..n]);
            var d := OnData(c, conn.s2c[..n]);
            && |Replies(fs)| <= |c.pending|
            && d.pending == c.pending[|Replies(fs)|..]
            && d.log == c.log + Answers(c.pending, Replies(fs))
            && d.inbound == rest && d.backlog == c.backlog
  {
    hide ParseAll, EncodeAll, Replies, Concat, HandleAll, Answers, RepliesOf;
    var (fs, rest) := ParseAll(c.inbound + conn.s2c[..n]);
    ChunkConsumed(c, conn, n);
    HandleAllAnswers(c.(inbound := rest), fs);
    HandleAllSameLife(c.(inbound := rest), fs);
  }

  lemma ShiftInbox(c: Client, conn: Conn, d: Client, next: Conn, m: nat)
    requires Inbox(c, conn) && m <= |conn.served| - (|conn.sent| - |c.pending|) && m <= |c.pending|
    requires d.pending == c.pending[m..] && d.backlog == c.backlog
    requires next.sent == conn.sent && next.served == conn.served && next.unsent == conn.unsent
    requires Replies(next.transit) == RepliesOf(conn.served[|conn.sent| - |c.pending|..])[m..]
    requires d.inbound + next.s2c == EncodeAll(next.transit)
    ensures Inbox(d, next)
  {
    hide EncodeAll, Replies, RepliesOf, Concat;
    var r := |conn.sent| - |c.pending|;
    SliceSlice(conn.sent, r, m);
    RepliesOfDrop(conn.served, r, m);
  }

  lemma DataKeepsInbox(c: Client, conn: Conn, n: nat)
    requires Inbox(c, conn) && Wire(conn) && n <= |conn.s2c|
    ensures var fs := ParseAll(c.inbound + conn.s2c[..n]).0;
            Inbox(OnData(c, conn.s2c[..n]), conn.(s2c := conn.s2c[n..], transit := Drop(conn.transit, |fs|)))
  {
    hide ParseAll, TryConsume, Encode, EncodeAll, Replies, RepliesOf, Concat, OnData, Answers, Wire;
    ChunkConsumed(c, conn, n);
    DataAnswers(c, conn, n);
    var fs := ParseAll(c.inbound + conn.s2c[..n]).0;
    assert Drop(conn.transit, |fs|) == conn.transit[|fs|..];
    var next := conn.(s2c := conn.s2c[n..], transit := Drop(conn.transit, |fs|));
    ShiftInbox(c, conn, OnData(c, conn.s2c[..n]), next, |Replies(fs)|);
  }

  // ---------------------------------------------------------------------------
  // Connections only grow
  // ---------------------------------------------------------------------------

  predicate Grown(a: Conn, b: Conn) { a.sent <= b.sent && a.served <= b.served }

  predicate AllGrown(a: seq<Conn>, b: seq<Conn>)
  {
    |a| <= |b| && forall k :: 0 <= k < |a| ==> Grown(a[k], b[k])
  }

  lemma AnsweredGrows(a: seq<Conn>, b: seq<Conn>, e: Settlement)
    requires AllGrown(a, b) && Answered(a, e)
    ensures Answered(b, e)
  {
    var k: nat, j: nat :| AnsweredAt(a, k, j, e);
    assert Grown(a[k], b[k]);
    assert AnsweredAt(b, k, j, e);
  }

  /** d's log extends c's by rejections only. */
  predicate OnlyRejects(c: Client, d: Client)
  {
    c.log <= d.log && forall i :: |c.log| <= i < |d.log| ==> d.log[i].outcome.Rejected?
  }

  lemma RejectsKeepCorrelated(s: Sys, t: Sys)
    requires Correlated(s) && OnlyRejects(s.c, t.c) && AllGrown(s.conns, t.conns)
    ensures Correlated(t)
  {
    forall i | 0 <= i < |t.c.log| && t.c.log[i].outcome.Resolved? ensures Answered(t.conns, t.c.log[i]) {
      assert i < |s.c.log| && s.c.log[i] == t.c.log[i];
      AnsweredGrows(s.conns, t.conns, s.c.log[i]);
    }
  }

  // ---------------------------------------------------------------------------
  // Steps of the client
  // ---------------------------------------------------------------------------

  lemma SendSubmits(c: Client, x: Request, w: int)
    requires w <= |Encode(x.frame)|
    ensures var o := Send(c, x, w);
            if c.backlog != [] || w >= 0 then
              && o.c.pending == c.pending + [x] && o.c.log == c.log
              && o.wrote + Concat(o.c.backlog) == Concat(c.backlog) + EncodeAll(FramesOf([x]))
            else
              o.c.pending == c.pending && o.c.backlog == c.backlog && OnlyRejects(c, o.c)
    ensures Send(c, x, w).c.inbound == c.inbound && Send(c, x, w).c.issued == c.issued
  {
    hide Encode, Concat;
    SendConserves(c.backlog, Encode(x.frame), w);
    assert FramesOf([x]) == [x.frame];
    assert EncodeAll([x.frame]) == Encode(x.frame) + EncodeAll([]) == Encode(x.frame);
    var q := Enqueue(c, x);
    assert q.pending[..|q.pending| - 1] == c.pending;
  }

  /** The requests SendHello makes are its frames, in order, queued and submitted as such. */
  lemma {:induction false} SendHelloSubmits(c: Client, frames: seq<Frame>, ws: seq<int>) returns (rs: seq<Request>)
    requires HelloResults(frames, ws)
    ensures var o := SendHello(c, frames, ws);
            && o.c.issued == c.issued + rs && o.c.pending == c.pending + rs && o.c.log == c.log
            && o.c.inbound == c.inbound
            && o.wrote + Concat(o.c.backlog) == Concat(c.backlog) + EncodeAll(frames)
    ensures FramesOf(rs) == frames && forall i :: 0 <= i < |rs| ==> rs[i].origin == Handshake
    decreases |frames|
  {
    hide Send, Encode, Concat, EncodeAll;
    if frames == [] {
      rs := [];
      EncodeNone();
    } else {
      var x := Request(|c.issued|, frames[0], Handshake);
      var d := c.(issued := c.issued + [x]);
      SendSubmits(d, x, ws[0]);
      var first := Send(d, x, ws[0]);
      var more := SendHelloSubmits(first.c, frames[1..], ws[1..]);
      rs := [x] + more;
      assert FramesOf([x]) == [frames[0]];
      EncodeAllAppend([frames[0]], frames[1..]);
      assert [frames[0]] + frames[1..] == frames;
      var rest := SendHello(first.c, frames[1..], ws[1..]);
      Chain(first.wrote, rest.wrote, Concat(rest.c.backlog), Concat(first.c.backlog), Concat(c.backlog),
            EncodeAll([frames[0]]), EncodeAll(frames[1..]));
    }
  }

  lemma Chain(w1: bytes, w2: bytes, b2: bytes, b1: bytes, b0: bytes, e1: bytes, e2: bytes)
    requires w1 + b1 == b0 + e1 && w2 + b2 == b1 + e2
    ensures (w1 + w2) + b2 == b0 + (e1 + e2)
  {
    assert (w1 + w2) + b2 == w1 + (w2 + b2);
    assert w1 + (b1 + e2) == (w1 + b1) + e2;
    assert (b0 + e1) + e2 == b0 + (e1 + e2);
  }

  lemma OpenKeepsLink(c: Client, ws: seq<int>)
    requires HelloResults(Hello(c.token, Wired(c.heap, c.subs)), ws) && c.pending == []
    ensures var o := OnOpen(c, ws);
            && Wire(Open(c, o)) && Inbox(o.c, Open(c, o)) && o.c.log == c.log
  {
    hide SendHello, Hello, Wired, Encode, EncodeAll, Replies;
    var frames := Hello(c.token, Wired(c.heap, c.subs));
    var up := c.(dialing := false, gen := c.gen + 1, live := true, inbound := [], backlog := []);
    var rs := SendHelloSubmits(up, frames, ws);
    var o := OnOpen(c, ws);
    assert o.c.issued[|c.issued|..] == rs;
    var conn := Open(c, o);
    var hello := SendHello(up, frames, ws);
    assert Concat(up.backlog) == [];
    hide Concat, FramesOf;
    assert (MAGIC + hello.wrote) + Concat(o.c.backlog) == MAGIC + (hello.wrote + Concat(o.c.backlog));
    assert Outbound(conn) == MAGIC + EncodeAll(frames);
    assert conn.sent[|conn.sent| - |o.c.pending|..] == rs;
    EncodeNone();
    NoReplies();
  }

  lemma NoReplies()
    ensures Replies([]) == []
  {}

  lemma SendKeepsLink(c: Client, conn: Conn, w: int)
    requires c.released != [] && w <= |Encode(c.released[0].frame)|
    requires Wire(conn) && Inbox(c, conn)
    ensures var o := SendNext(c, w);
            if c.backlog != [] || w >= 0 then
              Wire(Submit(conn, [c.released[0]], o)) && Inbox(o.c, Submit(conn, [c.released[0]], o)) && o.c.log == c.log
            else
              Inbox(o.c, conn) && OnlyRejects(c, o.c)
  {
    hide Send, Encode, EncodeAll, Concat, FramesOf, Replies, RepliesOf;
    var x, d := c.released[0], c.(released := c.released[1..]);
    SendSubmits(d, x, w);
    var o := SendNext(c, w);
    if c.backlog != [] || w >= 0 {
      SubmitKeepsWire(conn, [x], o);
      var next := Submit(conn, [x], o);
      assert |next.sent| - |o.c.pending| == |conn.sent| - |c.pending|;
      assert next.sent[|next.sent| - |o.c.pending|..] == conn.sent[|conn.sent| - |c.pending|..] + [x];
    }
  }

  lemma {:induction false} DrainKeepsLink(c: Client, conn: Conn, ws: seq<int>)
    requires FlushResults(c.backlog, ws) && NoFailure(ws) && Wire(conn) && Inbox(c, conn)
    ensures var o := Drain(c, ws); Wire(Submit(conn, [], o)) && Inbox(o.c, Submit(conn, [], o))
  {
    hide Flush, EncodeAll, Concat, Replies, RepliesOf;
    FlushConserves(c.backlog, ws);
    var o := Drain(c, ws);
    EncodeNone();
    assert FramesOf([]) == [];
    assert conn.unsent + EncodeAll(FramesOf([])) == conn.unsent;
    SubmitKeepsWire(conn, [], o);
    assert conn.sent + [] == conn.sent;
  }

  lemma InboxSame(c: Client, d: Client, conn: Conn)
    requires Inbox(c, conn) && d.pending == c.pending && d.inbound == c.inbound && d.backlog == c.backlog
    ensures Inbox(d, conn)
  {}

  /** A client step that either drops the connection or leaves its queues alone, and settles nothing with a reply. */
  predicate Calm(c: Client, d: Client)
  {
    && OnlyRejects(c, d)
    && (d.live ==> c.live && d.pending == c.pending && d.inbound == c.inbound && d.backlog == c.backlog)
  }

  lemma EnsureReadyCalm(c: Client, x: Request)
    ensures Calm(c, EnsureReady(c, x))
  {
    hide OpenSocket;
    var d := EnsureReady(c, x);
    if c.state == Closed {
      assert d == Reject(c, [x]);
    } else if c.live && c.state == Ready {
      assert d == c.(released := c.released + [x]);
    } else {
      hide Rejections;
      OpenSocketOnlyDials(c);
      OpenSocketOnlyDials(c.(state := Connecting));
    }
  }

  lemma OpenSocketOnlyDials(c: Client)
    ensures var d := OpenSocket(c); d == c.(dialing := d.dialing, dials := d.dials)
  {}

  lemma IssueCalm(c: Client, frame: Frame, origin: Origin)
    ensures Calm(c, Issue(c, frame, origin))
  {
    hide EnsureReady;
    var x := Request(|c.issued|, frame, origin);
    EnsureReadyCalm(c.(issued := c.issued + [x]), x);
  }

  lemma SubscribeCalm(c: Client, channel: bytes, handler: nat, filter: Option<bytes>)
    ensures Calm(c, Subscribe(c, channel, handler, filter))
  {
    hide Issue, Find, At, Update, SubFrame;
    if Find(c.heap, c.subs, channel).None? && SubSize(channel, filter) <= MAX_PAYLOAD {
      var e := |c.heap|;
      var added := c.(heap := c.heap + [RawEntry.Entry(channel, filter, {handler}, false)], subs := c.subs + [e]);
      IssueCalm(added, SubFrame(channel, filter), SubOf(e, handler));
    }
  }

  lemma RemoveCalm(c: Client, channel: bytes, handler: nat)
    ensures Calm(c, RemoveHandler(c, channel, handler))
  {
    hide Issue, Find, At, Update, Delete, UnsubFrame;
    var found := Find(c.heap, c.subs, channel);
    if found.Some? && 4 + |channel| <= MAX_PAYLOAD {
      var entry := At(c.heap, found.value);
      var d := c.(heap := Update(c.heap, found.value, entry.(handlers := entry.handlers - {handler})));
      IssueCalm(d.(subs := Delete(d.heap, d.subs, channel)), UnsubFrame(channel), UnsubOf(channel));
    }
  }

  lemma DisconnectCalm(cfg: Config, c: Client, j: real)
    ensures Calm(c, HandleDisconnect(cfg, c, j)) && !HandleDisconnect(cfg, c, j).live
  {
    hide Backoff, Ids;
    var d := RejectAllPending(c.(live := false, inbound := [], backlog := []));
    assert OnlyRejects(c, d) && OnlyRejects(d, RejectWaiters(d));
    hide Rejections;
  }

  lemma TimeoutCalm(cfg: Config, c: Client, id: nat, j: real)
    requires id in c.timers && OneLink(c) && DeadIsEmpty(c)
    ensures Calm(c, RequestTimeout(cfg, c, id, j))
  {
    hide HandleDisconnect, Ids;
    var fired := c.(timers := c.timers - {id});
    var d := RejectAllPending(fired);
    assert OnlyRejects(c, d);
    DisconnectCalm(cfg, d.(live := false), j);
    hide Rejections;
  }

  lemma CloseCalm(c: Client)
    ensures Calm(c, Close(c))
  {
    hide Ids;
  }

  lemma ContinueCalm(c: Client)
    requires c.handled < |c.log|
    ensures Calm(c, Continue(c))
  {
    hide At, Update, Delete;
  }

  lemma CalmKeepsLink(s: Sys, d: Client)
    requires LinkInv(s) && Correlated(s) && Calm(s.c, d)
    ensures LinkInv(s.(c := d)) && Correlated(s.(c := d))
  {
    hide Wire, Correlated;
    if d.live {
      InboxSame(s.c, d, Last(s));
    }
    RejectsKeepCorrelated(s, s.(c := d));
  }

  // ---------------------------------------------------------------------------
  // Every step keeps the link and the correlation
  // ---------------------------------------------------------------------------

  /** The settlements of one chunk are answered on the connection it came from. */
  lemma ChunkAnswered(c: Client, conns: seq<Conn>, n: nat, i: nat)
    requires conns != [] && Wire(conns[|conns| - 1]) && Inbox(c, conns[|conns| - 1]) && n <= |conns[|conns| - 1].s2c|
    requires var d := OnData(c, conns[|conns| - 1].s2c[..n]); |c.log| <= i < |d.log|
    ensures Answered(conns, OnData(c, conns[|conns| - 1].s2c[..n]).log[i])
  {
    hide ParseAll, TryConsume, Encode, EncodeAll, Concat, OnData, Outbound, Replies;
    var last := |conns| - 1;
    var conn := conns[last];
    DataAnswers(c, conn, n);
    ChunkConsumed(c, conn, n);
    var rs := Replies(ParseAll(c.inbound + conn.s2c[..n]).0);
    var r, m := |conn.sent| - |c.pending|, i - |c.log|;
    var e := OnData(c, conn.s2c[..n]).log[i];
    assert e == Answers(c.pending, rs)[m] == Settlement(c.pending[m], Resolved(rs[m]));
    assert rs[m] == RepliesOf(conn.served[r..])[m] == conn.served[r + m].reply;
    assert AnsweredAt(conns, last, r + m, e);
  }

  lemma DataKeepsCorrelated(cfg: Config, s: Sys, n: nat)
    requires LinkInv(s) && Correlated(s) && Enabled(s, Data(n))
    ensures Correlated(Apply(cfg, s, Data(n)))
  {
    hide ParseAll, TryConsume, Encode, EncodeAll, OnData, Drop, Wire, Inbox, Answers;
    var t := Apply(cfg, s, Data(n));
    DataAnswers(s.c, Last(s), n);
    assert AllGrown(s.conns, t.conns);
    hide Replies;
    forall i | 0 <= i < |t.c.log| && t.c.log[i].outcome.Resolved? ensures Answered(t.conns, t.c.log[i]) {
      if i < |s.c.log| {
        assert t.c.log[i] == s.c.log[i];
      } else {
        ChunkAnswered(s.c, s.conns, n, i);
      }
      AnsweredGrows(s.conns, t.conns, t.c.log[i]);
    }
  }

  lemma DataKeepsLink(cfg: Config, s: Sys, n: nat)
    requires LinkInv(s) && Enabled(s, Data(n))
    ensures LinkInv(Apply(cfg, s, Data(n)))
  {
    hide ParseAll, TryConsume, Encode, EncodeAll, OnData, Drop, Inbox;
    var conn, t := Last(s), Apply(cfg, s, Data(n));
    DataKeepsInbox(s.c, conn, n);
    assert Wire(Last(t)) by { OutboundSame(conn, Last(t)); hide Outbound; }
    hide Wire;
  }

  lemma OutboundSame(a: Conn, b: Conn)
    requires a.srvIn == b.srvIn && a.c2s == b.c2s && a.unsent == b.unsent
    ensures Outbound(a) == Outbound(b)
  {}

  /** Connection k is replaced by one that still satisfies Wire and, if it is the live one, Inbox. */
  lemma ConnStepKeepsLink(s: Sys, k: nat, conn: Conn)
    requires LinkInv(s) && Correlated(s) && k < |s.conns|
    requires Wire(conn) && Grown(s.conns[k], conn)
    requires s.c.live && k == |s.conns| - 1 ==> Inbox(s.c, conn)
    ensures LinkInv(s.(conns := s.conns[k := conn])) && Correlated(s.(conns := s.conns[k := conn]))
  {
    hide Wire, Inbox;
    RejectsKeepCorrelated(s, s.(conns := s.conns[k := conn]));
  }

  lemma DeliverStepKeepsLink(s: Sys, k: nat, n: nat)
    requires LinkInv(s) && Correlated(s) && k < |s.conns| && n <= |s.conns[k].c2s|
    ensures var conn := s.conns[k];
            var t := s.(conns := s.conns[k := conn.(c2s := conn.c2s[n..], srvIn := conn.srvIn + conn.c2s[..n])]);
            LinkInv(t) && Correlated(t)
  {
    hide Wire, Concat, EncodeAll, Replies, RepliesOf, Correlated;
    var conn := s.conns[k];
    DeliverKeepsWire(conn, n);
    ConnStepKeepsLink(s, k, conn.(c2s := conn.c2s[n..], srvIn := conn.srvIn + conn.c2s[..n]));
  }

  lemma GreetStepKeepsLink(s: Sys, k: nat)
    requires LinkInv(s) && Correlated(s) && k < |s.conns| && !s.conns[k].greeted && |s.conns[k].srvIn| >= 2
    ensures var conn := s.conns[k];
            var t := s.(conns := s.conns[k := conn.(greeted := true, srvIn := conn.srvIn[2..])]);
            LinkInv(t) && Correlated(t)
  {
    hide Wire, Concat, EncodeAll, Replies, RepliesOf, Correlated;
    var conn := s.conns[k];
    GreetKeepsWire(conn);
    ConnStepKeepsLink(s, k, conn.(greeted := true, srvIn := conn.srvIn[2..]));
  }

  lemma ServeStepKeepsLink(s: Sys, k: nat, reply: Frame)
    requires LinkInv(s) && Correlated(s) && k < |s.conns| && !IsEvent(reply)
    requires s.conns[k].greeted && TryConsume(s.conns[k].srvIn).Got?
    ensures var conn := s.conns[k];
            var p := TryConsume(conn.srvIn);
            var t := s.(conns := s.conns[k := conn.(srvIn := p.rest, served := conn.served + [Served(p.frame, reply)],
                                                    transit := conn.transit + [reply],
                                                    s2c := conn.s2c + Encode(reply))]);
            LinkInv(t) && Correlated(t)
  {
    hide Wire, Inbox, TryConsume, Encode, Correlated;
    var conn := s.conns[k];
    var p := TryConsume(conn.srvIn);
    ServeKeepsWire(conn, reply);
    if s.c.live && k == |s.conns| - 1 {
      ServeKeepsInbox(s.c, conn, p.frame, reply, p.rest);
    }
    ConnStepKeepsLink(s, k, conn.(srvIn := p.rest, served := conn.served + [Served(p.frame, reply)],
                                  transit := conn.transit + [reply], s2c := conn.s2c + Encode(reply)));
  }

  lemma EmitStepKeepsLink(s: Sys, k: nat, event: Frame)
    requires LinkInv(s) && Correlated(s) && k < |s.conns| && IsEvent(event)
    ensures var conn := s.conns[k];
            var next := conn.(transit := conn.transit + [event], s2c := conn.s2c + Encode(event));
            var t := s.(conns := s.conns[k := next]);
            LinkInv(t) && Correlated(t)
  {
    hide Inbox, Encode, EncodeAll, Correlated;
    var conn := s.conns[k];
    var next := conn.(transit := conn.transit + [event], s2c := conn.s2c + Encode(event));
    assert Wire(next) by { OutboundSame(conn, next); hide Outbound; }
    hide Wire;
    if s.c.live && k == |s.conns| - 1 {
      EmitKeepsInbox(s.c, conn, event);
    }
    ConnStepKeepsLink(s, k, next);
  }

  lemma SendStepKeepsLink(cfg: Config, s: Sys, w: int)
    requires LinkInv(s) && Correlated(s) && DeadIsEmpty(s.c) && Enabled(s, SendFrame(w))
    ensures LinkInv(Apply(cfg, s, SendFrame(w))) && Correlated(Apply(cfg, s, SendFrame(w)))
  {
    hide Send, Encode, EncodeAll, Concat, Correlated, Wire, Inbox;
    var c, t := s.c, Apply(cfg, s, SendFrame(w));
    SendSameLife(c.(released := c.released[1..]), c.released[0], w);
    if c.live {
      SendKeepsLink(c, Last(s), w);
    } else {
      SendSubmits(c.(released := c.released[1..]), c.released[0], w);
    }
    RejectsKeepCorrelated(s, t);
  }

  lemma DrainStepKeepsLink(cfg: Config, s: Sys, ws: seq<int>)
    requires LinkInv(s) && Correlated(s) && Enabled(s, DrainSocket(ws))
    ensures LinkInv(Apply(cfg, s, DrainSocket(ws))) && Correlated(Apply(cfg, s, DrainSocket(ws)))
  {
    hide Flush, Concat, Correlated, Wire, Inbox;
    DrainKeepsLink(s.c, Last(s), ws);
    RejectsKeepCorrelated(s, Apply(cfg, s, DrainSocket(ws)));
  }

  lemma OpenStepKeepsLink(cfg: Config, s: Sys, ws: seq<int>)
    requires LinkInv(s) && Correlated(s) && OneLink(s.c) && DeadIsEmpty(s.c) && Enabled(s, DialOk(ws))
    ensures LinkInv(Apply(cfg, s, DialOk(ws))) && Correlated(Apply(cfg, s, DialOk(ws)))
  {
    hide OnOpen, Hello, Wired, Correlated, Wire, Inbox, Open;
    OpenKeepsLink(s.c, ws);
    RejectsKeepCorrelated(s, Apply(cfg, s, DialOk(ws)));
  }

  lemma StrayDataIsCalm(c: Client, chunk: bytes)
    requires !c.live && c.pending == []
    ensures Calm(c, OnData(c, chunk))
  {
    hide ParseAll, HandleAll;
    var (fs, rest) := ParseAll(c.inbound + chunk);
    HandleAllSameLife(c.(inbound := rest), fs);
  }

  /** Every step keeps the alignment of queue, channels and server, and so the correlation. */
  lemma StepKeepsLink(cfg: Config, s: Sys, step: Step)
    requires OneLink(s.c) && DeadIsEmpty(s.c) && LinkInv(s) && Correlated(s) && Enabled(s, step)
    ensures LinkInv(Apply(cfg, s, step)) && Correlated(Apply(cfg, s, step))
  {
    hide LinkInv, Correlated, Calm, Issue, EnsureReady, Subscribe, RemoveHandler, Close, SendNext, Continue, OnOpen;
    hide RequestTimeout, HandleDisconnect, OnData, ParseAll, Encode, Hello, AuthFrame, Submit, Open, TryConsume, Flush;
    var c := s.c;
    match step {
      case UserRequest(frame) => IssueCalm(c, frame, Direct); CalmKeepsLink(s, Issue(c, frame, Direct));
      case UserAuth(token) =>
        IssueCalm(c, AuthFrame(token), AuthOf(token));
        CalmKeepsLink(s, Issue(c, AuthFrame(token), AuthOf(token)));
      case UserSubscribe(ch, h, f) => SubscribeCalm(c, ch, h, f); CalmKeepsLink(s, Subscribe(c, ch, h, f));
      case UserUnsubscribe(ch, h) => RemoveCalm(c, ch, h); CalmKeepsLink(s, RemoveHandler(c, ch, h));
      case UserClose => CloseCalm(c); CalmKeepsLink(s, Close(c));
      case Wake => WakeCalm(c); CalmKeepsLink(s, WakeNext(c));
      case SendFrame(w) => SendStepKeepsLink(cfg, s, w);
      case RunContinuation => ContinueCalm(c); CalmKeepsLink(s, Continue(c));
      case DialOk(ws) => OpenStepKeepsLink(cfg, s, ws);
      case DialFail(j) => DialFailCalm(cfg, c, j); CalmKeepsLink(s, DialFailed(cfg, c, j));
      case ReconnectTimer => ReconnectCalm(c); CalmKeepsLink(s, ReconnectFires(c));
      case Timeout(id, j) => TimeoutCalm(cfg, c, id, j); CalmKeepsLink(s, RequestTimeout(cfg, c, id, j));
      case SocketClosed(j) => DisconnectCalm(cfg, c, j); CalmKeepsLink(s, HandleDisconnect(cfg, c, j));
      case Data(n) => DataKeepsLink(cfg, s, n); DataKeepsCorrelated(cfg, s, n);
      case StrayData(chunk) => StrayDataIsCalm(c, chunk); CalmKeepsLink(s, OnData(c, chunk));
      case DrainSocket(ws) => DrainStepKeepsLink(cfg, s, ws);
      case Deliver(k, n) => DeliverStepKeepsLink(s, k, n);
      case Greet(k) => GreetStepKeepsLink(s, k);
      case Serve(k, reply) => ServeStepKeepsLink(s, k, reply);
      case Emit(k, event) => EmitStepKeepsLink(s, k, event);
    }
  }

  lemma WakeCalm(c: Client)
    requires c.woken != []
    ensures Calm(c, WakeNext(c))
  {
    hide EnsureReady;
    EnsureReadyCalm(c.(woken := c.woken[1..]), c.woken[0]);
  }

  lemma DialFailCalm(cfg: Config, c: Client, j: real)
    ensures Calm(c, DialFailed(cfg, c, j))
  {
    hide HandleDisconnect;
    DisconnectCalm(cfg, c.(dialing := false), j);
  }

  lemma ReconnectCalm(c: Client)
    ensures Calm(c, ReconnectFires(c))
  {}
}
