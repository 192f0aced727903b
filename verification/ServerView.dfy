/**
 What the server makes of the SUB and UNSUB frames it is sent. A server may refuse a
 command; it is subscribed to a channel when the last SUB or UNSUB for it that it
 accepted is a SUB. The client looks at the reply to a subscribe() call and ignores
 the replies to the handshake.
 */
module ServerView {
  import opened Bytes
  import opened Frames
  import opened Commands
  import opened ClientSteps
  import opened System
  import opened Lifecycle
  import opened Settlement
  import opened Correlation
  import opened Ledger
  import opened Subscriptions
  import opened Theorems

  /** The reply is OK, VALUE or NULL. */
  predicate Accepts(x: Served) { x.reply.code <= 0x02 }

  /** The server did what a SUB or UNSUB for the channel asked. */
  predicate Obeyed(x: Served, channel: bytes) { Accepts(x) && About(x.cmd, channel) }

  /** The channels the server is subscribed to on a connection. */
  function ServerSet(ss: seq<Served>): set<bytes>
  {
    if ss == [] then {}
    else
      var n := |ss| - 1;
      var channel := FirstField(ss[n].cmd.payload);
      if channel.None? || !Accepts(ss[n]) then ServerSet(ss[..n])
      else if ss[n].cmd.code == SUB then ServerSet(ss[..n]) + {channel.value}
      else if ss[n].cmd.code == UNSUB then ServerSet(ss[..n]) - {channel.value}
      else ServerSet(ss[..n])
  }

  /** Where the last accepted word on a channel is. */
  function LastObeyed(ss: seq<Served>, channel: bytes): (r: Option<nat>)
    ensures r.Some? ==> r.value < |ss| && Obeyed(ss[r.value], channel)
    ensures forall j :: (if r.Some? then r.value else -1) < j < |ss| ==> !Obeyed(ss[j], channel)
  {
    if ss == [] then None
    else
      var n := |ss| - 1;
      if Obeyed(ss[n], channel) then Some(n) else LastObeyed(ss[..n], channel)
  }

  lemma {:induction false} ServerSetIsLastObeyed(ss: seq<Served>, channel: bytes)
    ensures channel in ServerSet(ss) <==>
            var i := LastObeyed(ss, channel); i.Some? && ss[i.value].cmd.code == SUB
    decreases |ss|
  {
    hide FirstField;
    if ss != [] {
      ServerSetIsLastObeyed(ss[..|ss| - 1], channel);
    }
  }

  /** A request submitted on a connection was issued. */
  lemma SentWasIssued(s: Sys, k: nat, j: nat)
    requires LedgerInv(s) && Conserved(s.c) && k < |s.conns| && j < |s.conns[k].sent|
    ensures var r := s.conns[k].sent[j]; r.id < |s.c.issued| && s.c.issued[r.id] == r
  {
    hide SentOnce, UserQueues, Shape, Conserved, Requests;
    var r := s.conns[k].sent[j];
    assert SentAt(s.conns, k, j, r);
    assert Owed(s.c, r);
    InIssued(s.c, r);
  }

  /** The own SUB of a live entry, if it went out on this connection, was accepted. */
  lemma OwnSubAccepted(cfg: Config, s: Sys, e: nat, a: nat)
    requires Inv(cfg, s) && s.conns != [] && a < |Last(s).sent| && IsSub(Last(s).sent[a], e)
    requires e < |s.c.heap| && s.c.heap[e].wired
    ensures a < |Last(s).served| && Accepts(Last(s).served[a])
  {
    hide LifeInv, LinkInv, Shape, UserQueues, SentOwed, UnsubsFirst, Agree, MapOk, OriginsOk, TimersMatch, Conserved;
    hide Requests, SentAt;
    var c, k := s.c, |s.conns| - 1;
    var r := Last(s).sent[a];
    SentWasIssued(s, k, a);
    var m :| 0 <= m < c.handled <= |c.log| && Succeeded(c.log[m]) && IsSub(c.log[m].req, e);
    var x := c.log[m];
    LogIn(c, m);
    InIssued(c, x.req);
    SameSub(c, r, x.req, e);
    assert Answered(s.conns, x);
    var l: nat, j: nat :| AnsweredAt(s.conns, l, j, x);
    SentThere(s.conns, l, j, r);
    SentThere(s.conns, k, a, r);
    assert l == k && j == a;
  }

  lemma SentThere(conns: seq<Conn>, k: nat, j: nat, r: Request)
    requires k < |conns| && j < |conns[k].sent| && conns[k].sent[j] == r
    ensures SentAt(conns, k, j, r)
  {}

  /** The last accepted word on the channel is an UNSUB sent by hand. */
  predicate ByHand(conn: Conn, channel: bytes)
  {
    var i := LastObeyed(conn.served, channel);
    && i.Some? && i.value < |conn.sent|
    && conn.sent[i.value].origin == Direct && conn.sent[i.value].frame.code == UNSUB
  }

  /** A SUB of the handshake for the channel, refused or not answered yet. */
  ghost predicate NotGranted(conn: Conn, channel: bytes)
  {
    exists k :: 0 <= k < |conn.sent| && HandshakeSub(conn.sent[k], channel) &&
                (k < |conn.served| ==> !Accepts(conn.served[k]))
  }

  predicate HandshakeSub(r: Request, channel: bytes)
  {
    r.origin == Handshake && r.frame.code == SUB && About(r.frame, channel)
  }

  lemma AnchorDecides(cfg: Config, s: Sys, e: nat, a: nat)
    requires Inv(cfg, s) && s.c.live && s.conns != [] && Wire(Last(s))
    requires e < |s.c.heap| && s.c.heap[e].wired && AnchorAt(Last(s).sent, e, s.c.heap[e].channel, a)
    ensures var conn, channel := Last(s), s.c.heap[e].channel;
            var i := LastObeyed(conn.served, channel);
            && (i.None? ==> NotGranted(conn, channel))
            && (i.Some? && conn.served[i.value].cmd.code != SUB ==> ByHand(conn, channel))
  {
    hide Inv, FirstField, EncodeAll, FramesOf, Outbound;
    var conn, channel := Last(s), s.c.heap[e].channel;
    var i := LastObeyed(conn.served, channel);
    if IsSub(conn.sent[a], e) {
      OwnSubAccepted(cfg, s, e, a);
      assert Obeyed(conn.served[a], channel);
    } else if i.None? {
      assert HandshakeSub(conn.sent[a], channel);
      assert a < |conn.served| ==> !Obeyed(conn.served[a], channel);
    }
  }

  /**
   In every run, a channel marked wireSubscribed on the live connection is missing at the
   server exactly when no word on it has been accepted there, or the last one accepted is an
   UNSUB sent by hand; and in the first case the SUB of the handshake was refused or is still
   unanswered.
   */
  lemma ServerAgrees(cfg: Config, steps: seq<Step>, t: Sys, e: nat)
    requires Run(cfg, INIT_SYS, steps, t)
    requires t.c.live && e in t.c.subs && At(t.c.heap, e).wired
    ensures t.conns != []
    ensures var conn, channel := Last(t), At(t.c.heap, e).channel;
            && (channel !in ServerSet(conn.served) <==>
                LastObeyed(conn.served, channel).None? || ByHand(conn, channel))
            && (LastObeyed(conn.served, channel).None? ==> NotGranted(conn, channel))
  {
    hide Run, LifeInv, SettleInv, Correlated, LedgerInv, Static, UnsubsFirst, ServerSet, Wire, Inbox, AnchorAt;
    Reachable(cfg, steps, t);
    var conn, channel := Last(t), At(t.c.heap, e).channel;
    assert Submitted(t.c, e);
    assert Anchored(conn.sent, e, channel);
    var a: nat :| AnchorAt(conn.sent, e, channel, a);
    assert t.c.heap[e] == At(t.c.heap, e) by { EntryExists(t, e); }
    assert Wire(conn);
    AnchorDecides(cfg, t, e, a);
    ServerSetIsLastObeyed(conn.served, channel);
    if ByHand(conn, channel) { ByHandIsUnsub(conn, channel); }
  }

  lemma EntryExists(s: Sys, e: nat)
    requires SubInv(s) && e in s.c.subs
    ensures e < |s.c.heap|
  {
    hide OriginsOk, OneSubEach, WiredSettled, Agree, UnsubsFirst;
  }

  lemma ByHandIsUnsub(conn: Conn, channel: bytes)
    requires Wire(conn) && ByHand(conn, channel)
    ensures conn.served[LastObeyed(conn.served, channel).value].cmd.code == UNSUB
  {
    hide EncodeAll, FramesOf, Outbound, About;
  }

  /** The server refused the SUB of the handshake for the channel. */
  ghost predicate RefusedAtOpen(conn: Conn, channel: bytes)
  {
    exists k :: 0 <= k < |conn.served| && k < |conn.sent| &&
                HandshakeSub(conn.sent[k], channel) && !Accepts(conn.served[k])
  }

  /** No SUB or UNSUB for the channel is waiting for its answer. */
  predicate Settled(conn: Conn, channel: bytes)
  {
    forall k :: |conn.served| <= k < |conn.sent| ==> !About(conn.sent[k].frame, channel)
  }

  /**
   Once the server has answered every word on a channel marked wireSubscribed, it is not
   subscribed exactly when it last obeyed an UNSUB sent by hand, or obeyed nothing and refused
   the SUB of the handshake, a reply the client does not look at.
   */
  lemma SettledServerAgrees(cfg: Config, steps: seq<Step>, t: Sys, e: nat)
    requires Run(cfg, INIT_SYS, steps, t)
    requires t.c.live && e in t.c.subs && At(t.c.heap, e).wired
    requires t.conns != [] && Settled(Last(t), At(t.c.heap, e).channel)
    ensures var conn, channel := Last(t), At(t.c.heap, e).channel;
            channel !in ServerSet(conn.served) <==>
            || ByHand(conn, channel)
            || (LastObeyed(conn.served, channel).None? && RefusedAtOpen(conn, channel))
  {
    hide Run, ServerSet, About;
    ServerAgrees(cfg, steps, t, e);
    var conn, channel := Last(t), At(t.c.heap, e).channel;
    if LastObeyed(conn.served, channel).None? {
      var k :| 0 <= k < |conn.sent| && HandshakeSub(conn.sent[k], channel) &&
               (k < |conn.served| ==> !Accepts(conn.served[k]));
      assert k < |conn.served|;
    }
  }
}
