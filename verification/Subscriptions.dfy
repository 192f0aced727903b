/**
 Subscription agreement: whatever mix of subscribe, unsubscribe, raw commands,
 disconnect and reconnect happened, the last SUB or UNSUB frame submitted on the
 current connection for a channel the client believes is live is a SUB, unless it is
 an UNSUB the user sent by hand.
 */
module Subscriptions {
  import opened Bytes
  import opened Frames
  import opened Commands
  import opened Backlog
  import opened ClientSteps
  import opened System
  import opened Lifecycle
  import opened Settlement
  import opened Correlation
  import opened Ledger

  /** The channels a server that accepts every frame is subscribed to after these. */
  function Replay(fs: seq<Frame>): set<bytes>
  {
    if fs == [] then {}
    else
      var n := |fs| - 1;
      var channel := FirstField(fs[n].payload);
      if channel.None? then Replay(fs[..n])
      else if fs[n].code == SUB then Replay(fs[..n]) + {channel.value}
      else if fs[n].code == UNSUB then Replay(fs[..n]) - {channel.value}
      else Replay(fs[..n])
  }

  /** A SUB or UNSUB frame for a channel. */
  predicate About(f: Frame, channel: bytes)
  {
    (f.code == SUB || f.code == UNSUB) && FirstField(f.payload) == Some(channel)
  }

  /** The last request submitted that is about a channel. */
  function LastWord(sent: seq<Request>, channel: bytes): Option<Request>
  {
    if sent == [] then None
    else
      var n := |sent| - 1;
      if About(sent[n].frame, channel) then Some(sent[n]) else LastWord(sent[..n], channel)
  }

  predicate IsSub(r: Request, e: nat) { r.origin.SubOf? && r.origin.entry == e }

  /**
   The i-th request is the SUB that made the entry's channel live on this connection: the
   entry's own, or the first word of the handshake on the channel. After it the channel is
   unsubscribed by hand or not at all.
   */
  predicate AnchorAt(sent: seq<Request>, e: nat, channel: bytes, i: nat)
  {
    && i < |sent| && sent[i].frame.code == SUB && About(sent[i].frame, channel)
    && (IsSub(sent[i], e) ||
        (sent[i].origin == Handshake && forall j :: 0 <= j < i ==> !About(sent[j].frame, channel)))
    && forall j :: i < j < |sent| && About(sent[j].frame, channel) ==>
         sent[j].frame.code == SUB || sent[j].origin == Direct
  }

  ghost predicate Anchored(sent: seq<Request>, e: nat, channel: bytes)
  {
    exists i: nat :: AnchorAt(sent, e, channel, i)
  }

  // ---------------------------------------------------------------------------
  // The invariant
  // ---------------------------------------------------------------------------

  predicate Distinct(heap: seq<Entry>, subs: seq<nat>)
  {
    forall i, j :: 0 <= i < j < |subs| ==> At(heap, subs[i]).channel != At(heap, subs[j]).channel
  }

  /** Entries of the map exist and have distinct channels. */
  predicate MapOk(c: Client)
  {
    && (forall i :: 0 <= i < |c.subs| ==> c.subs[i] < |c.heap|)
    && Distinct(c.heap, c.subs)
  }

  /** A request made for a channel carries the frame for that channel. */
  predicate OriginOk(c: Client, r: Request)
  {
    match r.origin
    case SubOf(e, _) => e < |c.heap| && r.frame == SubFrame(c.heap[e].channel, c.heap[e].filter)
    case UnsubOf(channel) => 4 + |channel| <= MAX_PAYLOAD && r.frame == UnsubFrame(channel)
    case Direct => true
    case AuthOf(t) => r.frame == AuthFrame(t)
    case Handshake => r.frame.code != UNSUB
  }

  predicate OriginsOk(c: Client) { forall i :: 0 <= i < |c.issued| ==> OriginOk(c, c.issued[i]) }

  predicate SameEntry(a: Request, b: Request) { a.origin.SubOf? && b.origin.SubOf? && a.origin.entry == b.origin.entry }

  /** Each entry sends its own SUB at most once. */
  predicate OneSubEach(c: Client)
  {
    forall i, j :: 0 <= i < |c.issued| && 0 <= j < |c.issued| && SameEntry(c.issued[i], c.issued[j]) ==> i == j
  }

  ghost predicate SubWon(c: Client, e: nat)
  {
    exists i :: 0 <= i < c.handled <= |c.log| && Succeeded(c.log[i]) && IsSub(c.log[i].req, e)
  }

  ghost predicate SubSettled(c: Client, e: nat) { exists i :: 0 <= i < c.handled <= |c.log| && IsSub(c.log[i].req, e) }

  ghost predicate WiredSettled(c: Client)
  {
    forall e :: 0 <= e < |c.heap| && c.heap[e].wired ==> SubWon(c, e)
  }

  ghost predicate Static(c: Client) { MapOk(c) && OriginsOk(c) && OneSubEach(c) && WiredSettled(c) }

  ghost predicate PendingSub(c: Client, e: nat) { exists i :: 0 <= i < |c.pending| && IsSub(c.pending[i], e) }

  ghost predicate AckedSub(c: Client, e: nat)
  {
    exists i :: c.handled <= i < |c.log| && Succeeded(c.log[i]) && IsSub(c.log[i].req, e)
  }

  /** The SUB of entry e has been submitted on the current connection. */
  ghost predicate Submitted(c: Client, e: nat) { At(c.heap, e).wired || PendingSub(c, e) || AckedSub(c, e) }

  ghost predicate SubAfter(c: Client, i: nat, e: nat) { exists j :: i < j < |c.released| && IsSub(c.released[j], e) }

  /** A released UNSUB for the channel of a current entry has that entry's own SUB behind it. */
  ghost predicate UnsubsFirst(c: Client)
  {
    forall i: nat, e | i < |c.released| && e in c.subs && c.released[i].origin == UnsubOf(At(c.heap, e).channel) ::
      SubAfter(c, i, e)
  }

  ghost predicate Agree(c: Client, sent: seq<Request>)
  {
    forall e :: e in c.subs && Submitted(c, e) ==> Anchored(sent, e, At(c.heap, e).channel)
  }

  predicate NoUnsub(rs: seq<Request>) { forall i :: 0 <= i < |rs| ==> !rs[i].origin.UnsubOf? }

  /** An UNSUB is only ever issued on a live connection, so none is parked. */
  predicate Parked(c: Client) { NoUnsub(c.waiters) && NoUnsub(c.woken) }

  ghost predicate SubInv(s: Sys)
  {
    && Static(s.c)
    && Parked(s.c)
    && (s.c.live ==> s.conns != [] && UnsubsFirst(s.c) && Agree(s.c, Last(s).sent))
  }

  // ---------------------------------------------------------------------------
  // Replay
  // ---------------------------------------------------------------------------

  /** One more request changes the last word only for the channel it is about. */
  lemma {:induction false} OneMoreWord(sent: seq<Request>, x: Request, channel: bytes)
    ensures LastWord(sent + [x], channel) == if About(x.frame, channel) then Some(x) else LastWord(sent, channel)
  {
    assert (sent + [x])[..|sent|] == sent;
  }

  /** The replayed set holds exactly the channels whose last word is a SUB. */
  lemma {:induction false} ReplayIsLastWord(sent: seq<Request>, channel: bytes)
    ensures channel in Replay(FramesOf(sent)) <==>
            var w := LastWord(sent, channel); w.Some? && w.value.frame.code == SUB
    ensures var w := LastWord(sent, channel); w.Some? ==> w.value in sent && About(w.value.frame, channel)
    decreases |sent|
  {
    hide FirstField;
    if sent != [] {
      var n := |sent| - 1;
      ReplayIsLastWord(sent[..n], channel);
      assert FramesOf(sent)[..n] == FramesOf(sent[..n]);
    }
  }

  lemma SubFrameChannel(channel: bytes, filter: Option<bytes>)
    requires SubSize(channel, filter) <= MAX_PAYLOAD
    ensures SubFrame(channel, filter).code == SUB
    ensures FirstField(SubFrame(channel, filter).payload) == Some(channel)
  {
    var rest := if filter.Some? && filter.value != [] then Field(filter.value) else [];
    FirstFieldOf(channel, rest);
    hide Field, FirstField;
  }

  lemma UnsubFrameChannel(channel: bytes)
    requires 4 + |channel| <= MAX_PAYLOAD
    ensures UnsubFrame(channel).code == UNSUB
    ensures FirstField(UnsubFrame(channel).payload) == Some(channel)
  {
    FirstFieldOf(channel, []);
    assert Field(channel) + [] == Field(channel);
  }

  /** The first word on a channel in a handshake anchors it. */
  lemma {:induction false} AnchorsFirst(sent: seq<Request>, k: nat, e: nat, channel: bytes)
    requires k < |sent| && About(sent[k].frame, channel)
    requires forall j :: 0 <= j < |sent| ==> sent[j].frame.code != UNSUB && sent[j].origin == Handshake
    ensures Anchored(sent, e, channel)
    decreases k
  {
    hide FirstField;
    if j :| 0 <= j < k && About(sent[j].frame, channel) {
      AnchorsFirst(sent, j, e, channel);
    } else {
      assert AnchorAt(sent, e, channel, k);
    }
  }

  /** An anchored channel was last told to subscribe, unless the user unsubscribed it by hand. */
  lemma {:induction false} AnchoredLastWord(sent: seq<Request>, e: nat, channel: bytes)
    requires Anchored(sent, e, channel)
    ensures var w := LastWord(sent, channel);
            w.Some? && (w.value.frame.code == SUB || w.value.origin == Direct)
    decreases |sent|
  {
    hide FirstField;
    var i: nat :| AnchorAt(sent, e, channel, i);
    var n := |sent| - 1;
    if !About(sent[n].frame, channel) {
      assert AnchorAt(sent[..n], e, channel, i);
      AnchoredLastWord(sent[..n], e, channel);
    }
  }

  // ---------------------------------------------------------------------------
  // A request has one place
  // ---------------------------------------------------------------------------

  lemma InIssued(c: Client, r: Request)
    requires Conserved(c)
    requires r in c.waiters || r in c.woken || r in c.released || r in c.pending || r in Requests(c.log)
    ensures r in c.issued && r.id < |c.issued| && c.issued[r.id] == r
  {
    hide Requests;
    NIn(c.waiters, r);
    NIn(c.woken, r);
    NIn(c.released, r);
    NIn(c.pending, r);
    NIn(Requests(c.log), r);
    OnePlace(c, r);
  }

  lemma LogIn(c: Client, i: nat)
    requires i < |c.log|
    ensures c.log[i].req in Requests(c.log)
  {
    assert Requests(c.log)[i] == c.log[i].req;
  }

  lemma SameSub(c: Client, a: Request, b: Request, e: nat)
    requires OneSubEach(c) && a.id < |c.issued| && c.issued[a.id] == a && b.id < |c.issued| && c.issued[b.id] == b
    requires IsSub(a, e) && IsSub(b, e)
    ensures a == b
  {}

  /** An entry whose SUB is still to be written has not been submitted. */
  lemma ReleasedNotSubmitted(c: Client, a: Request, e: nat)
    requires Conserved(c) && Static(c) && a in c.released && IsSub(a, e)
    ensures !Submitted(c, e)
  {
    hide OriginsOk, MapOk, Requests, Numbered;
    InIssued(c, a);
    NIn(c.released, a);
    OnePlace(c, a);
    if PendingSub(c, e) {
      var i :| 0 <= i < |c.pending| && IsSub(c.pending[i], e);
      InIssued(c, c.pending[i]);
      SameSub(c, a, c.pending[i], e);
      NIn(c.pending, a);
    } else if Submitted(c, e) {
      var i: nat;
      if AckedSub(c, e) {
        i :| c.handled <= i < |c.log| && Succeeded(c.log[i]) && IsSub(c.log[i].req, e);
      } else {
        i :| 0 <= i < c.handled <= |c.log| && Succeeded(c.log[i]) && IsSub(c.log[i].req, e);
      }
      LogIn(c, i);
      InIssued(c, c.log[i].req);
      SameSub(c, a, c.log[i].req, e);
      NIn(Requests(c.log), a);
    }
  }

  // ---------------------------------------------------------------------------
  // Steps
  // ---------------------------------------------------------------------------

  /** The same entries, requests and continuations. */
  predicate SameSubs(c: Client, d: Client)
  {
    d.heap == c.heap && d.subs == c.subs && d.issued == c.issued && d.handled == c.handled && d.token == c.token
  }

  lemma StaticKept(c: Client, d: Client)
    requires Static(c) && SameSubs(c, d) && c.log <= d.log
    ensures Static(d)
  {
    hide OriginOk, OneSubEach;
    forall i | 0 <= i < |d.issued| ensures OriginOk(d, d.issued[i]) { OriginKept(c, d, d.issued[i]); }
    assert OneSubEach(d) by { OneSubKept(c, d); }
    forall e | 0 <= e < |d.heap| && d.heap[e].wired ensures SubWon(d, e) {
      var i :| 0 <= i < c.handled <= |c.log| && Succeeded(c.log[i]) && IsSub(c.log[i].req, e);
      assert Succeeded(d.log[i]) && IsSub(d.log[i].req, e);
    }
  }

  lemma OneSubKept(c: Client, d: Client)
    requires OneSubEach(c) && d.issued == c.issued
    ensures OneSubEach(d)
  {}

  lemma OriginKept(c: Client, d: Client, r: Request)
    requires OriginOk(c, r) && |c.heap| <= |d.heap|
    requires forall e :: 0 <= e < |c.heap| ==>
               d.heap[e].channel == c.heap[e].channel && d.heap[e].filter == c.heap[e].filter
    ensures OriginOk(d, r)
  {
    hide SubFrame, UnsubFrame, AuthFrame;
  }

  /** New rejections do not make anything submitted. */
  lemma NotMoreSubmitted(c: Client, d: Client, e: nat)
    requires SameSubs(c, d) && OnlyRejects(c, d) && d.pending == c.pending && Submitted(d, e)
    ensures Submitted(c, e)
  {
    if AckedSub(d, e) {
      var i :| d.handled <= i < |d.log| && Succeeded(d.log[i]) && IsSub(d.log[i].req, e);
      assert i < |c.log| && c.log[i] == d.log[i];
    }
  }

  /** A step that only rejects, and keeps the released queue or drops the connection. */
  lemma CalmKeepsSubs(s: Sys, d: Client)
    requires SubInv(s) && SameSubs(s.c, d) && Calm(s.c, d) && Parked(d)
    requires d.live ==> d.released == s.c.released
    ensures SubInv(s.(c := d))
  {
    hide Static, Anchored, Submitted;
    StaticKept(s.c, d);
    if d.live {
      forall e | e in d.subs && Submitted(d, e) ensures Anchored(Last(s).sent, e, At(d.heap, e).channel) {
        NotMoreSubmitted(s.c, d, e);
      }
      assert UnsubsFirst(d) by { UnsubsKept(s.c, d); }
    }
  }

  lemma UnsubsKept(c: Client, d: Client)
    requires UnsubsFirst(c) && d.released == c.released && d.heap == c.heap && d.subs == c.subs
    ensures UnsubsFirst(d)
  {
    forall i: nat, e | i < |d.released| && e in d.subs && d.released[i].origin == UnsubOf(At(d.heap, e).channel)
      ensures SubAfter(d, i, e)
    {
      assert SubAfter(c, i, e);
      var j :| i < j < |c.released| && IsSub(c.released[j], e);
      assert IsSub(d.released[j], e);
    }
  }

  /** Releasing one more request keeps the order of UNSUBs and SUBs, unless it is an UNSUB of a current entry. */
  lemma ReleaseKeepsUnsubs(c: Client, d: Client, x: Request)
    requires UnsubsFirst(c) && d.released == c.released + [x] && d.heap == c.heap && d.subs == c.subs
    requires forall e :: e in c.subs ==> x.origin != UnsubOf(At(c.heap, e).channel)
    ensures UnsubsFirst(d)
  {
    forall i: nat, e | i < |d.released| && e in d.subs && d.released[i].origin == UnsubOf(At(d.heap, e).channel)
      ensures SubAfter(d, i, e)
    {
      assert i < |c.released| && d.released[i] == c.released[i];
      assert SubAfter(c, i, e);
      var j :| i < j < |c.released| && IsSub(c.released[j], e);
      assert IsSub(d.released[j], e);
    }
  }

  /** ensureReady on behalf of a request that is no UNSUB of a current entry. */
  lemma EnsureReadyKeepsSubs(s: Sys, x: Request)
    requires SubInv(s) && OneLink(s.c) && (x.origin.UnsubOf? ==> s.c.live)
    requires forall e :: e in s.c.subs ==> x.origin != UnsubOf(At(s.c.heap, e).channel)
    ensures SubInv(s.(c := EnsureReady(s.c, x)))
  {
    hide Static, Anchored, Submitted, UnsubsFirst;
    var c, d := s.c, EnsureReady(s.c, x);
    EnsureReadyCalm(c, x);
    EnsureReadySame(c, x);
    assert d.heap == c.heap && d.subs == c.subs;
    StaticKept(c, d);
    if d.live {
      assert d.released == c.released + [x];
      ReleaseKeepsUnsubs(c, d, x);
      hide EnsureReady;
      forall e | e in d.subs && Submitted(d, e) ensures Anchored(Last(s).sent, e, At(d.heap, e).channel) {
        NotMoreSubmitted(c, d, e);
      }
    }
  }

  lemma IssuedKeepsStatic(c: Client, x: Request)
    requires Static(c) && OriginOk(c, x)
    requires forall i :: 0 <= i < |c.issued| ==> !SameEntry(c.issued[i], x)
    ensures Static(c.(issued := c.issued + [x]))
  {
    hide OriginOk;
    var d := c.(issued := c.issued + [x]);
    forall i | 0 <= i < |d.issued| ensures OriginOk(d, d.issued[i]) {
      OriginKept(c, d, d.issued[i]);
    }
    forall e | 0 <= e < |d.heap| && d.heap[e].wired ensures SubWon(d, e) {
      var i :| 0 <= i < c.handled <= |c.log| && Succeeded(c.log[i]) && IsSub(c.log[i].req, e);
      assert Succeeded(d.log[i]) && IsSub(d.log[i].req, e);
    }
  }

  lemma IssueKeepsSubs(s: Sys, frame: Frame, origin: Origin)
    requires SubInv(s) && OneLink(s.c)
    requires OriginOk(s.c, Request(|s.c.issued|, frame, origin))
    requires forall i :: 0 <= i < |s.c.issued| ==> !SameEntry(s.c.issued[i], Request(|s.c.issued|, frame, origin))
    requires origin.UnsubOf? ==> s.c.live
    requires forall e :: e in s.c.subs ==> origin != UnsubOf(At(s.c.heap, e).channel)
    ensures SubInv(s.(c := Issue(s.c, frame, origin)))
  {
    hide Static, Anchored, EnsureReady, OriginOk;
    var c := s.c;
    var x := Request(|c.issued|, frame, origin);
    var d := c.(issued := c.issued + [x]);
    IssuedKeepsStatic(c, x);
    if c.live {
      assert UnsubsFirst(d) by { UnsubsKept(c, d); }
      hide UnsubsFirst;
      forall e | e in d.subs && Submitted(d, e) ensures Anchored(Last(s).sent, e, At(d.heap, e).channel) {
        assert Submitted(c, e) by { SubmittedKept(c, d, e); }
      }
    }
    EnsureReadyKeepsSubs(s.(c := d), x);
  }

  /** Submitted depends only on the entry's flag, the pending queue and the unhandled log. */
  lemma SubmittedKept(c: Client, d: Client, e: nat)
    requires At(d.heap, e).wired == At(c.heap, e).wired
    requires d.pending == c.pending && d.log == c.log && d.handled == c.handled
    ensures Submitted(d, e) <==> Submitted(c, e)
  {}

  // ---------------------------------------------------------------------------
  // subscribe and unsubscribe
  // ---------------------------------------------------------------------------

  /** The same entries but for their handlers. */
  predicate SameButHandlers(c: Client, d: Client)
  {
    && |d.heap| == |c.heap|
    && forall e :: 0 <= e < |c.heap| ==> d.heap[e] == c.heap[e].(handlers := d.heap[e].handlers)
  }

  lemma SameButHandlersAt(c: Client, d: Client, e: nat)
    requires SameButHandlers(c, d)
    ensures At(d.heap, e).channel == At(c.heap, e).channel && At(d.heap, e).wired == At(c.heap, e).wired
  {}

  /** The map of d is what is left of the map of c after deleting some entries. */
  predicate Fewer(c: Client, d: Client)
  {
    && (forall i :: 0 <= i < |d.subs| ==> d.subs[i] in c.subs)
    && MapOk(d)
  }

  lemma HandlersKeepSubs(s: Sys, d: Client)
    requires SubInv(s) && SameButHandlers(s.c, d) && Fewer(s.c, d)
    requires d == s.c.(heap := d.heap, subs := d.subs)
    ensures SubInv(s.(c := d))
  {
    hide Anchored, OriginOk;
    var c := s.c;
    forall i | 0 <= i < |d.issued| ensures OriginOk(d, d.issued[i]) { OriginKept(c, d, d.issued[i]); }
    forall e | 0 <= e < |d.heap| && d.heap[e].wired ensures SubWon(d, e) {
      assert c.heap[e].wired;
      var i :| 0 <= i < c.handled <= |c.log| && Succeeded(c.log[i]) && IsSub(c.log[i].req, e);
      assert Succeeded(d.log[i]) && IsSub(d.log[i].req, e);
    }
    if d.live {
      forall e | e in d.subs && Submitted(d, e) ensures Anchored(Last(s).sent, e, At(d.heap, e).channel) {
        SameButHandlersAt(c, d, e);
        SubmittedKept(c, d, e);
      }
      forall i: nat, e | i < |d.released| && e in d.subs && d.released[i].origin == UnsubOf(At(d.heap, e).channel)
        ensures SubAfter(d, i, e)
      {
        SameButHandlersAt(c, d, e);
        assert SubAfter(c, i, e);
        var j :| i < j < |c.released| && IsSub(c.released[j], e);
        assert IsSub(d.released[j], e);
      }
    }
  }

  /** subscribe on a new channel: its SUB is released behind any UNSUB for the same channel. */
  lemma SubscribeNewKeepsSubs(s: Sys, x: Entry, handler: nat)
    requires SubInv(s) && OneLink(s.c) && Conserved(s.c)
    requires !x.wired && forall e :: e in s.c.subs ==> At(s.c.heap, e).channel != x.channel
    ensures var n := |s.c.heap|;
            var added := s.c.(heap := s.c.heap + [x], subs := s.c.subs + [n]);
            SubInv(s.(c := Issue(added, SubFrame(x.channel, x.filter), SubOf(n, handler))))
  {
    hide Static, Anchored, SubFrame, Submitted;
    var c, n := s.c, |s.c.heap|;
    var added := c.(heap := c.heap + [x], subs := c.subs + [n]);
    var r := Request(|c.issued|, SubFrame(x.channel, x.filter), SubOf(n, handler));
    var d := added.(issued := added.issued + [r]);
    var t := EnsureReady(d, r);
    AddedStatic(c, x);
    SubsOld(c);
    IssuedKeepsStatic(added, r);
    EnsureReadyCalm(d, r);
    EnsureReadySame(d, r);
    assert t.heap == d.heap && t.subs == d.subs;
    StaticKept(d, t);
    if t.live {
      assert t.released == c.released + [r] && t.log == c.log;
      hide EnsureReady;
      forall e | e in t.subs && Submitted(t, e) ensures Anchored(Last(s).sent, e, At(t.heap, e).channel) {
        if e == n {
          NewNotSubmitted(c, t, n);
        } else {
          assert At(t.heap, e) == At(c.heap, e);
          SubmittedKept(c, t, e);
        }
      }
      NewSubBehind(c, t, r, n);
    }
  }

  lemma NewSubBehind(c: Client, t: Client, r: Request, n: nat)
    requires UnsubsFirst(c) && t.released == c.released + [r] && IsSub(r, n) && n == |c.heap|
    requires t.subs == c.subs + [n] && forall e :: 0 <= e < n ==> At(t.heap, e) == At(c.heap, e)
    requires MapOk(c)
    ensures UnsubsFirst(t)
  {
    forall i: nat, e | i < |t.released| && e in t.subs && t.released[i].origin == UnsubOf(At(t.heap, e).channel)
      ensures SubAfter(t, i, e)
    {
      assert i < |c.released| && t.released[i] == c.released[i];
      if e == n {
        assert IsSub(t.released[|c.released|], n);
      } else {
        assert e in c.subs && At(t.heap, e) == At(c.heap, e);
        assert SubAfter(c, i, e);
        var j :| i < j < |c.released| && IsSub(c.released[j], e);
        assert IsSub(t.released[j], e);
      }
    }
  }

  lemma SubsOld(c: Client)
    requires Static(c)
    ensures MapOk(c) && OriginsOk(c)
    ensures forall i :: 0 <= i < |c.issued| && c.issued[i].origin.SubOf? ==> c.issued[i].origin.entry < |c.heap|
  {
    hide SubFrame;
    forall i | 0 <= i < |c.issued| && c.issued[i].origin.SubOf? ensures c.issued[i].origin.entry < |c.heap| {
      assert OriginOk(c, c.issued[i]);
    }
  }

  lemma SubscribeKeepsSubs(s: Sys, channel: bytes, handler: nat, filter: Option<bytes>)
    requires SubInv(s) && OneLink(s.c) && Conserved(s.c)
    ensures SubInv(s.(c := Subscribe(s.c, channel, handler, filter)))
  {
    hide Issue, SubFrame, Static, Agree, UnsubsFirst;
    var c := s.c;
    SubsOld(c);
    match Find(c.heap, c.subs, channel)
    case Some(e) =>
      var d := Subscribe(c, channel, handler, filter);
      assert MapOk(d);
      HandlersKeepSubs(s, d);
    case None =>
      if SubSize(channel, filter) <= MAX_PAYLOAD {
        SubscribeNewKeepsSubs(s, RawEntry.Entry(channel, filter, {handler}, false), handler);
      }
  }

  lemma DistinctCons(heap: seq<Entry>, x: nat, q: seq<nat>)
    requires Distinct(heap, q) && forall j :: 0 <= j < |q| ==> At(heap, x).channel != At(heap, q[j]).channel
    ensures Distinct(heap, [x] + q)
  {}

  /** Deleting a channel leaves a well-formed map. */
  lemma {:induction false} DeleteKeepsDistinct(heap: seq<Entry>, subs: seq<nat>, channel: bytes)
    requires Distinct(heap, subs)
    ensures Distinct(heap, Delete(heap, subs, channel))
  {
    if subs != [] {
      var rest := subs[1..];
      DeleteKeepsDistinct(heap, rest, channel);
      var q := Delete(heap, rest, channel);
      forall j | 0 <= j < |q| ensures At(heap, subs[0]).channel != At(heap, q[j]).channel {
        assert q[j] in rest;
        var k :| 0 <= k < |rest| && rest[k] == q[j];
        assert subs[k + 1] == q[j];
      }
      DistinctCons(heap, subs[0], q);
      hide At, Distinct;
      assert [] + q == q;
    }
  }

  lemma {:induction false} DeletedFewer(c: Client, d: Client, channel: bytes)
    requires MapOk(c) && SameButHandlers(c, d) && d.subs == Delete(d.heap, c.subs, channel)
    ensures Fewer(c, d)
    ensures forall e :: e in d.subs ==> At(d.heap, e).channel != channel
  {
    forall i, j | 0 <= i < j < |c.subs| ensures At(d.heap, c.subs[i]).channel != At(d.heap, c.subs[j]).channel {
      SameButHandlersAt(c, d, c.subs[i]);
      SameButHandlersAt(c, d, c.subs[j]);
    }
    DeleteKeepsDistinct(d.heap, c.subs, channel);
    hide At, Delete;
    forall i | 0 <= i < |d.subs| ensures d.subs[i] in c.subs && d.subs[i] < |d.heap| {
      assert d.subs[i] in d.subs;
    }
  }

  lemma RemoveKeepsSubs(s: Sys, channel: bytes, handler: nat)
    requires SubInv(s) && OneLink(s.c)
    ensures SubInv(s.(c := RemoveHandler(s.c, channel, handler)))
  {
    hide Issue, UnsubFrame, Static, Agree, UnsubsFirst, Delete;
    var c := s.c;
    SubsOld(c);
    var found := Find(c.heap, c.subs, channel);
    if found.Some? {
      var entry := At(c.heap, found.value);
      var left := entry.handlers - {handler};
      var d := c.(heap := Update(c.heap, found.value, entry.(handlers := left)));
      assert SameButHandlers(c, d);
      if left != {} {
        assert MapOk(d);
        HandlersKeepSubs(s, d);
      } else {
        var gone := d.(subs := Delete(d.heap, d.subs, channel));
        DeletedFewer(c, gone, channel);
        HandlersKeepSubs(s, gone);
        if c.live && c.state == Ready && 4 + |channel| <= MAX_PAYLOAD {
          IssueKeepsSubs(s.(c := gone), UnsubFrame(channel), UnsubOf(channel));
        }
      }
    }
  }

  lemma AddedStatic(c: Client, x: Entry)
    requires Static(c) && !x.wired && forall e :: e in c.subs ==> At(c.heap, e).channel != x.channel
    ensures Static(c.(heap := c.heap + [x], subs := c.subs + [|c.heap|]))
  {
    hide OriginOk;
    var d := c.(heap := c.heap + [x], subs := c.subs + [|c.heap|]);
    forall i | 0 <= i < |d.issued| ensures OriginOk(d, d.issued[i]) { OriginKept(c, d, d.issued[i]); }
    forall e | 0 <= e < |d.heap| && d.heap[e].wired ensures SubWon(d, e) {
      assert c.heap[e].wired;
      var i :| 0 <= i < c.handled <= |c.log| && Succeeded(c.log[i]) && IsSub(c.log[i].req, e);
      assert Succeeded(d.log[i]) && IsSub(d.log[i].req, e);
    }
    forall i, j | 0 <= i < j < |d.subs|
      ensures At(d.heap, d.subs[i]).channel != At(d.heap, d.subs[j]).channel
    {
      assert At(d.heap, d.subs[i]) == At(c.heap, c.subs[i]);
      assert c.subs[i] in c.subs;
      if j < |c.subs| { assert At(d.heap, d.subs[j]) == At(c.heap, c.subs[j]); }
    }
  }

  lemma NewNotSubmitted(c: Client, d: Client, n: nat)
    requires Conserved(c) && OriginsOk(c) && n == |c.heap| && !At(d.heap, n).wired
    requires d.pending == c.pending && d.log == c.log && d.handled == c.handled
    ensures !Submitted(d, n)
  {
    hide Requests;
    if PendingSub(d, n) {
      var i :| 0 <= i < |d.pending| && IsSub(d.pending[i], n);
      InIssued(c, c.pending[i]);
    } else if AckedSub(d, n) {
      var i :| d.handled <= i < |d.log| && Succeeded(d.log[i]) && IsSub(d.log[i].req, n);
      LogIn(c, i);
      InIssued(c, c.log[i].req);
    }
  }

  // ---------------------------------------------------------------------------
  // Continuations, sends, opens and data
  // ---------------------------------------------------------------------------

  lemma WakeKeepsSubs(s: Sys)
    requires SubInv(s) && OneLink(s.c) && s.c.woken != []
    ensures SubInv(s.(c := WakeNext(s.c)))
  {
    hide Static, Anchored, EnsureReady, Submitted;
    var c := s.c;
    var d := c.(woken := c.woken[1..]);
    StaticKept(c, d);
    if d.live {
      UnsubsKept(c, d);
      forall e | e in d.subs && Submitted(d, e) ensures Anchored(Last(s).sent, e, At(d.heap, e).channel) {
        SubmittedKept(c, d, e);
      }
    }
    EnsureReadyKeepsSubs(s.(c := d), c.woken[0]);
  }

  /** Sending the head of the released queue keeps an anchor, or sets it. */
  lemma SentFrameTells(c: Client, sent: seq<Request>, x: Request, e: nat)
    requires Static(c) && x.id < |c.issued| && c.issued[x.id] == x && e in c.subs
    requires IsSub(x, e) ||
             (Anchored(sent, e, At(c.heap, e).channel) && x.origin != UnsubOf(At(c.heap, e).channel))
    ensures Anchored(sent + [x], e, At(c.heap, e).channel)
  {
    hide FirstField, SubFrame, UnsubFrame, AuthFrame;
    var channel := At(c.heap, e).channel;
    assert OriginOk(c, x);
    match x.origin {
      case SubOf(f, _) => SubFrameChannel(c.heap[f].channel, c.heap[f].filter);
      case UnsubOf(ch) => UnsubFrameChannel(ch);
      case AuthOf(t) => AuthCode(t);
      case _ =>
    }
    if IsSub(x, e) {
      assert AnchorAt(sent + [x], e, channel, |sent|);
    } else {
      var i: nat :| AnchorAt(sent, e, channel, i);
      AnchorExtends(sent, x, e, channel, i);
    }
  }

  lemma AnchorExtends(sent: seq<Request>, x: Request, e: nat, channel: bytes, i: nat)
    requires AnchorAt(sent, e, channel, i)
    requires About(x.frame, channel) ==> x.frame.code == SUB || x.origin == Direct
    ensures AnchorAt(sent + [x], e, channel, i)
  {
    hide About;
    var all := sent + [x];
    assert forall j :: 0 <= j < |sent| ==> all[j] == sent[j];
  }

  lemma AuthCode(t: Token)
    ensures AuthFrame(t).code == 0x0C
  {}

  lemma SendKeepsAgree(c: Client, d: Client, sent: seq<Request>, x: Request, rest: seq<Request>)
    requires Static(c) && Conserved(c) && UnsubsFirst(c) && Agree(c, sent)
    requires c.released == [x] + rest
    requires SameSubs(c, d) && d.pending == c.pending + [x] && d.log == c.log
    ensures Agree(d, sent + [x])
  {
    hide Anchored, Requests, OriginsOk, WiredSettled;
    assert x in c.released;
    InIssued(c, x);
    forall e | e in d.subs && Submitted(d, e) ensures Anchored(sent + [x], e, At(d.heap, e).channel) {
      if !IsSub(x, e) {
        assert Submitted(c, e) by {
          if PendingSub(d, e) {
            var i :| 0 <= i < |d.pending| && IsSub(d.pending[i], e);
            assert i < |c.pending| && c.pending[i] == d.pending[i];
          }
        }
        if x.origin == UnsubOf(At(c.heap, e).channel) {
          assert c.released[0] == x;
          assert SubAfter(c, 0, e);
          var j :| 0 < j < |c.released| && IsSub(c.released[j], e);
          ReleasedNotSubmitted(c, c.released[j], e);
        }
      }
      SentFrameTells(c, sent, x, e);
    }
  }

  lemma PopKeepsUnsubs(c: Client, d: Client)
    requires UnsubsFirst(c) && c.released != [] && d.released == c.released[1..] && d.heap == c.heap && d.subs == c.subs
    ensures UnsubsFirst(d)
  {
    forall i: nat, e | i < |d.released| && e in d.subs && d.released[i].origin == UnsubOf(At(d.heap, e).channel)
      ensures SubAfter(d, i, e)
    {
      assert c.released[i + 1] == d.released[i];
      assert SubAfter(c, i + 1, e);
      var j :| i + 1 < j < |c.released| && IsSub(c.released[j], e);
      assert IsSub(d.released[j - 1], e);
    }
  }

  lemma SendStepKeepsSubs(cfg: Config, s: Sys, w: int)
    requires SubInv(s) && Conserved(s.c) && DeadIsEmpty(s.c) && Enabled(s, SendFrame(w))
    ensures SubInv(Apply(cfg, s, SendFrame(w)))
  {
    hide Send, Encode, EncodeAll, Concat, Anchored, Static, Submitted, Conserved;
    var c, t := s.c, Apply(cfg, s, SendFrame(w));
    var x, d := c.released[0], c.(released := c.released[1..]);
    SendSameLife(d, x, w);
    SendSubmits(d, x, w);
    var o := SendNext(c, w);
    StaticKept(c, o.c);
    if c.live {
      PopKeepsUnsubs(c, o.c);
      if c.backlog != [] || w >= 0 {
        assert c.released == [x] + c.released[1..];
        SendKeepsAgree(c, o.c, Last(s).sent, x, c.released[1..]);
      } else {
        hide UnsubsFirst;
        forall e | e in o.c.subs && Submitted(o.c, e) ensures Anchored(Last(s).sent, e, At(o.c.heap, e).channel) {
          NotMoreSubmitted(c, o.c, e);
        }
      }
    }
  }

  lemma ContinueFacts(c: Client)
    requires c.handled < |c.log|
    ensures var d := Continue(c);
            && d == c.(heap := d.heap, subs := d.subs, token := d.token, handled := c.handled + 1)
            && |d.heap| == |c.heap|
            && (forall e :: 0 <= e < |c.heap| ==>
                  d.heap[e].channel == c.heap[e].channel && d.heap[e].filter == c.heap[e].filter)
            && (forall e: nat {:trigger At(d.heap, e)} :: At(d.heap, e).channel == At(c.heap, e).channel
                  && (At(d.heap, e).wired ==>
                        At(c.heap, e).wired || (Succeeded(c.log[c.handled]) && IsSub(c.log[c.handled].req, e))))
  {
    hide Delete;
  }

  lemma ContinueStatic(c: Client)
    requires Static(c) && c.handled < |c.log|
    ensures Static(Continue(c))
  {
    hide OriginOk, Continue;
    var d := Continue(c);
    ContinueFacts(c);
    ContinueMapOk(c);
    forall i | 0 <= i < |d.issued| ensures OriginOk(d, d.issued[i]) { OriginKept(c, d, d.issued[i]); }
    forall e | 0 <= e < |d.heap| && d.heap[e].wired ensures SubWon(d, e) {
      assert At(d.heap, e) == d.heap[e];
      if c.heap[e].wired {
        var i :| 0 <= i < c.handled <= |c.log| && Succeeded(c.log[i]) && IsSub(c.log[i].req, e);
        assert Succeeded(d.log[i]) && IsSub(d.log[i].req, e);
      } else {
        assert Succeeded(d.log[c.handled]) && IsSub(d.log[c.handled].req, e);
      }
    }
    assert OneSubEach(d) by { OneSubKept(c, d); }
  }

  lemma ContinueMapOk(c: Client)
    requires MapOk(c) && c.handled < |c.log|
    ensures MapOk(Continue(c)) && forall i :: 0 <= i < |Continue(c).subs| ==> Continue(c).subs[i] in c.subs
  {
    hide Delete;
    var d := Continue(c);
    var s := c.log[c.handled];
    if s.req.origin.SubOf? && !Succeeded(s) {
      var mid := c.(heap := d.heap);
      assert SameButHandlers(c, mid);
      if d.subs != c.subs {
        DeletedFewer(c, mid.(subs := d.subs), At(c.heap, s.req.origin.entry).channel);
      }
    }
  }

  lemma ContinueKeepsSubs(s: Sys)
    requires SubInv(s) && s.c.handled < |s.c.log|
    ensures SubInv(s.(c := Continue(s.c)))
  {
    hide Anchored, Static, Continue;
    var c := s.c;
    var d := Continue(c);
    ContinueStatic(c);
    SubsOld(c);
    ContinueMapOk(c);
    ContinueFacts(c);
    if d.live {
      forall e | e in d.subs && Submitted(d, e) ensures Anchored(Last(s).sent, e, At(d.heap, e).channel) {
        assert Submitted(c, e) by { ContinueSubmitted(c, e); }
      }
      forall i: nat, e | i < |d.released| && e in d.subs && d.released[i].origin == UnsubOf(At(d.heap, e).channel)
        ensures SubAfter(d, i, e)
      {
        assert SubAfter(c, i, e);
        var j :| i < j < |c.released| && IsSub(c.released[j], e);
        assert IsSub(d.released[j], e);
      }
    }
  }

  lemma ContinueSubmitted(c: Client, e: nat)
    requires c.handled < |c.log| && Submitted(Continue(c), e)
    ensures Submitted(c, e)
  {
    hide Continue;
    var d := Continue(c);
    ContinueFacts(c);
    if PendingSub(d, e) {
    } else if AckedSub(d, e) {
      var i :| d.handled <= i < |d.log| && Succeeded(d.log[i]) && IsSub(d.log[i].req, e);
      assert Succeeded(c.log[i]) && IsSub(c.log[i].req, e);
    } else if !At(c.heap, e).wired {
      assert Succeeded(c.log[c.handled]) && IsSub(c.log[c.handled].req, e);
    }
  }

  lemma {:induction false} WiredHas(heap: seq<Entry>, subs: seq<nat>, e: nat)
    requires e in subs && At(heap, e).wired
    ensures At(heap, e) in Wired(heap, subs)
  {
    if subs[0] != e {
      WiredHas(heap, subs[1..], e);
    }
  }

  /** The handshake subscribes every live entry and unsubscribes nothing. */
  lemma HelloTells(token: Option<Token>, live: seq<Entry>, x: Entry, e: nat, sent: seq<Request>)
    requires x in live && FramesOf(sent) == Hello(token, live)
    requires forall j :: 0 <= j < |sent| ==> sent[j].origin == Handshake
    ensures Anchored(sent, e, x.channel)
  {
    hide Anchored, FirstField, SubFrame, AuthFrame;
    var fs := Hello(token, live);
    var i :| 0 <= i < |live| && live[i] == x;
    var k := if token.Some? then i + 1 else i;
    assert fs[k] == SubFrame(x.channel, x.filter) && sent[k].frame == fs[k];
    SubFrameChannel(x.channel, x.filter);
    forall m | 0 <= m < |sent| ensures sent[m].frame.code != UNSUB {
      assert FramesOf(sent)[m] == sent[m].frame;
      HelloHasNoUnsub(token, live, fs[m]);
    }
    AnchorsFirst(sent, k, e, x.channel);
  }

  lemma OpenedSubs(c: Client, ws: seq<int>)
    requires HelloResults(Hello(c.token, Wired(c.heap, c.subs)), ws) && c.pending == [] && c.released == []
    ensures var o := OnOpen(c, ws);
            && o.c.heap == c.heap && o.c.subs == c.subs && o.c.handled == c.handled && o.c.log == c.log
            && o.c.waiters == [] && o.c.woken == c.woken + c.waiters
            && o.c.released == [] && FramesOf(Open(c, o).sent) == Hello(c.token, Wired(c.heap, c.subs))
            && (forall i :: 0 <= i < |o.c.pending| ==> o.c.pending[i].origin == Handshake)
            && (forall i :: 0 <= i < |Open(c, o).sent| ==> Open(c, o).sent[i].origin == Handshake)
            && c.issued <= o.c.issued
            && (forall i :: |c.issued| <= i < |o.c.issued| ==>
                  o.c.issued[i].origin == Handshake && o.c.issued[i].frame in Hello(c.token, Wired(c.heap, c.subs)))
  {
    hide SendHello, Hello, Wired, Encode, EncodeAll, Concat;
    var frames := Hello(c.token, Wired(c.heap, c.subs));
    var up := c.(dialing := false, gen := c.gen + 1, live := true, inbound := [], backlog := []);
    var rs := SendHelloSubmits(up, frames, ws);
    SendHelloSameLife(up, frames, ws);
    var o := OnOpen(c, ws);
    assert o.c.issued[|c.issued|..] == rs;
    forall i | |c.issued| <= i < |o.c.issued|
      ensures o.c.issued[i].origin == Handshake && o.c.issued[i].frame in frames
    {
      assert o.c.issued[i] == rs[i - |c.issued|];
      assert FramesOf(rs)[i - |c.issued|] == rs[i - |c.issued|].frame;
    }
  }

  lemma HelloHasNoUnsub(token: Option<Token>, live: seq<Entry>, f: Frame)
    requires f in Hello(token, live)
    ensures f.code != UNSUB
  {
    hide SubFrame, AuthFrame;
    var fs := Hello(token, live);
    var m :| 0 <= m < |fs| && fs[m] == f;
    if token.Some? && m == 0 {
      AuthCode(token.value);
    } else {
      var y := live[if token.Some? then m - 1 else m];
      SubFrameChannel(y.channel, y.filter);
    }
  }

  lemma OpenStepKeepsSubs(cfg: Config, s: Sys, ws: seq<int>)
    requires SubInv(s) && OneLink(s.c) && DeadIsEmpty(s.c) && Enabled(s, DialOk(ws))
    ensures SubInv(Apply(cfg, s, DialOk(ws)))
  {
    hide OnOpen, Open, Hello, Wired, Anchored, Encode, OriginOk;
    var c := s.c;
    var d := OnOpen(c, ws).c;
    OpenedSubs(c, ws);
    forall i | 0 <= i < |d.issued| ensures OriginOk(d, d.issued[i]) {
      if i < |c.issued| {
        OriginKept(c, d, d.issued[i]);
      } else {
        HelloHasNoUnsub(c.token, Wired(c.heap, c.subs), d.issued[i].frame);
        HandshakeOk(d, d.issued[i]);
      }
    }
    forall e | 0 <= e < |d.heap| && d.heap[e].wired ensures SubWon(d, e) {
      var i :| 0 <= i < c.handled <= |c.log| && Succeeded(c.log[i]) && IsSub(c.log[i].req, e);
      assert Succeeded(d.log[i]) && IsSub(d.log[i].req, e);
    }
    forall i, j | 0 <= i < |d.issued| && 0 <= j < |d.issued| && SameEntry(d.issued[i], d.issued[j]) ensures i == j {
      assert i < |c.issued| && j < |c.issued|;
    }
    var sent := Open(c, OnOpen(c, ws)).sent;
    forall e | e in d.subs && Submitted(d, e) ensures Anchored(sent, e, At(d.heap, e).channel) {
      assert !PendingSub(d, e) && !AckedSub(d, e);
      WiredHas(c.heap, c.subs, e);
      HelloTells(c.token, Wired(c.heap, c.subs), At(c.heap, e), e, sent);
    }
  }

  lemma HandshakeOk(c: Client, r: Request)
    requires r.origin == Handshake && r.frame.code != UNSUB
    ensures OriginOk(c, r)
  {}

  lemma DataStepKeepsSubs(cfg: Config, s: Sys, n: nat)
    requires SubInv(s) && LinkInv(s) && Enabled(s, Data(n))
    ensures SubInv(Apply(cfg, s, Data(n)))
  {
    hide ParseAll, TryConsume, Encode, EncodeAll, HandleAll, Drop, Wire, Inbox, Static, Anchored, Replies;
    hide UnsubsFirst, Answers, Submitted;
    var c, conn, t := s.c, Last(s), Apply(cfg, s, Data(n));
    DataAnswers(c, conn, n);
    var (fs, rest) := ParseAll(c.inbound + conn.s2c[..n]);
    HandleAllSameLife(c.(inbound := rest), fs);
    assert Last(t).sent == conn.sent;
    hide Apply, OnData, Enabled;
    AnsweredKeepsSubs(s, t, Replies(fs));
  }

  /** Answering the oldest requests and nothing else. */
  lemma AnsweredKeepsSubs(s: Sys, t: Sys, rs: seq<Frame>)
    requires SubInv(s) && s.c.live && s.conns != [] && t.conns != [] && Last(t).sent == Last(s).sent
    requires |rs| <= |s.c.pending| && t.c.pending == s.c.pending[|rs|..]
    requires t.c.log == s.c.log + Answers(s.c.pending, rs) && SameSubs(s.c, t.c) && t.c.released == s.c.released
    requires t.c.waiters == s.c.waiters && t.c.woken == s.c.woken
    ensures SubInv(t)
  {
    hide Static, Anchored, UnsubsFirst, Answers, Submitted;
    var c, d := s.c, t.c;
    StaticKept(c, d);
    UnsubsKept(c, d);
    forall e | e in d.subs && Submitted(d, e) ensures Anchored(Last(s).sent, e, At(d.heap, e).channel) {
      AnsweredStaysSubmitted(c, d, rs, e);
    }
  }

  lemma AnsweredStaysSubmitted(c: Client, d: Client, rs: seq<Frame>, e: nat)
    requires |rs| <= |c.pending| && d.pending == c.pending[|rs|..] && d.log == c.log + Answers(c.pending, rs)
    requires d.heap == c.heap && d.handled == c.handled && Submitted(d, e)
    ensures Submitted(c, e)
  {
    if PendingSub(d, e) {
      var i :| 0 <= i < |d.pending| && IsSub(d.pending[i], e);
      assert IsSub(c.pending[|rs| + i], e);
    } else if AckedSub(d, e) {
      var i :| d.handled <= i < |d.log| && Succeeded(d.log[i]) && IsSub(d.log[i].req, e);
      if i < |c.log| {
        assert Succeeded(c.log[i]) && IsSub(c.log[i].req, e);
      } else {
        assert IsSub(c.pending[i - |c.log|], e);
      }
    }
  }

  lemma StrayDataKeepsSubs(s: Sys, chunk: bytes)
    requires SubInv(s) && !s.c.live && s.c.pending == []
    ensures SubInv(s.(c := OnData(s.c, chunk)))
  {
    hide ParseAll, HandleAll, Static;
    var (fs, rest) := ParseAll(s.c.inbound + chunk);
    HandleAllSameLife(s.c.(inbound := rest), fs);
    StaticKept(s.c, OnData(s.c, chunk));
  }

  // ---------------------------------------------------------------------------
  // Every step keeps the agreement
  // ---------------------------------------------------------------------------

  lemma DisconnectKeepsSubs(cfg: Config, s: Sys, j: real)
    requires SubInv(s)
    ensures SubInv(s.(c := HandleDisconnect(cfg, s.c, j)))
  {
    hide Static, Backoff, Ids, Rejections, Agree, UnsubsFirst;
    DisconnectCalm(cfg, s.c, j);
    CalmKeepsSubs(s, HandleDisconnect(cfg, s.c, j));
  }

  lemma TimeoutKeepsSubs(cfg: Config, s: Sys, id: nat, j: real)
    requires SubInv(s) && id in s.c.timers && OneLink(s.c) && DeadIsEmpty(s.c)
    ensures SubInv(s.(c := RequestTimeout(cfg, s.c, id, j)))
  {
    hide Static, RequestTimeout, Agree, UnsubsFirst;
    TimeoutCalm(cfg, s.c, id, j);
    TimeoutSameSubs(cfg, s.c, id, j);
    CalmKeepsSubs(s, RequestTimeout(cfg, s.c, id, j));
  }

  lemma TimeoutSameSubs(cfg: Config, c: Client, id: nat, j: real)
    requires id in c.timers
    ensures var d := RequestTimeout(cfg, c, id, j);
            && SameSubs(c, d) && d.released == c.released && d.woken == c.woken
            && (d.waiters == c.waiters || d.waiters == [])
  {
    hide Ids, Rejections, HandleDisconnect;
    DisconnectSameSubs(cfg, RejectAllPending(c.(timers := c.timers - {id})).(live := false), j);
  }

  lemma DisconnectSameSubs(cfg: Config, c: Client, j: real)
    ensures var d := HandleDisconnect(cfg, c, j);
            && SameSubs(c, d) && d.released == c.released && d.woken == c.woken
            && (d.waiters == c.waiters || d.waiters == [])
  {
    hide Ids, Rejections, Backoff;
  }

  lemma CloseKeepsSubs(s: Sys)
    requires SubInv(s)
    ensures SubInv(s.(c := Close(s.c)))
  {
    hide Static, Ids, Rejections, Agree, UnsubsFirst;
    CloseCalm(s.c);
    CalmKeepsSubs(s, Close(s.c));
  }

  /** A step that touches none of what the agreement is about. */
  lemma UnchangedKeepsSubs(s: Sys, t: Sys)
    requires SubInv(s) && SameSubs(s.c, t.c) && t.c.live == s.c.live && SameSent(s.conns, t.conns)
    requires t.c.pending == s.c.pending && t.c.log == s.c.log && t.c.released == s.c.released
    requires t.c.waiters == s.c.waiters && t.c.woken == s.c.woken
    ensures SubInv(t)
  {
    hide Static, Anchored, Submitted, UnsubsFirst;
    StaticKept(s.c, t.c);
    if t.c.live {
      UnsubsKept(s.c, t.c);
      forall e | e in t.c.subs && Submitted(t.c, e) ensures Anchored(Last(t).sent, e, At(t.c.heap, e).channel) {
        SubmittedKept(s.c, t.c, e);
      }
    }
  }

  lemma UserStepKeepsSubs(cfg: Config, s: Sys, step: Step)
    requires SubInv(s) && OneLink(s.c) && Conserved(s.c) && Enabled(s, step)
    requires step.UserRequest? || step.UserAuth? || step.UserSubscribe? || step.UserUnsubscribe? || step.UserClose?
    ensures SubInv(Apply(cfg, s, step))
  {
    hide SubInv, Conserved, Issue, Subscribe, RemoveHandler, Close, AuthFrame;
    match step {
      case UserRequest(frame) => IssueKeepsSubs(s, frame, Direct);
      case UserAuth(token) => IssueKeepsSubs(s, AuthFrame(token), AuthOf(token));
      case UserSubscribe(ch, h, f) => SubscribeKeepsSubs(s, ch, h, f);
      case UserUnsubscribe(ch, h) => RemoveKeepsSubs(s, ch, h);
      case UserClose => CloseKeepsSubs(s);
    }
  }

  /** Every step keeps the agreement between the client's map and the frames it submitted. */
  lemma StepKeepsSubs(cfg: Config, s: Sys, step: Step)
    requires SubInv(s) && OneLink(s.c) && DeadIsEmpty(s.c) && Conserved(s.c) && LinkInv(s)
    requires Enabled(s, step)
    ensures SubInv(Apply(cfg, s, step))
  {
    hide SubInv, Conserved, LinkInv, Issue, EnsureReady, Subscribe, RemoveHandler, Close, SendNext, Continue, OnOpen;
    hide RequestTimeout, HandleDisconnect, OnData, ParseAll, Encode, Hello, AuthFrame, Open, TryConsume, Flush;
    var c, t := s.c, Apply(cfg, s, step);
    match step {
      case UserRequest(_) => UserStepKeepsSubs(cfg, s, step);
      case UserAuth(_) => UserStepKeepsSubs(cfg, s, step);
      case UserSubscribe(_, _, _) => UserStepKeepsSubs(cfg, s, step);
      case UserUnsubscribe(_, _) => UserStepKeepsSubs(cfg, s, step);
      case UserClose => UserStepKeepsSubs(cfg, s, step);
      case Wake => WakeKeepsSubs(s);
      case SendFrame(w) => SendStepKeepsSubs(cfg, s, w);
      case RunContinuation => ContinueKeepsSubs(s);
      case DialOk(ws) => OpenStepKeepsSubs(cfg, s, ws);
      case DialFail(j) =>
        UnchangedKeepsSubs(s, s.(c := c.(dialing := false)));
        DisconnectKeepsSubs(cfg, s.(c := c.(dialing := false)), j);
      case ReconnectTimer => UnchangedKeepsSubs(s, t);
      case Timeout(id, j) => TimeoutKeepsSubs(cfg, s, id, j);
      case SocketClosed(j) => DisconnectKeepsSubs(cfg, s, j);
      case Data(n) => DataStepKeepsSubs(cfg, s, n);
      case StrayData(chunk) => StrayDataKeepsSubs(s, chunk);
      case DrainSocket(_) => UnchangedKeepsSubs(s, t);
      case Deliver(_, _) => UnchangedKeepsSubs(s, t);
      case Greet(_) => UnchangedKeepsSubs(s, t);
      case Serve(_, _) => UnchangedKeepsSubs(s, t);
      case Emit(_, _) => UnchangedKeepsSubs(s, t);
    }
  }
}
