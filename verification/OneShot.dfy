/**
 One request on a connection of its own (`sendOneShotParsed`). Its callbacks may come
 in any order and any number: `Step` lists them, `Apply` says what each does, and
 the class below is the closure state they update.
 */
module OneShot {
  import opened Bytes
  import opened Frames
  import opened Responses

  datatype Outcome = Resolved(response: Response) | TimedOut | ConnectionClosed | SocketError | DialFailed

  /**
   `held` is whether socketRef is set, `ended` whether end() was called on it,
   `outcomes` every call of resolve or reject, `wrote` every byte the socket took.
   */
  datatype Shot = Shot(settled: bool, inbound: bytes, pending: Option<bytes>, held: bool, ended: bool,
                       outcomes: seq<Outcome>, wrote: bytes)

  /** Open and Drain carry the result of socket.write, Connected is the await of Bun.connect returning. */
  datatype Step = Open(w: int) | Drain(w: int) | Data(chunk: bytes) | Close | Err | Timeout | Connected | ConnectFailed

  function Start(outbound: bytes): Shot
  {
    Shot(false, [], Some(outbound), false, false, [], [])
  }

  function Settle(s: Shot, o: Outcome): Shot
  {
    if s.settled then s else s.(settled := true, ended := s.ended || s.held, outcomes := s.outcomes + [o])
  }

  function Write(s: Shot, w: int): Shot
    requires s.pending.Some? ==> w <= |s.pending.value|
  {
    if s.pending.None? || w < 0 then s
    else s.(wrote := s.wrote + s.pending.value[..w],
            pending := if w < |s.pending.value| then Some(s.pending.value[w..]) else None)
  }

  /** The consume loop: the first frame that is not an event, and the bytes after it. */
  function FirstReply(inbound: bytes): (r: (Option<Frame>, bytes))
    decreases |inbound|
  {
    match TryConsume(inbound)
    case NeedMore => (None, inbound)
    case Got(f, rest) => if IsEvent(f) then FirstReply(rest) else (Some(f), rest)
  }

  function Receive(s: Shot, chunk: bytes): Shot
  {
    if s.settled then s.(inbound := s.inbound + chunk)
    else
      var (reply, rest) := FirstReply(s.inbound + chunk);
      var t := s.(inbound := rest);
      match reply
      case None => t
      case Some(f) => Settle(t, Resolved(BunDecode(f.code, f.payload)))
  }

  predicate Allowed(s: Shot, e: Step)
  {
    (e.Open? || e.Drain?) && s.pending.Some? ==> e.w <= |s.pending.value|
  }

  function Apply(s: Shot, e: Step): Shot
    requires Allowed(s, e)
  {
    match e
    case Open(w) => Write(s, w)
    case Drain(w) => Write(s, w)
    case Data(chunk) => Receive(s, chunk)
    case Close => Settle(s, ConnectionClosed)
    case Err => Settle(s, SocketError)
    case Timeout => Settle(s, TimedOut)
    case Connected => s.(held := true)
    case ConnectFailed => Settle(s, DialFailed)
  }

  predicate IsRun(s: Shot, es: seq<Step>)
    decreases |es|
  {
    es == [] || (Allowed(s, es[0]) && IsRun(Apply(s, es[0]), es[1..]))
  }

  function Run(s: Shot, es: seq<Step>): Shot
    requires IsRun(s, es)
    decreases |es|
  {
    if es == [] then s else Run(Apply(s, es[0]), es[1..])
  }

  // ---------------------------------------------------------------------------
  // What every run keeps
  // ---------------------------------------------------------------------------

  /** The bytes the socket delivered in a run. */
  function Stream(es: seq<Step>): bytes
  {
    if es == [] then [] else (if es[0].Data? then es[0].chunk else []) + Stream(es[1..])
  }

  function Unsent(s: Shot): bytes
  {
    if s.pending.None? then [] else s.pending.value
  }

  /** The reply a stream calls for, once it holds one. */
  function ReplyIn(stream: bytes): Option<Response>
  {
    var rs := Replies(ParseAll(stream).0);
    if rs == [] then None else Some(BunDecode(rs[0].code, rs[0].payload))
  }

  ghost predicate Inv(s: Shot, outbound: bytes, stream: bytes)
  {
    && |s.outcomes| == (if s.settled then 1 else 0)
    && s.wrote + Unsent(s) == outbound
    && (!s.settled ==> ReplyIn(stream) == None && s.inbound == ParseAll(stream).1)
    && (s.settled && s.outcomes[0].Resolved? ==> ReplyIn(stream) == Some(s.outcomes[0].response))
    && (s.ended ==> s.settled && s.held)
  }

  /** The loop finds the first reply among the frames the buffer parses to. */
  lemma {:induction false} FirstReplyIsFirst(inbound: bytes)
    ensures var (reply, rest) := FirstReply(inbound);
            var rs := Replies(ParseAll(inbound).0);
            && (reply.None? <==> rs == [])
            && (reply.Some? ==> reply.value == rs[0])
            && (reply.None? ==> rest == ParseAll(inbound).1)
    decreases |inbound|
  {
    hide TryConsume, EncodeAll, Encode;
    match TryConsume(inbound)
    case NeedMore =>
    case Got(f, rest) =>
      var fs := ParseAll(rest).0;
      assert ParseAll(inbound).0 == [f] + fs;
      assert ([f] + fs)[1..] == fs;
      if IsEvent(f) {
        FirstReplyIsFirst(rest);
      }
  }

  /** More bytes keep the reply a stream already holds, and otherwise only the leftover matters. */
  lemma {:induction false} ReplyAppend(stream: bytes, chunk: bytes)
    ensures ReplyIn(stream).Some? ==> ReplyIn(stream + chunk) == ReplyIn(stream)
    ensures ReplyIn(stream).None? ==> ReplyIn(stream + chunk) == ReplyIn(ParseAll(stream).1 + chunk)
    ensures ParseAll(stream + chunk).1 == ParseAll(ParseAll(stream).1 + chunk).1
  {
    hide ParseAll, EncodeAll, TryConsume, Replies, BunDecode;
    var (fs, left) := ParseAll(stream);
    var gs := ParseAll(left + chunk).0;
    ParseAppend(stream, chunk);
    RepliesAppend(fs, gs);
    assert ReplyIn(stream).None? ==> Replies(fs) + Replies(gs) == Replies(gs);
  }

  lemma DataKeeps(s: Shot, chunk: bytes, outbound: bytes, stream: bytes)
    requires Inv(s, outbound, stream)
    ensures Inv(Receive(s, chunk), outbound, stream + chunk)
  {
    hide ParseAll, EncodeAll, TryConsume, Replies, BunDecode, FirstReply;
    ReplyAppend(stream, chunk);
    FirstReplyIsFirst(s.inbound + chunk);
    if !s.settled {
      var (reply, rest) := FirstReply(s.inbound + chunk);
      assert ReplyIn(stream + chunk) ==
             match reply case None => None case Some(f) => Some(BunDecode(f.code, f.payload));
    }
  }

  lemma StepKeeps(s: Shot, e: Step, outbound: bytes, stream: bytes)
    requires Allowed(s, e) && Inv(s, outbound, stream)
    ensures Inv(Apply(s, e), outbound, stream + if e.Data? then e.chunk else [])
  {
    hide ReplyIn, ParseAll, Receive;
    if e.Data? {
      DataKeeps(s, e.chunk, outbound, stream);
    } else {
      assert stream + [] == stream;
    }
  }

  lemma {:induction false} StreamSplits(stream: bytes, es: seq<Step>)
    requires es != []
    ensures stream + (if es[0].Data? then es[0].chunk else []) + Stream(es[1..]) == stream + Stream(es)
  {
    var more := if es[0].Data? then es[0].chunk else [];
    assert Stream(es) == more + Stream(es[1..]);
    hide Stream;
    AppendAssoc(stream, more, Stream(es[1..]));
  }

  lemma {:induction false} RunKeeps(s: Shot, es: seq<Step>, outbound: bytes, stream: bytes)
    requires IsRun(s, es) && Inv(s, outbound, stream)
    ensures Inv(Run(s, es), outbound, stream + Stream(es))
    decreases |es|
  {
    hide Inv, Apply, Allowed;
    if es == [] {
      assert stream + Stream(es) == stream;
    } else {
      var more := if es[0].Data? then es[0].chunk else [];
      StepKeeps(s, es[0], outbound, stream);
      RunKeeps(Apply(s, es[0]), es[1..], outbound, stream + more);
      StreamSplits(stream, es);
    }
  }

  lemma StartInv(outbound: bytes)
    ensures Inv(Start(outbound), outbound, [])
  {
    hide EncodeAll;
    EmptyHasNoFrame();
    assert ParseAll([]) == ([], []);
    assert [] + outbound == outbound;
  }

  /** Whatever the order of the callbacks: settled at most once, and no byte lost, repeated or reordered. */
  lemma {:induction false} SettlesAtMostOnce(outbound: bytes, es: seq<Step>)
    requires IsRun(Start(outbound), es)
    ensures var s := Run(Start(outbound), es);
            && |s.outcomes| <= 1
            && (s.settled <==> s.outcomes != [])
            && s.wrote + Unsent(s) == outbound
  {
    hide Start, Run, IsRun, ReplyIn;
    StartInv(outbound);
    RunKeeps(Start(outbound), es, outbound, []);
  }

  predicate Ends(e: Step) { e.Close? || e.Err? || e.Timeout? || e.ConnectFailed? }

  /**
   A resolved request got the first non-event frame of everything the socket delivered,
   however it was cut; and while nothing else ends the request, that frame is what
   settles it as soon as it is there.
   */
  lemma {:induction false} ReturnsFirstReply(outbound: bytes, es: seq<Step>)
    requires IsRun(Start(outbound), es)
    ensures var s := Run(Start(outbound), es);
            && (forall r :: s.outcomes == [Resolved(r)] ==> ReplyIn(Stream(es)) == Some(r))
            && (ReplyIn(Stream(es)).Some? ==> s.settled)
            && ((forall e | e in es :: !Ends(e)) ==>
                  s.outcomes == match ReplyIn(Stream(es)) case Some(r) => [Resolved(r)] case None => [])
  {
    hide ReplyIn, Start, ParseAll;
    StartInv(outbound);
    RunKeeps(Start(outbound), es, outbound, []);
    var s := Run(Start(outbound), es);
    assert [] + Stream(es) == Stream(es);
    if forall e | e in es :: !Ends(e) {
      OnlyReplies(Start(outbound), es) by { assert Start(outbound).outcomes == [] by { StartEmpty(outbound); } }
      assert s.settled ==> s.outcomes == [s.outcomes[0]] && s.outcomes[0].Resolved?;
    }
  }

  /** The error each ending callback gives the caller. */
  function ErrorOf(e: Step): Option<Outcome>
  {
    match e
    case Close => Some(ConnectionClosed)
    case Err => Some(SocketError)
    case Timeout => Some(TimedOut)
    case ConnectFailed => Some(DialFailed)
    case _ => None
  }

  /** What a request comes to: the reply, if the stream holds one before any ending, or the first ending's error. */
  function Expected(stream: bytes, es: seq<Step>): seq<Outcome>
    decreases |es|
  {
    if es == [] then []
    else
      var now := stream + if es[0].Data? then es[0].chunk else [];
      if es[0].Data? && ReplyIn(now).Some? then [Resolved(ReplyIn(now).value)]
      else if ErrorOf(es[0]).Some? then [ErrorOf(es[0]).value]
      else Expected(now, es[1..])
  }

  lemma {:induction false} RunsAsExpected(s: Shot, es: seq<Step>, outbound: bytes, stream: bytes)
    requires IsRun(s, es) && Inv(s, outbound, stream) && !s.settled
    ensures Run(s, es).outcomes == Expected(stream, es)
    decreases |es|
  {
    hide ReplyIn, Receive, BunDecode;
    if es != [] {
      var e, t := es[0], Apply(s, es[0]);
      var now := stream + if e.Data? then e.chunk else [];
      StepKeeps(s, e, outbound, stream);
      if t.settled {
        SettledStays(t, es[1..]);
        StepSettles(s, e, outbound, stream);
      } else {
        StaysOpen(s, e, outbound, stream);
        RunsAsExpected(t, es[1..], outbound, now);
      }
    }
  }

  /** The step that settles a request does so with its reply or its error. */
  lemma StepSettles(s: Shot, e: Step, outbound: bytes, stream: bytes)
    requires Allowed(s, e) && Inv(s, outbound, stream) && !s.settled && Apply(s, e).settled
    ensures var t, now := Apply(s, e), stream + if e.Data? then e.chunk else [];
            if e.Data? then ReplyIn(now).Some? && t.outcomes == [Resolved(ReplyIn(now).value)]
            else ErrorOf(e).Some? && t.outcomes == [ErrorOf(e).value]
  {
    hide ReplyIn, BunDecode, FirstReply;
    StepKeeps(s, e, outbound, stream);
    assert s.outcomes == [];
  }

  lemma StaysOpen(s: Shot, e: Step, outbound: bytes, stream: bytes)
    requires Allowed(s, e) && Inv(s, outbound, stream) && !s.settled && !Apply(s, e).settled
    ensures ErrorOf(e).None? && (e.Data? ==> ReplyIn(stream + e.chunk).None?)
  {
    hide ReplyIn, BunDecode, FirstReply;
    StepKeeps(s, e, outbound, stream);
  }

  /** For any order of callbacks the outcome is exactly the one expected of them. */
  lemma OutcomeIsExpected(outbound: bytes, es: seq<Step>)
    requires IsRun(Start(outbound), es)
    ensures Run(Start(outbound), es).outcomes == Expected([], es)
  {
    hide Run, Expected, ReplyIn, Inv;
    StartInv(outbound);
    RunsAsExpected(Start(outbound), es, outbound, []);
  }

  /** The client counts as written exactly what the socket says it took. */
  lemma CountsWhatWasTaken(s: Shot, e: Step)
    requires Allowed(s, e) && s.pending.Some?
    ensures |Apply(s, e).wrote| == |s.wrote| + if (e.Open? || e.Drain?) && e.w > 0 then e.w else 0
  {
    hide FirstReply, BunDecode;
  }

  lemma StartEmpty(outbound: bytes)
    ensures Start(outbound).outcomes == []
  {}

  lemma {:induction false} OnlyReplies(s: Shot, es: seq<Step>)
    requires IsRun(s, es)
    requires forall o | o in s.outcomes :: o.Resolved?
    requires forall e | e in es :: !Ends(e)
    ensures forall o | o in Run(s, es).outcomes :: o.Resolved?
    decreases |es|
  {
    hide FirstReply, BunDecode;
    if es != [] {
      assert es[0] in es && !Ends(es[0]);
      assert forall e | e in es[1..] :: e in es;
      OnlyReplies(Apply(s, es[0]), es[1..]);
    }
  }

  lemma {:induction false} SettledStays(s: Shot, es: seq<Step>)
    requires IsRun(s, es) && s.settled
    ensures Run(s, es).outcomes == s.outcomes && Run(s, es).settled && Run(s, es).ended == s.ended
    decreases |es|
  {
    hide FirstReply, BunDecode;
    if es != [] {
      SettledStays(Apply(s, es[0]), es[1..]);
    }
  }

  lemma {:induction false} HeldOnceConnected(s: Shot, es: seq<Step>)
    requires IsRun(s, es)
    ensures Run(s, es).held <==> s.held || Connected in es
    decreases |es|
  {
    hide FirstReply, BunDecode;
    if es != [] {
      HeldOnceConnected(Apply(s, es[0]), es[1..]);
      assert es == [es[0]] + es[1..];
    }
  }

  /** The connection of a settled request is ended exactly when Bun.connect had returned before it settled. */
  lemma {:induction false} EndedIffConnectedFirst(outbound: bytes, before: seq<Step>, e: Step, after: seq<Step>)
    requires IsRun(Start(outbound), before)
    requires var s := Run(Start(outbound), before);
             !s.settled && Allowed(s, e) && Apply(s, e).settled && IsRun(Apply(s, e), after)
    ensures var s := Run(Start(outbound), before);
            Run(Apply(s, e), after).ended <==> Connected in before
  {
    hide FirstReply, BunDecode, ReplyIn;
    var s := Run(Start(outbound), before);
    StartInv(outbound);
    RunKeeps(Start(outbound), before, outbound, []);
    HeldOnceConnected(Start(outbound), before);
    SettledStays(Apply(s, e), after);
  }

  /** A callback in which the socket takes bytes. */
  predicate Takes(e: Step) { (e.Open? || e.Drain?) && e.w > 0 }

  lemma {:induction false} WroteGrows(s: Shot, es: seq<Step>)
    requires IsRun(s, es)
    ensures |s.wrote| <= |Run(s, es).wrote|
    decreases |es|
  {
    hide FirstReply, BunDecode;
    if es != [] {
      WroteGrows(Apply(s, es[0]), es[1..]);
    }
  }

  /**
   When a settled request still writes: exactly when bytes are left unsent and some later open
   or drain callback finds the socket taking any; being settled plays no part.
   */
  lemma {:induction false} WritesAfterSettlingIff(s: Shot, es: seq<Step>)
    requires IsRun(s, es) && s.settled
    ensures Run(s, es).wrote != s.wrote <==> Unsent(s) != [] && exists k :: 0 <= k < |es| && Takes(es[k])
    decreases |es|
  {
    hide FirstReply, BunDecode;
    if es != [] {
      var u := Apply(s, es[0]);
      WritesAfterSettlingIff(u, es[1..]);
      WroteGrows(u, es[1..]);
      if k :| 0 <= k < |es[1..]| && Takes(es[1..][k]) {
        assert Takes(es[k + 1]);
      }
      if k :| 1 <= k < |es| && Takes(es[k]) {
        assert Takes(es[1..][k - 1]);
      }
      if Unsent(s) != [] && Takes(es[0]) {
        assert |u.wrote| > |s.wrote|;
      } else {
        assert u.wrote == s.wrote && (Unsent(s) != [] <==> Unsent(u) != []);
      }
    }
  }

  /**
   A request that timed out while dialing is still sent: the open callback writes without
   looking at `settled`, and the socket that arrives later is never ended.
   */
  lemma TimedOutStillSent(outbound: bytes)
    requires outbound != []
    ensures var es := [Timeout, Open(|outbound|), Connected];
            && IsRun(Start(outbound), es)
            && var s := Run(Start(outbound), es);
               s.outcomes == [TimedOut] && s.wrote == outbound && s.held && !s.ended
  {
    var a := Start(outbound);
    var b := Apply(a, Timeout);
    var c := Apply(b, Open(|outbound|));
    var es := [Timeout, Open(|outbound|), Connected];
    assert es[1..] == [Open(|outbound|), Connected] && es[1..][1..] == [Connected];
    assert [] + outbound[..|outbound|] == outbound;
    assert IsRun(c, [Connected]) && Run(c, [Connected]) == Apply(c, Connected) by { assert [Connected][1..] == []; }
    assert IsRun(b, es[1..]) && Run(b, es[1..]) == Apply(c, Connected);
  }

  // ---------------------------------------------------------------------------
  // The closure state
  // ---------------------------------------------------------------------------

  class Request {
    var settled: bool
    var inbound: bytes
    var pendingBytes: Option<bytes>
    var socketRef: bool
    var ended: bool
    var outcomes: seq<Outcome>
    var wrote: bytes

    function Abs(): Shot
      reads this
    {
      Shot(settled, inbound, pendingBytes, socketRef, ended, outcomes, wrote)
    }

    constructor (outbound: bytes)
      ensures Abs() == Start(outbound)
    {
      settled, inbound, pendingBytes := false, [], Some(outbound);
      socketRef, ended, outcomes, wrote := false, false, [], [];
    }

    method Finalize(o: Outcome)
      modifies this`settled, this`ended, this`outcomes
      ensures Abs() == Settle(old(Abs()), o)
    {
      if settled {
        return;
      }
      settled := true;
      if socketRef {
        ended := true;
      }
      outcomes := outcomes + [o];
    }

    /** writeChunk, given the result of socket.write */
    method WriteChunk(written: int)
      requires pendingBytes.Some? ==> written <= |pendingBytes.value|
      modifies this`pendingBytes, this`wrote
      ensures Abs() == Write(old(Abs()), written)
    {
      if pendingBytes == None || written < 0 {
        return;
      }
      wrote := wrote + pendingBytes.value[..written];
      if written < |pendingBytes.value| {
        pendingBytes := Some(pendingBytes.value[written..]);
      } else {
        pendingBytes := None;
      }
    }

    method OnData(chunk: bytes)
      modifies this`inbound, this`settled, this`ended, this`outcomes
      ensures Abs() == Receive(old(Abs()), chunk)
    {
      hide TryConsume, Encode, BunDecode;
      ghost var s := Abs();
      inbound := inbound + chunk;
      ghost var start := inbound;
      while !settled
        invariant settled == s.settled
        invariant !settled ==> FirstReply(start) == FirstReply(inbound)
        invariant Abs() == s.(inbound := inbound) && (settled ==> inbound == start)
        decreases |inbound|
      {
        Progress(inbound);
        var frame := TryConsume(inbound);
        if frame == NeedMore {
          return;
        }
        inbound := frame.rest;
        if IsEvent(frame.frame) {
          continue;
        }
        Finalize(Resolved(BunDecode(frame.frame.code, frame.frame.payload)));
        return;
      }
    }

    /** close(), the error callback, the timer and a failed dial: each settles with its own error. */
    method OnEnd(e: Step)
      requires Ends(e)
      modifies this`settled, this`ended, this`outcomes
      ensures Abs() == Apply(old(Abs()), e)
    {
      match e
      case Close =>
        if !settled {
          Finalize(ConnectionClosed);
        }
      case Err => Finalize(SocketError);
      case Timeout => Finalize(TimedOut);
      case ConnectFailed => Finalize(DialFailed);
    }

    method OnConnected()
      modifies this`socketRef
      ensures Abs() == Apply(old(Abs()), Connected)
    {
      socketRef := true;
    }
  }

  lemma Progress(inbound: bytes)
    ensures TryConsume(inbound).Got? ==> |TryConsume(inbound).rest| < |inbound|
  {}
}
