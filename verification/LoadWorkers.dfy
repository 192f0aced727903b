/**
 One phase of the load generator: N worker threads share an operation counter, the
 result totals and the latency array, and each drives its own connection with a
 pipeline of requests. A step touches at most one shared location, so every
 interleaving of the threads and of the server is a sequence of steps.
 */
module LoadWorkers {
  import opened Bytes
  import opened Frames
  import opened LoadWriter
  import LoadBuffers

  /** Where a worker stands in its program; an operation it has claimed but not yet sent is held here. */
  datatype Pc =
    | Fill
    | FillWrite(op: nat)
    | FlushFill
    | Drain
    | Claim
    | Replace(op: nat)
    | ReportSucceeded
    | ReportFailed
    | Done

  /**
   ring, succeeded and failed are the worker's locals. `claims`, `sent`, `answered` and
   `lost` record the operations it claimed, wrote, got a response for, and gave up on, and
   `commands` the frames written for `sent`. `exhausted` says that it found the counter past
   the end, `dead` that a flush or a read failed, and `firstFail` how many bytes the stream
   had taken when a command write first failed. The connection is the writer, the frames
   the server sent, and their bytes not yet consumed, on the wire or in the read buffer.
   */
  datatype Worker = Worker(pc: Pc, ring: seq<nat>, succeeded: nat, failed: nat,
                           claims: seq<nat>, sent: seq<nat>, commands: seq<Frame>, answered: seq<nat>, lost: seq<nat>,
                           exhausted: bool, dead: bool, firstFail: Option<nat>,
                           writer: Writer, replies: seq<Frame>, wire: bytes, private: bytes)

  /** A write or a read has failed. */
  predicate Hurt(v: Worker) { v.dead || v.firstFail.Some? }

  /** `stored` lists the indices of the latency array written so far. */
  datatype Load = Load(total: nat, cap: nat, transfer: bool, measure: bool,
                       counter: nat, succeeded: nat, failed: nat, broken: bool, stored: seq<nat>,
                       workers: seq<Worker>)

  datatype Action =
    | FetchAdd                             // claim the next operation, if any is left
    | WriteOk(f: Frame)                    // write the command (and, for a replacement, flush it)
    | WriteFail(f: Frame, i: nat, a: nat)  // the flush of block i inside the write fails, a bytes taken
    | FlushOk                              // the flush after the fill loop
    | FlushFail(a: nat)
    | ReplaceFail(f: Frame, a: nat)        // the write of a replacement succeeds and its flush fails
    | Consume(k: nat, ok: bool)            // take one response, with k bytes drawn from the wire
    | ConsumeFail
    | Report                               // add a local count to the shared one
    | Reply(f: Frame)                      // the server answers

  datatype Step = Step(w: nat, act: Action)

  const IDLE := Worker(Fill, [], 0, 0, [], [], [], [], [], false, false, None, FRESH, [], [], [])

  /** runPhase before its threads start, on n connections with nothing in flight either way. */
  function Start(n: nat, total: nat, inflight: nat, transfer: bool, measure: bool): Load
  {
    Load(total, LoadBuffers.RingCap(inflight), transfer, measure, 0, 0, 0, false, [], seq(n, _ => IDLE))
  }

  /** The head of the main loop. */
  function Loop(ring: seq<nat>): Pc { if ring == [] then ReportSucceeded else Drain }

  function Abandon(v: Worker, also: seq<nat>): Worker
  {
    v.(pc := ReportSucceeded, ring := [], failed := v.failed + |v.ring| + |also|,
       lost := v.lost + v.ring + also, dead := true)
  }

  predicate Writing(v: Worker) { v.pc.FillWrite? || v.pc.Replace? }

  /** The server answers each whole frame it receives once, and sends nothing else. */
  predicate EnabledAct(l: Load, v: Worker, act: Action)
  {
    match act
    case FetchAdd => v.pc in {Fill, Claim}
    case WriteOk(f) => Writing(v)
    case WriteFail(f, i, a) => Writing(v) && CanFail(v.writer, Encode(f), i, a)
    case FlushOk => v.pc.FlushFill?
    case FlushFail(a) => v.pc.FlushFill? && v.writer.buffered != [] && a <= |v.writer.buffered|
    case ReplaceFail(f, a) =>
      v.pc.Replace? && var b := Put(v.writer, Encode(f)).buffered; b != [] && a <= |b|
    case Consume(k, ok) =>
      && v.pc.Drain? && v.ring != [] && k <= |v.wire|
      && var r := TryConsume(v.private + v.wire[..k]);
         && r.Got? && !LoadBuffers.BadHeader(r.frame.code, |r.frame.payload|)
         && ok == LoadBuffers.Succeeds(l.transfer, r.frame)
    case ConsumeFail => v.pc.Drain?
    case Report => v.pc in {ReportSucceeded, ReportFailed}
    case Reply(f) => |v.replies| < |ParseAll(v.writer.taken).0|
  }

  predicate Enabled(l: Load, e: Step)
  {
    e.w < |l.workers| && EnabledAct(l, l.workers[e.w], e.act)
  }

  /** The writer after a step. */
  function WriterAfter(l: Load, v: Worker, act: Action): Writer
    requires EnabledAct(l, v, act)
  {
    match act
    case WriteOk(f) => if v.pc.FillWrite? then Put(v.writer, Encode(f)) else Flush(Put(v.writer, Encode(f)))
    case WriteFail(f, i, a) => PutFails(v.writer, Encode(f), i, a)
    case FlushOk => Flush(v.writer)
    case FlushFail(a) => FlushFails(v.writer, a)
    case ReplaceFail(f, a) => FlushFails(Put(v.writer, Encode(f)), a)
    case _ => v.writer
  }

  /** The worker after a step but for its writer; `l` is the shared state it sees. */
  function Moves(l: Load, v: Worker, act: Action): Worker
    requires EnabledAct(l, v, act)
  {
    match act
    case FetchAdd =>
      var op := l.counter;
      if op < l.total then v.(pc := if v.pc.Fill? then FillWrite(op) else Replace(op), claims := v.claims + [op])
      else v.(pc := if v.pc.Fill? then FlushFill else Loop(v.ring), exhausted := true)
    case WriteOk(f) =>
      var ring := v.ring + [v.pc.op];
      var full := if |ring| < l.cap then Fill else FlushFill;
      v.(pc := if v.pc.FillWrite? then full else Drain, ring := ring,
         sent := v.sent + [v.pc.op], commands := v.commands + [f])
    case WriteFail(f, i, a) =>
      v.(pc := if v.pc.FillWrite? then FlushFill else Loop(v.ring), failed := v.failed + 1, lost := v.lost + [v.pc.op],
         firstFail := if v.firstFail.Some? then v.firstFail else Some(|v.writer.taken|))
    case FlushOk => v.(pc := Loop(v.ring))
    case FlushFail(a) => Abandon(v, [])
    case ReplaceFail(f, a) => Abandon(v, [v.pc.op])
    case Consume(k, ok) =>
      v.(pc := Claim, ring := v.ring[1..], answered := v.answered + [v.ring[0]],
         succeeded := v.succeeded + (if ok then 1 else 0), failed := v.failed + (if ok then 0 else 1),
         private := TryConsume(v.private + v.wire[..k]).rest, wire := v.wire[k..])
    case ConsumeFail => Abandon(v, [])
    case Report => v.(pc := if v.pc.ReportSucceeded? then ReportFailed else Done)
    case Reply(f) => v.(replies := v.replies + [f], wire := v.wire + Encode(f))
  }

  function Local(l: Load, v: Worker, act: Action): Worker
    requires EnabledAct(l, v, act)
  {
    Moves(l, v, act).(writer := WriterAfter(l, v, act))
  }

  function Apply(l: Load, e: Step): (r: Load)
    requires Enabled(l, e)
    ensures r.total == l.total && r.cap == l.cap && r.measure == l.measure && |r.workers| == |l.workers|
  {
    var v := l.workers[e.w];
    var m := l.(workers := l.workers[e.w := Local(l, v, e.act)]);
    match e.act
    case FetchAdd => m.(counter := l.counter + 1)
    case FlushFail(_) => m.(broken := true)
    case ReplaceFail(_, _) => m.(broken := true)
    case ConsumeFail => m.(broken := true)
    case Consume(_, _) => m.(stored := if l.measure then l.stored + [v.ring[0]] else l.stored)
    case Report =>
      if v.pc.ReportSucceeded? then m.(succeeded := l.succeeded + v.succeeded) else m.(failed := l.failed + v.failed)
    case _ => m
  }

  ghost predicate IsRun(l: Load, es: seq<Step>)
    decreases |es|
  {
    es == [] || (Enabled(l, es[0]) && IsRun(Apply(l, es[0]), es[1..]))
  }

  ghost function Run(l: Load, es: seq<Step>): Load
    requires IsRun(l, es)
    decreases |es|
  {
    if es == [] then l else Run(Apply(l, es[0]), es[1..])
  }

  // ---------------------------------------------------------------------------
  // What one worker keeps
  // ---------------------------------------------------------------------------

  function Held(v: Worker): seq<nat>
  {
    if Writing(v) then [v.pc.op] else []
  }

  predicate Filling(v: Worker) { v.pc in {Fill, FlushFill} || v.pc.FillWrite? }

  predicate Over(v: Worker) { v.pc in {ReportSucceeded, ReportFailed, Done} }

  /** Every claimed operation is answered, lost, in the ring or held, and every answered or lost one is counted. */
  ghost predicate Balanced(v: Worker)
  {
    && multiset(v.claims) == multiset(v.answered) + multiset(v.lost) + multiset(v.ring) + multiset(Held(v))
    && v.succeeded + v.failed == |v.answered| + |v.lost|
  }

  /** Between the fill loop and the end of the operations the pipeline is kept full. */
  predicate Full(cap: nat, v: Worker)
  {
    && (v.pc.FlushFill? || v.pc.Drain? ==> |v.ring| == cap)
    && (v.pc.Claim? || v.pc.Replace? ==> |v.ring| + 1 == cap)
  }

  /** Where the worker stands says how full its ring is; an unhurt one ends only with all operations claimed. */
  ghost predicate Placed(cap: nat, v: Worker)
  {
    && (v.pc in {Fill, Claim} || Held(v) != [] ==> |v.ring| < cap)
    && |v.ring| <= cap
    && (v.pc.Drain? ==> v.ring != [])
    && (Over(v) ==> v.ring == []) && (v.dead ==> Over(v))
    && (!Hurt(v) && v.pc.FlushFill? && v.ring == [] ==> v.exhausted)
    && (!Hurt(v) && Over(v) ==> v.exhausted)
    && (!Hurt(v) ==> v.lost == [])
    && (!Hurt(v) && !v.exhausted ==> Full(cap, v))
  }

  /**
   Until a flush or read fails, the ring holds what waits for a response; unread bytes are the
   replies not yet taken.
   */
  ghost predicate InStep(v: Worker)
  {
    && |v.commands| == |v.sent|
    && (!v.dead ==> v.sent == v.answered + v.ring)
    && |v.answered| <= |v.replies| <= |ParseAll(v.writer.taken).0|
    && v.private + v.wire == EncodeAll(v.replies[|v.answered|..])
  }

  /**
   Before any failed write the writer holds exactly the commands sent. After one, more is taken
   or buffered than was sent; and once the fill loop is over, the stream has taken exactly the
   commands sent as long as it took nothing since the failure, and too much as soon as it did.
   */
  ghost predicate InOrder(v: Worker)
  {
    var w, good := v.writer, EncodeAll(v.commands);
    !v.dead ==>
      match v.firstFail
      case None => Written(w) == good && |w.buffered| < BUF_LEN && (!Filling(v) ==> w.buffered == [])
      case Some(n) =>
        && n <= |w.taken| && |w.buffered| <= BUF_LEN && |Written(w)| > |good|
        && !v.pc.Fill? && !v.pc.FillWrite?
        && (v.pc.FlushFill? ==> w.buffered != [])
        && (!v.pc.FlushFill? && |w.taken| == n ==> w.taken == good)
        && (!v.pc.FlushFill? && |w.taken| > n ==> |w.taken| > |good|)
  }

  /** The successes counted are the responses taken that deserve it. */
  ghost predicate Scored(transfer: bool, v: Worker)
  {
    |v.answered| <= |v.replies| && v.succeeded == LoadBuffers.CountWon(transfer, v.replies[..|v.answered|])
  }

  lemma AbandonBalanced(v: Worker)
    requires Balanced(v)
    ensures Balanced(Abandon(v, Held(v)))
  {
    assert multiset(v.lost + v.ring + Held(v)) == multiset(v.lost) + multiset(v.ring) + multiset(Held(v));
  }

  lemma ConsumeBalanced(v: Worker, u: Worker)
    requires Balanced(v) && v.ring != [] && Held(v) == Held(u) == []
    requires u.claims == v.claims && u.lost == v.lost && u.ring == v.ring[1..] && u.answered == v.answered + [v.ring[0]]
    requires u.succeeded + u.failed == v.succeeded + v.failed + 1
    ensures Balanced(u)
  {
    hide Held;
    assert v.ring == [v.ring[0]] + v.ring[1..];
  }

  lemma LocalBalanced(l: Load, v: Worker, act: Action)
    requires EnabledAct(l, v, act) && Balanced(v)
    ensures Balanced(Local(l, v, act))
  {
    hide TryConsume, Encode, ParseAll, Balanced, Abandon, WriterAfter;
    var u := Moves(l, v, act);
    match act {
      case Consume(k, ok) => ConsumeBalanced(v, u);
      case FlushFail(_) => AbandonBalanced(v);
      case ReplaceFail(_, _) => AbandonBalanced(v);
      case ConsumeFail => AbandonBalanced(v);
      case _ => MoveBalanced(l, v, act);
    }
    BalancedIgnoresWriter(u, WriterAfter(l, v, act));
  }

  lemma BalancedIgnoresWriter(v: Worker, w: Writer)
    requires Balanced(v)
    ensures Balanced(v.(writer := w))
  {}

  /** The steps that only move one operation between two places. */
  lemma MoveBalanced(l: Load, v: Worker, act: Action)
    requires EnabledAct(l, v, act) && Balanced(v)
    requires !act.Consume? && !act.FlushFail? && !act.ReplaceFail? && !act.ConsumeFail?
    ensures Balanced(Moves(l, v, act))
  {
    hide TryConsume, Encode, ParseAll, Abandon, Balanced, Held, Loop;
    var u := Moves(l, v, act);
    HeldIs(v);
    HeldIs(u);
    Moved(v, u);
  }

  lemma HeldIs(v: Worker)
    ensures Held(v) == if v.pc.FillWrite? || v.pc.Replace? then [v.pc.op] else []
    ensures Loop(v.ring).FillWrite? == Loop(v.ring).Replace? == false
  {}

  /** Nothing moved, or one operation was claimed, sent or lost. */
  lemma Moved(v: Worker, u: Worker)
    requires Balanced(v) && u.answered == v.answered && u.succeeded == v.succeeded
    requires || (u.claims == v.claims && u.lost == v.lost && u.ring == v.ring && Held(u) == Held(v) &&
                 u.failed == v.failed)
             || (Held(v) == [] && u.claims == v.claims + Held(u) && u.lost == v.lost && u.ring == v.ring &&
                 u.failed == v.failed)
             || (Held(u) == [] && u.claims == v.claims && u.lost == v.lost && u.ring == v.ring + Held(v) &&
                 u.failed == v.failed)
             || (Held(u) == [] && u.claims == v.claims && u.lost == v.lost + Held(v) && u.ring == v.ring &&
                 u.failed == v.failed + |Held(v)|)
    ensures Balanced(u)
  {
    hide Held;
  }

  lemma LocalPlaced(l: Load, v: Worker, act: Action)
    requires 1 <= l.cap && EnabledAct(l, v, act) && Placed(l.cap, v)
    ensures Placed(l.cap, Local(l, v, act))
  {
    hide TryConsume, Encode, ParseAll, WriterAfter;
  }

  /** The first frame cut from part of a stream of whole frames is the stream's first frame. */
  lemma {:induction false} FirstOfStream(front: bytes, back: bytes, all: seq<Frame>)
    requires front + back == EncodeAll(all) && TryConsume(front).Got?
    ensures var Got(f, rest) := TryConsume(front);
            all != [] && f == all[0] && rest + back == EncodeAll(all[1..])
  {
    hide TryConsume, Encode, ParseAll, WriterAfter;
    ConsumeAppend(front, back);
    EmptyHasNoFrame();
    if all != [] {
      ConsumeEncoded(all[0], EncodeAll(all[1..]));
    }
  }

  /** A writer's taken bytes only grow, and with them the frames the server can parse. */
  lemma TakenGrows(l: Load, v: Worker, act: Action)
    requires EnabledAct(l, v, act)
    ensures v.writer.taken <= WriterAfter(l, v, act).taken
  {
    hide TryConsume, Encode, ParseAll;
  }

  lemma {:induction false} ParsedGrows(a: bytes, b: bytes)
    requires a <= b
    ensures |ParseAll(a).0| <= |ParseAll(b).0|
  {
    hide ParseAll;
    ParseAppend(a, b[|a|..]);
    assert a + b[|a|..] == b;
  }

  lemma LocalInStep(l: Load, v: Worker, act: Action)
    requires EnabledAct(l, v, act) && InStep(v)
    ensures InStep(Local(l, v, act))
  {
    hide TryConsume, Encode, EncodeAll, ParseAll, WriterAfter, LoadBuffers.BadHeader, LoadBuffers.Succeeds;
    TakenGrows(l, v, act);
    ParsedGrows(v.writer.taken, WriterAfter(l, v, act).taken);
    var n := |v.answered|;
    match act
    case WriteOk(f) =>
      AppendAssoc(v.answered, v.ring, [v.pc.op]);
    case Consume(k, ok) =>
      AppendAssoc(v.private, v.wire[..k], v.wire[k..]);
      assert v.wire == v.wire[..k] + v.wire[k..];
      FirstOfStream(v.private + v.wire[..k], v.wire[k..], v.replies[n..]);
      assert v.replies[n..][1..] == v.replies[n + 1..];
      assert v.ring == [v.ring[0]] + v.ring[1..];
      AppendAssoc(v.answered, [v.ring[0]], v.ring[1..]);
    case Reply(f) =>
      assert WriterAfter(l, v, act) == v.writer by { SameWriter(l, v, act); }
      EncodeAllAppend(v.replies[n..], [f]);
      EncodeOne(f);
      assert (v.replies + [f])[n..] == v.replies[n..] + [f];
      AppendAssoc(v.private, v.wire, Encode(f));
    case _ =>
  }

  lemma SameWriter(l: Load, v: Worker, act: Action)
    requires EnabledAct(l, v, act) && act.Reply?
    ensures WriterAfter(l, v, act) == v.writer
  {}

  lemma LocalScored(l: Load, v: Worker, act: Action)
    requires EnabledAct(l, v, act) && InStep(v) && Scored(l.transfer, v)
    ensures Scored(l.transfer, Local(l, v, act))
  {
    hide TryConsume, Encode, EncodeAll, ParseAll, WriterAfter, LoadBuffers.BadHeader, LoadBuffers.Succeeds;
    hide LoadBuffers.CountWon;
    var n := |v.answered|;
    match act
    case Consume(k, ok) =>
      AppendAssoc(v.private, v.wire[..k], v.wire[k..]);
      assert v.wire == v.wire[..k] + v.wire[k..];
      FirstOfStream(v.private + v.wire[..k], v.wire[k..], v.replies[n..]);
      assert v.replies[..n + 1] == v.replies[..n] + [v.replies[n]];
      LoadBuffers.CountSnoc(l.transfer, v.replies[..n], v.replies[n]);
    case Reply(f) =>
      assert (v.replies + [f])[..n] == v.replies[..n];
    case _ =>
  }

  lemma LocalInOrder(l: Load, v: Worker, act: Action)
    requires EnabledAct(l, v, act) && InOrder(v)
    ensures InOrder(Local(l, v, act))
  {
    hide TryConsume, Encode, EncodeAll, ParseAll, Put, PutFails, CanFail;
    match act
    case WriteOk(f) => SentInOrder(l, v, f);
    case WriteFail(f, i, a) => FailedInOrder(l, v, f, i, a);
    case _ =>
  }

  lemma SentInOrder(l: Load, v: Worker, f: Frame)
    requires EnabledAct(l, v, WriteOk(f)) && InOrder(v)
    ensures InOrder(Local(l, v, WriteOk(f)))
  {
    hide TryConsume, Encode, EncodeAll, ParseAll, Put;
    PutKeepsBytes(v.writer, Encode(f));
    FrameSize(f);
    EncodeAllAppend(v.commands, [f]);
    EncodeOne(f);
    var p := Put(v.writer, Encode(f));
    assert Flush(p).taken == Written(p);
    assert Written(Flush(p)) == Written(p) by { assert Written(p) + [] == Written(p); }
  }

  lemma FrameSize(f: Frame)
    ensures |Encode(f)| >= 5
  {}

  lemma FailedInOrder(l: Load, v: Worker, f: Frame, i: nat, a: nat)
    requires EnabledAct(l, v, WriteFail(f, i, a)) && InOrder(v)
    ensures InOrder(Local(l, v, WriteFail(f, i, a)))
  {
    hide TryConsume, Encode, EncodeAll, ParseAll, CanFail, PutFails;
    FailedWriteLeavesExtra(v.writer, Encode(f), i, a);
    if i * BUF_LEN + a == 0 { NothingTaken(v.writer, Encode(f), i, a); }
    assert v.writer.buffered == [] ==> Written(v.writer) == v.writer.taken;
  }

  lemma NothingTaken(w: Writer, data: bytes, i: nat, a: nat)
    requires CanFail(w, data, i, a) && i * BUF_LEN + a == 0
    ensures PutFails(w, data, i, a).taken == w.taken
  {}

  // ---------------------------------------------------------------------------
  // Sums over the workers
  // ---------------------------------------------------------------------------

  function Bag(ws: seq<Worker>, f: Worker -> multiset<nat>): multiset<nat>
  {
    if ws == [] then multiset{} else f(ws[0]) + Bag(ws[1..], f)
  }

  function Tally(ws: seq<Worker>, f: Worker -> nat): nat
  {
    if ws == [] then 0 else f(ws[0]) + Tally(ws[1..], f)
  }

  lemma AddSame(a: multiset<nat>, b: multiset<nat>, c: multiset<nat>, x: multiset<nat>, y: multiset<nat>)
    requires c + x == b + y
    ensures (a + c) + x == (a + b) + y
  {
    assert (a + c) + x == a + (c + x);
    assert (a + b) + y == a + (b + y);
  }

  lemma Cancel(b: multiset<nat>, c: multiset<nat>, x: multiset<nat>, d: multiset<nat>)
    requires c + x == b + (x + d)
    ensures c == b + d
  {
    forall n: nat ensures c[n] == (b + d)[n] {
      assert (c + x)[n] == (b + (x + d))[n];
    }
  }

  lemma {:induction false} BagUpdate(ws: seq<Worker>, i: nat, v: Worker, f: Worker -> multiset<nat>)
    requires i < |ws|
    ensures Bag(ws[i := v], f) + f(ws[i]) == Bag(ws, f) + f(v)
  {
    if i == 0 {
      assert ws[0 := v][1..] == ws[1..];
    } else {
      BagUpdate(ws[1..], i - 1, v, f);
      assert ws[i := v][1..] == ws[1..][i - 1 := v];
      AddSame(f(ws[0]), Bag(ws[1..], f), Bag(ws[1..][i - 1 := v], f), f(ws[i]), f(v));
    }
  }

  lemma {:induction false} TallyUpdate(ws: seq<Worker>, i: nat, v: Worker, f: Worker -> nat)
    requires i < |ws|
    ensures Tally(ws[i := v], f) + f(ws[i]) == Tally(ws, f) + f(v)
  {
    if i == 0 {
      assert ws[0 := v][1..] == ws[1..];
    } else {
      TallyUpdate(ws[1..], i - 1, v, f);
      assert ws[i := v][1..] == ws[1..][i - 1 := v];
    }
  }

  function ClaimsOf(v: Worker): multiset<nat> { multiset(v.claims) }

  function AnsweredOf(v: Worker): multiset<nat> { multiset(v.answered) }

  function AddedSucceeded(v: Worker): nat { if v.pc in {ReportFailed, Done} then v.succeeded else 0 }

  function AddedFailed(v: Worker): nat { if v.pc.Done? then v.failed else 0 }

  /** The operations 0 .. n - 1, each once. */
  function Upto(n: nat): multiset<nat>
  {
    if n == 0 then multiset{} else Upto(n - 1) + multiset{n - 1}
  }

  function Given(l: Load): nat { if l.counter < l.total then l.counter else l.total }

  // ---------------------------------------------------------------------------
  // What the whole phase keeps
  // ---------------------------------------------------------------------------

  ghost predicate WorkerInv(l: Load, v: Worker)
  {
    && Balanced(v) && Placed(l.cap, v) && InStep(v) && InOrder(v) && Scored(l.transfer, v)
    && (v.exhausted ==> l.total <= l.counter)
    && (v.dead ==> l.broken)
  }

  ghost predicate Inv(l: Load)
  {
    && 1 <= l.cap
    && (forall i :: 0 <= i < |l.workers| ==> WorkerInv(l, l.workers[i]))
    && Bag(l.workers, ClaimsOf) == Upto(Given(l))
    && multiset(l.stored) == (if l.measure then Bag(l.workers, AnsweredOf) else multiset{})
    && l.succeeded == Tally(l.workers, AddedSucceeded)
    && l.failed == Tally(l.workers, AddedFailed)
    && (l.broken ==> AnyDead(l))
  }

  ghost predicate AnyDead(l: Load) { exists i :: 0 <= i < |l.workers| && l.workers[i].dead }

  lemma BrokenKeep(l: Load, e: Step)
    requires Enabled(l, e) && (l.broken ==> AnyDead(l))
    ensures Apply(l, e).broken ==> AnyDead(Apply(l, e))
  {
    SharedFlags(l, e);
    LocalFlags(l, l.workers[e.w], e.act);
    hide Apply, Local, EnabledAct;
    var m := Apply(l, e);
    if m.broken {
      if Fails(e.act) {
        assert m.workers[e.w].dead;
      } else {
        var i :| 0 <= i < |l.workers| && l.workers[i].dead;
        assert m.workers[i].dead;
      }
    }
  }

  lemma WorkersKeep(l: Load, e: Step, i: nat)
    requires Enabled(l, e) && Inv(l) && i < |l.workers|
    ensures WorkerInv(Apply(l, e), Apply(l, e).workers[i])
  {
    hide Bag, Tally, Upto, Balanced, Placed, InStep, InOrder, Scored, Local, EnabledAct;
    var v := l.workers[e.w];
    assert WorkerInv(l, v) && WorkerInv(l, l.workers[i]);
    LocalBalanced(l, v, e.act);
    LocalPlaced(l, v, e.act);
    LocalInStep(l, v, e.act);
    LocalInOrder(l, v, e.act);
    LocalScored(l, v, e.act);
    LocalFlags(l, v, e.act);
    SharedFlags(l, e);
    hide Apply;
  }

  predicate Fails(act: Action) { act.FlushFail? || act.ReplaceFail? || act.ConsumeFail? }

  lemma LocalFlags(l: Load, v: Worker, act: Action)
    requires EnabledAct(l, v, act)
    ensures Local(l, v, act).exhausted ==> v.exhausted || (act.FetchAdd? && l.total <= l.counter)
    ensures Local(l, v, act).dead <==> v.dead || Fails(act)
  {
    hide TryConsume, Encode, ParseAll, WriterAfter;
  }

  lemma SharedFlags(l: Load, e: Step)
    requires Enabled(l, e)
    ensures var m := Apply(l, e);
            && m.workers == l.workers[e.w := Local(l, l.workers[e.w], e.act)]
            && m.counter >= l.counter && (m.broken <==> l.broken || Fails(e.act))
  {
    hide Local;
  }

  function NewClaim(l: Load, act: Action): seq<nat>
  {
    if act.FetchAdd? && l.counter < l.total then [l.counter] else []
  }

  function NewAnswer(v: Worker, act: Action): seq<nat>
  {
    if act.Consume? && v.ring != [] then [v.ring[0]] else []
  }

  function NewSucceeded(v: Worker, act: Action): nat { if act.Report? && v.pc.ReportSucceeded? then v.succeeded else 0 }

  function NewFailed(v: Worker, act: Action): nat { if act.Report? && v.pc.ReportFailed? then v.failed else 0 }

  /** What a step of a worker adds to each of the sums. */
  lemma LocalAdds(l: Load, v: Worker, act: Action)
    requires EnabledAct(l, v, act)
    ensures var u := Local(l, v, act);
            && u.claims == v.claims + NewClaim(l, act)
            && u.answered == v.answered + NewAnswer(v, act)
            && AddedSucceeded(u) == AddedSucceeded(v) + NewSucceeded(v, act)
            && AddedFailed(u) == AddedFailed(v) + NewFailed(v, act)
  {
    hide TryConsume, Encode, ParseAll, WriterAfter;
  }

  /** And what it adds to the shared state. */
  lemma SharedAdds(l: Load, e: Step)
    requires Enabled(l, e)
    ensures var v := l.workers[e.w];
            var m := Apply(l, e);
            && m.workers == l.workers[e.w := Local(l, v, e.act)]
            && m.counter == l.counter + (if e.act.FetchAdd? then 1 else 0)
            && m.stored == l.stored + (if l.measure then NewAnswer(v, e.act) else [])
            && m.succeeded == l.succeeded + NewSucceeded(v, e.act)
            && m.failed == l.failed + NewFailed(v, e.act)
  {
    hide TryConsume, Encode, Local;
  }

  lemma ClaimsKeep(l: Load, e: Step)
    requires Enabled(l, e) && Inv(l)
    ensures Bag(Apply(l, e).workers, ClaimsOf) == Upto(Given(Apply(l, e)))
  {
    hide Bag, Tally, WorkerInv, Local, EnabledAct, Apply, Upto;
    var v := l.workers[e.w];
    var u, added := Local(l, v, e.act), NewClaim(l, e.act);
    LocalAdds(l, v, e.act);
    SharedAdds(l, e);
    BagUpdate(l.workers, e.w, u, ClaimsOf);
    Cancel(Bag(l.workers, ClaimsOf), Bag(Apply(l, e).workers, ClaimsOf), ClaimsOf(v), multiset(added));
    UptoNext(Given(l));
  }

  lemma UptoNext(n: nat)
    ensures Upto(n + 1) == Upto(n) + multiset([n])
  {}

  lemma StoredKeep(l: Load, e: Step)
    requires Enabled(l, e) && Inv(l)
    ensures var m := Apply(l, e);
            multiset(m.stored) == if l.measure then Bag(m.workers, AnsweredOf) else multiset{}
  {
    hide Bag, Tally, WorkerInv, Upto, Local, EnabledAct, Apply, NewAnswer;
    var v := l.workers[e.w];
    var u, added := Local(l, v, e.act), NewAnswer(v, e.act);
    LocalAdds(l, v, e.act);
    SharedAdds(l, e);
    BagUpdate(l.workers, e.w, u, AnsweredOf);
    Cancel(Bag(l.workers, AnsweredOf), Bag(Apply(l, e).workers, AnsweredOf), AnsweredOf(v), multiset(added));
  }

  lemma TotalsKeep(l: Load, e: Step)
    requires Enabled(l, e) && Inv(l)
    ensures var m := Apply(l, e);
            m.succeeded == Tally(m.workers, AddedSucceeded) && m.failed == Tally(m.workers, AddedFailed)
  {
    hide Bag, Tally, WorkerInv, Upto, Local, EnabledAct, Apply;
    hide AddedSucceeded, AddedFailed, NewSucceeded, NewFailed;
    var v := l.workers[e.w];
    LocalAdds(l, v, e.act);
    SharedAdds(l, e);
    TallyUpdate(l.workers, e.w, Local(l, v, e.act), AddedSucceeded);
    TallyUpdate(l.workers, e.w, Local(l, v, e.act), AddedFailed);
  }

  lemma StepKeepsInv(l: Load, e: Step)
    requires Enabled(l, e) && Inv(l)
    ensures Inv(Apply(l, e))
  {
    hide Bag, Tally, WorkerInv, Upto, Local, EnabledAct;
    forall i: nat | i < |l.workers| ensures WorkerInv(Apply(l, e), Apply(l, e).workers[i]) {
      WorkersKeep(l, e, i);
    }
    ClaimsKeep(l, e);
    StoredKeep(l, e);
    TotalsKeep(l, e);
    BrokenKeep(l, e);
  }

  lemma {:induction false} RunKeepsInv(l: Load, es: seq<Step>)
    requires IsRun(l, es) && Inv(l)
    ensures Inv(Run(l, es)) && Run(l, es).total == l.total && |Run(l, es).workers| == |l.workers|
    decreases |es|
  {
    hide Inv, Enabled;
    if es != [] {
      StepKeepsInv(l, es[0]);
      RunKeepsInv(Apply(l, es[0]), es[1..]);
    }
  }

  lemma {:induction false} EmptySums(ws: seq<Worker>)
    requires forall i :: 0 <= i < |ws| ==> ws[i] == IDLE
    ensures Bag(ws, ClaimsOf) == Bag(ws, AnsweredOf) == multiset{}
    ensures Tally(ws, AddedSucceeded) == Tally(ws, AddedFailed) == 0
  {
    if ws != [] {
      EmptySums(ws[1..]);
    }
  }

  lemma StartInv(n: nat, total: nat, inflight: nat, transfer: bool, measure: bool)
    ensures Inv(Start(n, total, inflight, transfer, measure))
  {
    EmptySums(Start(n, total, inflight, transfer, measure).workers);
    EncodeNone();
    EmptyHasNoFrame();
    assert ParseAll([]) == ([], []);
  }

  /** A state some interleaving of workers and server leads to. */
  ghost predicate Reachable(l: Load)
  {
    exists n: nat, total: nat, inflight: nat, transfer: bool, measure: bool, es: seq<Step> ::
      var s := Start(n, total, inflight, transfer, measure);
      IsRun(s, es) && Run(s, es) == l
  }

  lemma ReachableInv(l: Load)
    requires Reachable(l)
    ensures Inv(l)
  {
    hide Inv, Start;
    var n: nat, total: nat, inflight: nat, transfer: bool, measure: bool, es: seq<Step> :|
      var s := Start(n, total, inflight, transfer, measure);
      IsRun(s, es) && Run(s, es) == l;
    StartInv(n, total, inflight, transfer, measure);
    RunKeepsInv(Start(n, total, inflight, transfer, measure), es);
  }

  // ---------------------------------------------------------------------------
  // Claim-once
  // ---------------------------------------------------------------------------

  lemma {:induction false} UptoCount(n: nat, k: nat)
    ensures Upto(n)[k] == if k < n then 1 else 0
    ensures |Upto(n)| == n
  {
    if n > 0 { UptoCount(n - 1, k); }
  }

  lemma {:induction false} BagOne(ws: seq<Worker>, f: Worker -> multiset<nat>, i: nat, k: nat)
    requires i < |ws|
    ensures f(ws[i])[k] <= Bag(ws, f)[k]
  {
    if i > 0 { BagOne(ws[1..], f, i - 1, k); }
  }

  lemma {:induction false} BagTwo(ws: seq<Worker>, f: Worker -> multiset<nat>, i: nat, j: nat, k: nat)
    requires i < j < |ws|
    ensures f(ws[i])[k] + f(ws[j])[k] <= Bag(ws, f)[k]
  {
    if i > 0 { BagTwo(ws[1..], f, i - 1, j - 1, k); } else { BagOne(ws[1..], f, j - 1, k); }
  }

  lemma {:induction false} BagSome(ws: seq<Worker>, f: Worker -> multiset<nat>, k: nat) returns (i: nat)
    requires Bag(ws, f)[k] > 0
    ensures i < |ws| && f(ws[i])[k] > 0
  {
    if f(ws[0])[k] > 0 {
      i := 0;
    } else {
      i := BagSome(ws[1..], f, k);
      i := i + 1;
    }
  }

  lemma TwicePresent(s: seq<nat>, a: nat, b: nat)
    requires a < b < |s| && s[a] == s[b]
    ensures multiset(s)[s[a]] >= 2
  {
    assert s == s[..b] + s[b..];
    assert s[a] == s[..b][a] && s[b] == s[b..][0];
  }

  ghost predicate Claimed(l: Load, op: nat)
  {
    exists i :: 0 <= i < |l.workers| && op in l.workers[i].claims
  }

  /**
   Each operation index below the counter is claimed by exactly one worker, once; none at or past
   the total ever is.
   */
  lemma ClaimedOnce(l: Load)
    requires Reachable(l)
    ensures forall i: nat, a: nat, j: nat, b: nat
              | i < |l.workers| && j < |l.workers| && a < |l.workers[i].claims| && b < |l.workers[j].claims|
              :: l.workers[i].claims[a] == l.workers[j].claims[b] ==> i == j && a == b
    ensures forall op: nat :: Claimed(l, op) <==> op < Given(l)
  {
    hide Bag, Tally, Upto, WorkerInv, Reachable;
    ReachableInv(l);
    var ws := l.workers;
    forall i: nat, a: nat, j: nat, b: nat |
      i < |ws| && j < |ws| && a < |ws[i].claims| && b < |ws[j].claims| && ws[i].claims[a] == ws[j].claims[b]
      ensures i == j && a == b
    {
      SameClaim(l, i, a, j, b);
    }
    forall op: nat ensures Claimed(l, op) <==> op < Given(l) {
      UptoCount(Given(l), op);
      if op < Given(l) {
        var i := BagSome(ws, ClaimsOf, op);
        assert op in ws[i].claims;
      } else {
        forall i: nat | i < |ws| ensures op !in ws[i].claims {
          BagOne(ws, ClaimsOf, i, op);
        }
      }
    }
  }

  lemma SameClaim(l: Load, i: nat, a: nat, j: nat, b: nat)
    requires Inv(l) && i < |l.workers| && j < |l.workers|
    requires a < |l.workers[i].claims| && b < |l.workers[j].claims|
    requires l.workers[i].claims[a] == l.workers[j].claims[b]
    ensures i == j && a == b
  {
    hide Bag, Tally, Upto, WorkerInv;
    var ws := l.workers;
    var op := ws[i].claims[a];
    UptoCount(Given(l), op);
    assert op in ws[i].claims && op in ws[j].claims;
    if i != j {
      if i < j { BagTwo(ws, ClaimsOf, i, j, op); } else { BagTwo(ws, ClaimsOf, j, i, op); }
    } else {
      BagOne(ws, ClaimsOf, i, op);
      if a < b { TwicePresent(ws[i].claims, a, b); }
      if b < a { TwicePresent(ws[i].claims, b, a); }
    }
  }

  lemma {:induction false} BagMono(ws: seq<Worker>, k: nat)
    requires forall i :: 0 <= i < |ws| ==> Balanced(ws[i])
    ensures Bag(ws, AnsweredOf)[k] <= Bag(ws, ClaimsOf)[k]
  {
    hide Balanced;
    if ws != [] {
      BagMono(ws[1..], k);
      AnsweredWasClaimed(ws[0], k);
    }
  }

  lemma AnsweredWasClaimed(v: Worker, k: nat)
    requires Balanced(v)
    ensures AnsweredOf(v)[k] <= ClaimsOf(v)[k]
  {}

  /** No two latency stores hit the same slot, and each is inside an array of `total` slots. */
  lemma LatencySlotsDistinct(l: Load)
    requires Reachable(l)
    ensures forall a, b :: 0 <= a < b < |l.stored| ==> l.stored[a] != l.stored[b]
    ensures forall a :: 0 <= a < |l.stored| ==> l.stored[a] < l.total
  {
    hide Bag, Tally, Upto, Balanced, Placed, InStep, InOrder, Reachable;
    ReachableInv(l);
    forall i | 0 <= i < |l.workers| ensures Balanced(l.workers[i]) {
      assert WorkerInv(l, l.workers[i]);
    }
    forall a: nat | a < |l.stored| ensures multiset(l.stored)[l.stored[a]] <= 1 && l.stored[a] < l.total {
      var op := l.stored[a];
      assert op in l.stored;
      BagMono(l.workers, op);
      UptoCount(Given(l), op);
    }
    forall a: nat, b: nat | a < b < |l.stored| ensures l.stored[a] != l.stored[b] {
      if l.stored[a] == l.stored[b] { TwicePresent(l.stored, a, b); }
    }
  }

  lemma {:induction false} BagHas(ws: seq<Worker>, op: nat)
    ensures op in Bag(ws, AnsweredOf) <==> exists i :: 0 <= i < |ws| && op in ws[i].answered
  {
    if ws != [] {
      BagHas(ws[1..], op);
      assert Bag(ws, AnsweredOf) == AnsweredOf(ws[0]) + Bag(ws[1..], AnsweredOf);
      assert forall i :: 0 <= i < |ws[1..]| ==> ws[1..][i] == ws[i + 1];
      assert op in ws[0].answered <==> op in AnsweredOf(ws[0]);
      if i :| 0 <= i < |ws| && op in ws[i].answered {
        if i > 0 { assert ws[1..][i - 1] == ws[i]; }
      }
    }
  }

  /** A latency is stored for just the operations that were answered, and for none if it is not measured. */
  lemma StoredIffAnswered(l: Load, op: nat)
    requires Reachable(l)
    ensures op in l.stored <==> l.measure && exists i :: 0 <= i < |l.workers| && op in l.workers[i].answered
  {
    hide Bag, Tally, Upto, WorkerInv, Reachable;
    ReachableInv(l);
    BagHas(l.workers, op);
    assert op in l.stored <==> op in multiset(l.stored);
  }

  // ---------------------------------------------------------------------------
  // Accounting
  // ---------------------------------------------------------------------------

  /** On every exit path a worker's claims are its successes plus its failures, and none is left in the ring. */
  lemma ExitAccounted(l: Load, i: nat)
    requires Reachable(l) && i < |l.workers| && Over(l.workers[i])
    ensures var v := l.workers[i];
            |v.claims| == v.succeeded + v.failed && v.ring == []
  {
    hide Reachable, Bag, Tally, InStep, InOrder;
    ReachableInv(l);
    assert WorkerInv(l, l.workers[i]);
    OverAccounted(l.cap, l.workers[i]);
  }

  lemma OverAccounted(cap: nat, v: Worker)
    requires Balanced(v) && Placed(cap, v) && Over(v)
    ensures |v.claims| == v.succeeded + v.failed && v.ring == []
  {
    assert |multiset(v.claims)| == |v.claims|;
    assert multiset(v.claims) == multiset(v.answered) + multiset(v.lost);
  }

  /** The responses a worker took that count as successes. */
  function WonBy(transfer: bool, v: Worker): nat
  {
    if |v.answered| <= |v.replies| then LoadBuffers.CountWon(transfer, v.replies[..|v.answered|]) else 0
  }

  function WonByAll(transfer: bool, ws: seq<Worker>): nat
  {
    if ws == [] then 0 else WonBy(transfer, ws[0]) + WonByAll(transfer, ws[1..])
  }

  lemma {:induction false} AllReported(ws: seq<Worker>, cap: nat, transfer: bool)
    requires forall i :: 0 <= i < |ws| ==> Balanced(ws[i]) && Placed(cap, ws[i]) && ws[i].pc.Done?
    requires forall i :: 0 <= i < |ws| ==> Scored(transfer, ws[i])
    ensures Tally(ws, AddedSucceeded) + Tally(ws, AddedFailed) == |Bag(ws, ClaimsOf)|
    ensures Tally(ws, AddedSucceeded) == WonByAll(transfer, ws)
  {
    hide Balanced, Placed, LoadBuffers.CountWon;
    if ws != [] {
      OverAccounted(cap, ws[0]);
      AllReported(ws[1..], cap, transfer);
      assert |multiset(ws[0].claims)| == |ws[0].claims|;
      assert Scored(transfer, ws[0]);
    }
  }

  predicate Joined(l: Load) { forall i :: 0 <= i < |l.workers| ==> l.workers[i].pc.Done? }

  /**
   After the join the totals add up to the operations handed out, whatever failed. They
   are the whole operation count exactly when the counter got that far, which one worker
   without a write or transport error is enough to ensure. The successes among them are the
   responses taken that are no errors, or the refused transfers of a transfer load.
   */
  lemma TotalsAddUp(l: Load)
    requires Reachable(l) && Joined(l)
    ensures l.succeeded + l.failed == Given(l)
    ensures l.succeeded + l.failed == l.total <==> l.counter >= l.total
    ensures (exists i :: 0 <= i < |l.workers| && !Hurt(l.workers[i])) ==> l.succeeded + l.failed == l.total
    ensures l.succeeded == WonByAll(l.transfer, l.workers)
  {
    hide Reachable, Bag, Tally, InStep, InOrder, Balanced, Upto, Scored, WonByAll;
    ReachableInv(l);
    forall i | 0 <= i < |l.workers|
      ensures Balanced(l.workers[i]) && Placed(l.cap, l.workers[i]) && Scored(l.transfer, l.workers[i])
    {
      assert WorkerInv(l, l.workers[i]);
    }
    AllReported(l.workers, l.cap, l.transfer);
    UptoCount(Given(l), 0);
    if i :| 0 <= i < |l.workers| && !Hurt(l.workers[i]) {
      assert WorkerInv(l, l.workers[i]);
    }
  }

  /** The phase is reported broken exactly when the flush or a read of some worker failed. */
  lemma BrokenIffDead(l: Load)
    requires Reachable(l)
    ensures l.broken <==> exists i :: 0 <= i < |l.workers| && l.workers[i].dead
  {
    hide Reachable, Bag, Tally, Balanced, Placed, InStep, InOrder, Scored, Upto;
    ReachableInv(l);
    if i :| 0 <= i < |l.workers| && l.workers[i].dead {
      assert WorkerInv(l, l.workers[i]);
    }
  }

  /** As long as operations are left, a worker without failures keeps its pipeline full. */
  lemma PipelineFull(l: Load, i: nat)
    requires Reachable(l) && i < |l.workers| && !Hurt(l.workers[i]) && !l.workers[i].exhausted
    requires l.workers[i].pc.Drain?
    ensures |l.workers[i].ring| == l.cap
  {
    hide Reachable, Bag, Tally, Balanced, InStep, InOrder, Scored, Upto;
    ReachableInv(l);
    assert WorkerInv(l, l.workers[i]);
  }

  // ---------------------------------------------------------------------------
  // Phase handoff
  // ---------------------------------------------------------------------------

  /**
   A connection the next phase can use: the server received exactly the commands this worker
   counts as sent, whole, and no reply is unread or still to come.
   */
  ghost predicate Clean(v: Worker)
  {
    && ParseAll(v.writer.taken) == (v.commands, [])
    && |v.replies| == |v.commands|
    && v.wire == [] && v.private == []
  }

  lemma {:induction false} ParseEncoded(fs: seq<Frame>)
    ensures ParseAll(EncodeAll(fs)) == (fs, [])
  {
    hide TryConsume, Encode;
    if fs == [] {
      EmptyHasNoFrame();
    } else {
      ParseEncoded(fs[1..]);
      ConsumeEncoded(fs[0], EncodeAll(fs[1..]));
      assert fs == [fs[0]] + fs[1..];
    }
  }

  /** When all requests are answered, the connection is clean exactly when the stream took just the commands sent. */
  lemma CleanIffExact(v: Worker)
    requires InStep(v) && !v.dead && v.ring == []
    ensures Clean(v) <==> v.writer.taken == EncodeAll(v.commands)
  {
    hide ParseAll, EncodeAll;
    assert v.answered + [] == v.answered;
    if v.writer.taken == EncodeAll(v.commands) {
      ParseEncoded(v.commands);
      assert v.replies[|v.answered|..] == [];
      EncodeNone();
      assert |v.private + v.wire| == 0;
    }
    if Clean(v) {
      assert EncodeAll(v.commands) + [] == EncodeAll(v.commands);
    }
  }

  /**
   The exact condition: a worker that ended without a failed flush or read leaves a clean
   connection exactly when the stream took no byte from its first failed command write on.
   */
  lemma CleanIffNothingTaken(l: Load, i: nat)
    requires Reachable(l) && i < |l.workers| && Over(l.workers[i]) && !l.workers[i].dead
    ensures var v := l.workers[i];
            Clean(v) <==> v.firstFail.None? || |v.writer.taken| == v.firstFail.value
  {
    hide Reachable, Bag, Tally, InStep, Balanced, Clean, EncodeAll;
    ReachableInv(l);
    var v := l.workers[i];
    assert WorkerInv(l, v);
    CleanIffExact(v);
    assert v.writer.buffered == [] ==> Written(v.writer) == v.writer.taken;
  }

  /** What runPhase reports as not broken is clean on every connection exactly under that condition on each. */
  lemma UnbrokenIsCleanIff(l: Load)
    requires Reachable(l) && Joined(l) && !l.broken
    ensures forall i :: 0 <= i < |l.workers| ==>
              var v := l.workers[i];
              Clean(v) <==> v.firstFail.None? || |v.writer.taken| == v.firstFail.value
  {
    hide Reachable, Bag, Tally, InStep, InOrder, Balanced, Placed, Clean;
    ReachableInv(l);
    forall i | 0 <= i < |l.workers|
      ensures var v := l.workers[i]; Clean(v) <==> v.firstFail.None? || |v.writer.taken| == v.firstFail.value
    {
      assert WorkerInv(l, l.workers[i]);
      CleanIffNothingTaken(l, i);
    }
  }

  /**
   A failed write in the fill loop always leaves the connection unclean: the flush after the loop
   sends the cut block.
   */
  lemma FailedFillIsUnclean(l: Load, i: nat, f: Frame, k: nat, a: nat)
    requires Reachable(l) && i < |l.workers| && l.workers[i].pc.FillWrite?
    requires Enabled(l, Step(i, WriteFail(f, k, a)))
    ensures var u := Apply(l, Step(i, WriteFail(f, k, a))).workers[i];
            u.pc == FlushFill && |Flush(u.writer).taken| > |EncodeAll(u.commands)|
  {
    hide Reachable, Bag, Tally, InStep, Balanced, EncodeAll, Encode, PutFails, CanFail, ParseAll, TryConsume;
    ReachableInv(l);
    var v := l.workers[i];
    assert WorkerInv(l, v);
    FailedInOrder(l, v, f, k, a);
    var u := Local(l, v, WriteFail(f, k, a));
    assert |Flush(u.writer).taken| == |Written(u.writer)|;
  }

  /** Without any failure: one frame per command, in the order sent, and a clean connection. */
  lemma PhaseHandoff(l: Load, i: nat)
    requires Reachable(l) && i < |l.workers| && Over(l.workers[i]) && !Hurt(l.workers[i])
    ensures var v := l.workers[i];
            && Clean(v)
            && v.answered == v.sent && multiset(v.sent) == multiset(v.claims)
            && v.writer == Writer(EncodeAll(v.commands), [])
  {
    hide Reachable, Bag, Tally, EncodeAll, ParseAll, Clean;
    ReachableInv(l);
    CleanIffNothingTaken(l, i);
    var v := l.workers[i];
    assert WorkerInv(l, v);
    assert v.answered + [] == v.answered;
    assert v.writer.taken + [] == v.writer.taken;
    NothingLost(l.cap, v);
  }

  lemma NothingLost(cap: nat, v: Worker)
    requires Balanced(v) && Placed(cap, v) && Over(v) && v.lost == []
    ensures multiset(v.answered) == multiset(v.claims)
  {}

  /** In the meantime the ring lists, oldest first, the commands whose frames are still to come. */
  lemma PipelineInOrder(l: Load, i: nat)
    requires Reachable(l) && i < |l.workers| && !l.workers[i].dead
    ensures var v := l.workers[i];
            && |v.ring| <= l.cap
            && v.sent == v.answered + v.ring
            && |v.answered| <= |v.replies|
            && v.private + v.wire == EncodeAll(v.replies[|v.answered|..])
  {
    hide Reachable, Bag, Tally, EncodeAll, ParseAll, InOrder;
    ReachableInv(l);
    assert WorkerInv(l, l.workers[i]);
  }

  /** One worker, one operation: its write fails at the first block, the flush after it succeeds. */
  function CutWrite(f: Frame): seq<Step>
  {
    [Step(0, FetchAdd), Step(0, WriteFail(f, 0, 0)), Step(0, FlushOk), Step(0, Report), Step(0, Report)]
  }

  /** A failed command write that goes unflagged: the server holds a cut command when the next phase begins. */
  lemma {:induction false} WriteFailureGoesUnflagged(l0: Load, f: Frame)
    requires l0 == Start(1, 1, 1, false, false) && |Encode(f)| > BUF_LEN
    ensures var es := CutWrite(f);
            && IsRun(l0, es)
            && var l := Run(l0, es);
               && Joined(l) && !l.broken && l.failed == 1 && |l.workers| == 1 && !Clean(l.workers[0])
               && l.workers[0].writer.taken == Encode(f)[..BUF_LEN]
  {
    hide Encode, TryConsume;
    var es := CutWrite(f);
    var l1 := Apply(l0, es[0]);
    assert [] + Encode(f) == Encode(f);
    var l2 := Apply(l1, es[1]);
    assert l2.workers[0].writer == Writer([], Encode(f)[..BUF_LEN]);
    var l3 := Apply(l2, es[2]);
    assert l3.workers[0].writer == Writer(Encode(f)[..BUF_LEN], []);
    var l4 := Apply(l3, es[3]);
    var l5 := Apply(l4, es[4]);
    assert l5.workers[0].pc == Done && |l5.workers| == 1 && l5.workers[0].commands == [];
    EncodeNone();
    hide ParseAll;
    RunStep(l4, es[4..]);
    RunStep(l3, es[3..]);
    RunStep(l2, es[2..]);
    RunStep(l1, es[1..]);
    RunStep(l0, es);
  }

  lemma {:induction false} RunStep(l: Load, es: seq<Step>)
    requires es != [] && Enabled(l, es[0]) && IsRun(Apply(l, es[0]), es[1..])
    ensures IsRun(l, es) && Run(l, es) == Run(Apply(l, es[0]), es[1..])
  {}
}
