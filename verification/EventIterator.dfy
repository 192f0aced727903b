/**
 The async iterator over a channel (`events`). Its closure state is changed by the
 event handler, by `next` calls and by `return`/`throw`, in any interleaving. A
 call of `next` that finds nothing parks on a promise; the closure keeps a single
 `wake` slot for the promise to resolve.
 */
module EventIterator {
  import opened Bytes

  datatype Event = Event(channel: bytes, message: bytes)

  /**
   `tasks` holds the parked `next` calls and whether their promise is resolved.
   `arrivals`, `returned` and `fates` are histories: the events handed to the handler,
   the values returned by `next`, and for each event that has left the queue whether
   it was returned (true) or dropped (false).
   */
  datatype Iter = Iter(limit: int, queue: seq<Event>, dropped: nat, wake: Option<nat>, finished: bool, closed: bool,
                       tasks: map<nat, bool>, arrivals: seq<Event>, returned: seq<Event>, fates: seq<bool>)

  datatype Step =
    | Arrive(event: Event)  // the handler
    | Next(id: nat)         // a `next` call, from the moment the subscription is there
    | Resume(id: nat)       // a parked call goes on after its promise was resolved
    | Finish                // return() or throw()
    | ClientState(closed: bool)  // the client is closed, or no longer so

  function Max(a: int, b: int): int { if a < b then b else a }

  function Start(queueLimit: int): Iter
  {
    Iter(Max(1, queueLimit), [], 0, None, false, false, map[], [], [], [])
  }

  /** wake?.() */
  function Wake(s: Iter): Iter
  {
    if s.wake.Some? && s.wake.value in s.tasks then s.(tasks := s.tasks[s.wake.value := true]) else s
  }

  function Push(s: Iter, event: Event): Iter
  {
    var q := s.queue + [event];
    var t := s.(queue := q, arrivals := s.arrivals + [event]);
    if |q| > s.limit then t.(queue := q[1..], dropped := s.dropped + 1, fates := s.fates + [false]) else t
  }

  /** One turn of the loop in `next`: return an event, report the end, or park. */
  function Turn(s: Iter, id: nat): Iter
  {
    if s.queue != [] then
      s.(queue := s.queue[1..], returned := s.returned + [s.queue[0]], fates := s.fates + [true])
    else if s.finished || s.closed then s
    else s.(wake := Some(id), tasks := s.tasks[id := false])
  }

  predicate Enabled(s: Iter, e: Step)
  {
    match e
    case Next(id) => id !in s.tasks
    case Resume(id) => id in s.tasks && s.tasks[id]
    case _ => true
  }

  function Apply(s: Iter, e: Step): Iter
    requires Enabled(s, e)
  {
    match e
    case Arrive(event) => Wake(Push(s, event))
    case Next(id) => Turn(s, id)
    case Resume(id) => Turn(s.(wake := None, tasks := s.tasks - {id}), id)
    case Finish => if s.finished then s else Wake(s.(finished := true))
    case ClientState(closed) => s.(closed := closed)
  }

  predicate IsRun(s: Iter, es: seq<Step>)
    decreases |es|
  {
    es == [] || (Enabled(s, es[0]) && IsRun(Apply(s, es[0]), es[1..]))
  }

  function Run(s: Iter, es: seq<Step>): Iter
    requires IsRun(s, es)
    decreases |es|
  {
    if es == [] then s else Run(Apply(s, es[0]), es[1..])
  }

  // ---------------------------------------------------------------------------
  // Every event has one fate
  // ---------------------------------------------------------------------------

  /** The elements marked true, in order. */
  function Pick(events: seq<Event>, marks: seq<bool>): seq<Event>
    requires |events| == |marks|
  {
    if marks == [] then []
    else
      var n := |marks| - 1;
      Pick(events[..n], marks[..n]) + (if marks[n] then [events[n]] else [])
  }

  function CountFalse(marks: seq<bool>): nat
  {
    if marks == [] then 0 else CountFalse(marks[..|marks| - 1]) + (if marks[|marks| - 1] then 0 else 1)
  }

  /**
   Of the events that arrived, the first |fates| have left, each returned or dropped; the
   values returned are the returned ones in order of arrival; the queue is the rest.
   */
  ghost predicate Accounted(s: Iter)
  {
    && 1 <= s.limit && |s.queue| <= s.limit
    && |s.fates| <= |s.arrivals|
    && s.queue == s.arrivals[|s.fates|..]
    && s.returned == Pick(s.arrivals[..|s.fates|], s.fates)
    && s.dropped == CountFalse(s.fates)
  }

  /** Deciding the fate of the front of the queue. */
  lemma {:induction false} OneMoreFate(events: seq<Event>, marks: seq<bool>, mark: bool)
    requires |marks| < |events|
    ensures var n := |marks|;
            && Pick(events[..n + 1], marks + [mark]) ==
               Pick(events[..n], marks) + (if mark then [events[n]] else [])
            && CountFalse(marks + [mark]) == CountFalse(marks) + (if mark then 0 else 1)
  {
    var n := |marks|;
    assert events[..n + 1][..n] == events[..n];
    assert (marks + [mark])[..n] == marks;
  }

  lemma PushAccounted(s: Iter, event: Event)
    requires Accounted(s)
    ensures Accounted(Push(s, event))
  {
    hide Pick, CountFalse;
    var all, n := s.arrivals + [event], |s.fates|;
    assert all[n..] == s.queue + [event];
    assert all[..n] == s.arrivals[..n];
    OneMoreFate(all, s.fates, false);
    assert all[n..][1..] == all[n + 1..];
    assert Pick(all[..n], s.fates) + [] == Pick(all[..n], s.fates);
  }

  lemma TurnAccounted(s: Iter, id: nat)
    requires Accounted(s)
    ensures Accounted(Turn(s, id))
  {
    hide Pick, CountFalse;
    if s.queue != [] {
      var n := |s.fates|;
      OneMoreFate(s.arrivals, s.fates, true);
      assert s.arrivals[n] == s.queue[0];
      assert s.queue[1..] == s.arrivals[n + 1..];
    }
  }

  lemma StepAccounted(s: Iter, e: Step)
    requires Enabled(s, e) && Accounted(s)
    ensures Accounted(Apply(s, e))
  {
    hide Pick, CountFalse, Push, Turn;
    match e
    case Arrive(event) => PushAccounted(s, event);
    case Next(id) => TurnAccounted(s, id);
    case Resume(id) => TurnAccounted(s.(wake := None, tasks := s.tasks - {id}), id);
    case _ =>
  }

  lemma {:induction false} RunAccounted(s: Iter, es: seq<Step>)
    requires IsRun(s, es) && Accounted(s)
    ensures Accounted(Run(s, es))
    decreases |es|
  {
    hide Accounted, Apply, Enabled;
    if es != [] {
      StepAccounted(s, es[0]);
      RunAccounted(Apply(s, es[0]), es[1..]);
    }
  }

  /** In any interleaving, with any number of consumers, no event is lost, doubled or reordered. */
  lemma {:induction false} EveryEventHasOneFate(queueLimit: int, es: seq<Step>)
    requires IsRun(Start(queueLimit), es)
    ensures Accounted(Run(Start(queueLimit), es))
  {
    RunAccounted(Start(queueLimit), es);
  }

  lemma {:induction false} PickCount(events: seq<Event>, marks: seq<bool>)
    requires |events| == |marks|
    ensures |Pick(events, marks)| + CountFalse(marks) == |marks|
  {
    if marks != [] {
      var n := |marks| - 1;
      PickCount(events[..n], marks[..n]);
    }
  }

  /** Arrived equals returned plus dropped plus queued. */
  lemma {:induction false} EventsConserved(queueLimit: int, es: seq<Step>)
    requires IsRun(Start(queueLimit), es)
    ensures var s := Run(Start(queueLimit), es);
            |s.arrivals| == |s.returned| + s.dropped + |s.queue| && |s.queue| <= Max(1, queueLimit)
  {
    hide Pick, CountFalse;
    EveryEventHasOneFate(queueLimit, es);
    LimitFixed(Start(queueLimit), es);
    var s := Run(Start(queueLimit), es);
    PickCount(s.arrivals[..|s.fates|], s.fates);
  }

  lemma {:induction false} LimitFixed(s: Iter, es: seq<Step>)
    requires IsRun(s, es)
    ensures Run(s, es).limit == s.limit
    decreases |es|
  {
    if es != [] { LimitFixed(Apply(s, es[0]), es[1..]); }
  }

  /** An event is dropped exactly when it arrives at a full queue. */
  lemma DropsOnlyWhenFull(queueLimit: int, es: seq<Step>, event: Event)
    requires IsRun(Start(queueLimit), es)
    ensures var s := Run(Start(queueLimit), es);
            var t := Apply(s, Arrive(event));
            t.dropped == s.dropped + if |s.queue| == (if queueLimit > 1 then queueLimit else 1) then 1 else 0
  {
    hide Accounted, Pick, CountFalse, Run, IsRun;
    LimitFixed(Start(queueLimit), es);
    EventsConserved(queueLimit, es);
  }

  /**
   A call of next() with nothing queued ends exactly when the iterator is finished or the
   client closed; otherwise it parks. With something queued it returns the oldest event.
   */
  lemma NextDecides(s: Iter, id: nat)
    requires id !in s.tasks
    ensures var t := Apply(s, Next(id));
            if s.queue != [] then t.returned == s.returned + [s.queue[0]] && id !in t.tasks
            else t.returned == s.returned && (id !in t.tasks <==> s.finished || s.closed)
  {}

  // ---------------------------------------------------------------------------
  // Waking
  // ---------------------------------------------------------------------------

  /** Each call of `next` is made when no other is outstanding. */
  predicate OneAtATime(s: Iter, es: seq<Step>)
    requires IsRun(s, es)
    decreases |es|
  {
    es == [] || ((es[0].Next? ==> s.tasks == map[]) && OneAtATime(Apply(s, es[0]), es[1..]))
  }

  predicate Parked(s: Iter, id: nat) { id in s.tasks && !s.tasks[id] }

  /** At most one call is parked; un-woken, it holds the wake slot and there is nothing for it. */
  ghost predicate Lone(s: Iter)
  {
    && 1 <= s.limit
    && (forall a, b | a in s.tasks && b in s.tasks :: a == b)
    && (forall id: nat | Parked(s, id) :: s.wake == Some(id) && s.queue == [] && !s.finished)
    && (forall id | id in s.tasks && !Parked(s, id) :: s.queue != [] || s.finished)
  }

  lemma StepLone(s: Iter, e: Step)
    requires Enabled(s, e) && Lone(s) && (e.Next? ==> s.tasks == map[])
    ensures Lone(Apply(s, e))
  {
    match e
    case Arrive(event) =>
      assert Push(s, event).queue != [];
      forall id: nat | id in s.tasks ensures !Parked(Apply(s, e), id) {
        assert Parked(s, id) || s.tasks[id];
      }
    case Finish =>
      forall id: nat | id in s.tasks ensures !Parked(Apply(s, e), id) {
        assert Parked(s, id) || s.finished || s.tasks[id];
      }
    case Resume(id) =>
      assert forall a :: a !in s.tasks - {id};
    case ClientState(_) =>
      assert forall id: nat :: Parked(Apply(s, e), id) <==> Parked(s, id);
    case Next(id) =>
  }

  lemma {:induction false} RunLone(s: Iter, es: seq<Step>)
    requires IsRun(s, es) && OneAtATime(s, es) && Lone(s)
    ensures Lone(Run(s, es))
    decreases |es|
  {
    hide Lone, Apply, Enabled;
    if es != [] {
      StepLone(s, es[0]);
      RunLone(Apply(s, es[0]), es[1..]);
    }
  }

  /**
   With one consumer, a parked call that was not woken means an empty queue, and the next event or
   return wakes it.
   */
  lemma {:induction false} LoneConsumerMissesNothing(queueLimit: int, es: seq<Step>, id: nat)
    requires IsRun(Start(queueLimit), es) && OneAtATime(Start(queueLimit), es)
    requires Parked(Run(Start(queueLimit), es), id)
    ensures var s := Run(Start(queueLimit), es);
            && s.queue == [] && !s.finished
            && (forall event :: !Parked(Apply(s, Arrive(event)), id)) && !Parked(Apply(s, Finish), id)
  {
    RunLone(Start(queueLimit), es);
  }

  /** No later step can wake a parked call that does not hold the wake slot. */
  lemma {:induction false} StrandedForever(s: Iter, id: nat, es: seq<Step>)
    requires Parked(s, id) && s.wake != Some(id) && IsRun(s, es)
    ensures Parked(Run(s, es), id)
    decreases |es|
  {
    if es != [] {
      StrandedForever(Apply(s, es[0]), id, es[1..]);
    }
  }

  /** A parked call can still be resumed some day exactly when it holds the wake slot. */
  lemma {:induction false} WakeableIffHoldsSlot(s: Iter, id: nat)
    requires Parked(s, id)
    ensures (exists es :: IsRun(s, es) && !Parked(Run(s, es), id)) <==> s.wake == Some(id)
  {
    if s.wake == Some(id) {
      var es := [Arrive(Event([], []))];
      assert es[1..] == [];
      RunStep(s, es);
      assert !Parked(Run(s, es), id);
    } else {
      forall es | IsRun(s, es) ensures Parked(Run(s, es), id) {
        StrandedForever(s, id, es);
      }
    }
  }

  /** Two consumers: the first to park loses the slot to the second and sleeps beside a queued event. */
  lemma TwoConsumersStrand(a: Event, b: Event)
    ensures var es := [Next(0), Next(1), Arrive(a), Resume(1), Arrive(b)];
            && IsRun(Start(1024), es)
            && var s := Run(Start(1024), es);
               Parked(s, 0) && s.queue == [b] && s.wake == None
  {
    var es := [Next(0), Next(1), Arrive(a), Resume(1), Arrive(b)];
    var s0 := Start(1024);
    var s1 := Apply(s0, es[0]);
    var s2 := Apply(s1, es[1]);
    var s3 := Apply(s2, es[2]);
    assert s3.queue == [a] && s3.tasks == map[0 := false, 1 := true];
    var s4 := Apply(s3, es[3]);
    assert s4.queue == [] && s4.tasks == map[0 := false] && s4.wake == None;
    var s5 := Apply(s4, es[4]);
    assert es[4..] == [Arrive(b)] && [Arrive(b)][1..] == [];
    RunStep(s4, es[4..]);
    RunStep(s3, es[3..]);
    RunStep(s2, es[2..]);
    RunStep(s1, es[1..]);
    RunStep(s0, es);
  }

  lemma {:induction false} RunStep(s: Iter, es: seq<Step>)
    requires es != [] && Enabled(s, es[0]) && IsRun(Apply(s, es[0]), es[1..])
    ensures IsRun(s, es) && Run(s, es) == Run(Apply(s, es[0]), es[1..])
  {}

  /** close() wakes nobody, nor does reopening: only an event or return() unparks a call. */
  lemma {:induction false} OnlyEventsAndFinishWake(s: Iter, id: nat, es: seq<Step>)
    requires Parked(s, id) && IsRun(s, es)
    requires forall e | e in es :: !e.Arrive? && !e.Finish?
    ensures Parked(Run(s, es), id)
    decreases |es|
  {
    if es != [] {
      assert es[0] in es;
      assert forall e | e in es[1..] :: e in es;
      OnlyEventsAndFinishWake(Apply(s, es[0]), id, es[1..]);
    }
  }

  // ---------------------------------------------------------------------------
  // The closure state
  // ---------------------------------------------------------------------------

  /** What a turn of `next` does for its caller. */
  datatype Turned = Yield(event: Event) | Done | Waits

  class Iterator {
    const limit: int
    var queue: seq<Event>
    var droppedCount: nat
    var wake: Option<nat>
    var finished: bool
    var closed: bool
    var tasks: map<nat, bool>
    var arrivals: seq<Event>
    var returned: seq<Event>
    var fates: seq<bool>

    function Abs(): Iter
      reads this
    {
      Iter(limit, queue, droppedCount, wake, finished, closed, tasks, arrivals, returned, fates)
    }

    constructor (queueLimit: int)
      ensures Abs() == Start(queueLimit)
    {
      limit := Max(1, queueLimit);
      queue, droppedCount, wake, finished, closed := [], 0, None, false, false;
      tasks, arrivals, returned, fates := map[], [], [], [];
    }

    method CallWake()
      modifies this`tasks
      ensures Abs() == Wake(old(Abs()))
    {
      if wake.Some? && wake.value in tasks {
        tasks := tasks[wake.value := true];
      }
    }

    method Handler(event: Event)
      modifies this`queue, this`droppedCount, this`tasks, this`arrivals, this`fates
      ensures Abs() == Apply(old(Abs()), Arrive(event))
    {
      queue := queue + [event];
      arrivals := arrivals + [event];
      if |queue| > limit {
        queue := queue[1..];
        droppedCount := droppedCount + 1;
        fates := fates + [false];
      }
      CallWake();
    }

    method LoopTurn(id: nat) returns (r: Turned)
      modifies this`queue, this`wake, this`tasks, this`returned, this`fates
      ensures Abs() == Turn(old(Abs()), id)
      ensures r.Yield? <==> old(queue) != []
      ensures r.Yield? ==> returned == old(returned) + [r.event]
      ensures r.Done? <==> old(queue) == [] && (finished || closed)
      ensures r.Done? ==> Abs() == old(Abs())
      ensures r.Waits? ==> Parked(Abs(), id)
    {
      if queue != [] {
        r := Yield(queue[0]);
        returned := returned + [queue[0]];
        fates := fates + [true];
        queue := queue[1..];
      } else if finished || closed {
        r := Done;
      } else {
        wake := Some(id);
        tasks := tasks[id := false];
        r := Waits;
      }
    }

    method CallNext(id: nat) returns (r: Turned)
      requires id !in tasks
      modifies this`queue, this`wake, this`tasks, this`returned, this`fates
      ensures Abs() == Apply(old(Abs()), Next(id))
      ensures r.Yield? <==> old(queue) != []
      ensures r.Done? <==> old(queue) == [] && (finished || closed)
      ensures r.Yield? ==> returned == old(returned) + [r.event]
    {
      r := LoopTurn(id);
    }

    method ResumeNext(id: nat) returns (r: Turned)
      requires id in tasks && tasks[id]
      modifies this`queue, this`wake, this`tasks, this`returned, this`fates
      ensures Abs() == Apply(old(Abs()), Resume(id))
      ensures r.Yield? <==> old(queue) != []
      ensures r.Done? <==> old(queue) == [] && (finished || closed)
      ensures r.Yield? ==> returned == old(returned) + [r.event]
    {
      tasks := tasks - {id};
      wake := None;
      r := LoopTurn(id);
    }

    method FinishAll()
      modifies this`finished, this`tasks
      ensures Abs() == Apply(old(Abs()), Finish)
    {
      if finished {
        return;
      }
      finished := true;
      CallWake();
    }
  }
}
