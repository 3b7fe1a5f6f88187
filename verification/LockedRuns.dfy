/**
 Every run of the pipeline over its real queues: it is short, does not deadlock,
 and what is seen of it is exactly what the pipeline with atomic queues can do.
 */
module LockedRuns {
  import opened PrimeCheck
  import opened Pipeline
  import opened LockedPipeline
  import PipelineRuns
  import PipelineStop
  import Q = BlockingQueue

  // ------------------------------------------------------------- progress

  /** A wakeup without cause, which nothing relies on. */
  predicate Causeless(m: Move) {
    m.Inside? && m.step.Spurious?
  }

  predicate Done(f: Locked) {
    f.main.Finished? && forall k :: 0 <= k < |f.workers| ==> f.workers[k].Exited?
  }

  predicate Settled(f: Locked) {
    forall k :: 0 <= k < |f.q| ==> Q.Settled(f.q[k])
  }

  /** With all queue operations at rest, the step the pipeline can make is begun. */
  lemma SettledCanMove(rand: seq<nat>, f: Locked, s: State, step: Step) returns (m: Move)
    requires WellFormed(rand, s) && Synced(f, s) && Data(rand, f, s) && Settled(f) && Enabled(rand, s, step)
    ensures Can(rand, f, m) && !Causeless(m)
  {
    match step
    case Main =>
      m := if Can(rand, f, Enter) then Enter else Local;
    case Take(k) =>
      assert QueueAt(f, s, k);
      m := Inside(k, Q.CallDequeue);
    case Body(k) =>
      assert TaskFits(s.workers[k].task, k, |s.cells|);
      m := if f.workers[k].task.Stage? && k < 2 then Begin(k) else Run(k);
    case Check(k) =>
      m := CheckFlag(k);
  }

  lemma SomeMove(rand: seq<nat>, f: Locked, s: State) returns (m: Move)
    requires Matches(rand, f, s) && !Done(f)
    ensures Can(rand, f, m) && !Causeless(m)
  {
    if !Settled(f) {
      var k :| 0 <= k < 4 && !Q.Settled(f.q[k]);
      var step := Q.ContinuingStep(f.q[k]);
      m := Inside(k, step);
    } else {
      var step := PipelineRuns.SomeStep(rand, s);
      m := SettledCanMove(rand, f, s, step);
    }
  }

  lemma DoneIsStuck(rand: seq<nat>, f: Locked, s: State, m: Move)
    requires Synced(f, s) && Done(f)
    ensures !Can(rand, f, m)
  {
    match m
    case Inside(k, step) =>
      if k < 4 {
        assert QueueAt(f, s, k);
      }
    case _ =>
  }

  /** No deadlock of locks, sleepers and joins: more than a causeless wakeup can happen until everything is joined. */
  lemma LockedStuckIffDone(rand: seq<nat>, f: Locked, s: State)
    requires Matches(rand, f, s)
    ensures (forall m :: !Causeless(m) ==> !Can(rand, f, m)) <==> Done(f)
  {
    if Done(f) {
      forall m ensures !Can(rand, f, m) {
        DoneIsStuck(rand, f, s, m);
      }
    } else {
      var m := SomeMove(rand, f, s);
    }
  }

  // ---------------------------------------------------------- termination

  /** What a queue still owes: its calls under way, and the calls yet to be made. */
  function Owed(q: Q.State<Task>): nat
    requires |q.producers| == 2
  {
    Q.Measure(q) + (if q.consumer.Absent? then 4 else 0)
    + (if Pending(q.producers[0]) then 0 else 8) + (if Pending(q.producers[1]) then 0 else 8)
  }

  lemma StepOwes(q: Q.State<Task>, step: Q.Step<Task>)
    requires |q.producers| == 2 && Q.Enabled(q, step)
    ensures Owed(Q.Next(q, step)) <=
            Owed(q) + if step.Push? then 7 else if step.Pop? || step.Spurious? then 3 else -1
  {
    if step.CallEnqueue? {
      Q.ProducersWeightUpdate(q.producers, step.p, Q.Locking(step.item));
    } else if Q.Continuing(step) {
      Q.ContinuingDecreases(q, step);
    }
  }

  function OwedAll(f: Locked): nat
    requires Sized(f)
  {
    Owed(f.q[0]) + Owed(f.q[1]) + Owed(f.q[2]) + Owed(f.q[3])
  }

  function Remaining(rand: seq<nat>, f: Locked, s: State): int
    requires WellFormed(rand, s) && Sized(f)
  {
    9 * PipelineRuns.Measure(rand, s) + OwedAll(f)
  }

  /** What a move adds at most to what the queues owe. */
  function Toll(m: Move): int {
    match m
    case Enter => -1
    case Begin(_) => -1
    case Inside(_, step) => if step.Push? then 7 else if step.Pop? || step.Spurious? then 3 else -1
    case _ => 0
  }

  lemma OwedUpdate(f: Locked, f': Locked, k: nat, q: Q.State<Task>)
    requires Sized(f) && Sized(f') && k < 4 && |q.producers| == 2 && f'.q == f.q[k := q]
    ensures OwedAll(f') == OwedAll(f) - Owed(f.q[k]) + Owed(q)
  {
  }

  lemma MoveOwes(rand: seq<nat>, f: Locked, m: Move)
    requires Sized(f) && Can(rand, f, m)
    ensures OwedAll(Make(rand, f, m)) <= OwedAll(f) + Toll(m)
  {
    match m
    case Enter =>
      var k := if f.main.Waking? then f.main.k else 0;
      CallOwes(f, Make(rand, f, m), k, Q.CallEnqueue(MAIN, if f.main.Waking? then Sentinel else Stage(0, |f.cells|)));
    case Begin(k) =>
      CallOwes(f, Make(rand, f, m), k + 1, Q.CallEnqueue(NEIGHBOUR, Stage(k + 1, f.workers[k].task.item)));
    case Inside(k, step) =>
      CallOwes(f, Make(rand, f, m), k, step);
    case _ =>
  }

  lemma CallOwes(f: Locked, f': Locked, k: nat, step: Q.Step<Task>)
    requires Sized(f) && Sized(f') && k < 4 && Q.Enabled(f.q[k], step) && f'.q == f.q[k := Q.Next(f.q[k], step)]
    ensures OwedAll(f') <= OwedAll(f) + if step.Push? then 7 else if step.Pop? || step.Spurious? then 3 else -1
  {
    StepOwes(f.q[k], step);
    OwedUpdate(f, f', k, Q.Next(f.q[k], step));
  }

  lemma PushIsVisible(rand: seq<nat>, f: Locked, s: State, m: Move)
    requires WellFormed(rand, s) && Synced(f, s) && Can(rand, f, m)
    ensures Visible(m) == [] ==> Toll(m) <= if Causeless(m) then 3 else -1
  {
    if m.Inside? && m.step.Push? && m.step.p != MAIN {
      HandOverSynced(rand, f, s, m.k);
    }
  }

  lemma MoveCost(rand: seq<nat>, f: Locked, s: State, m: Move)
    requires Matches(rand, f, s) && Can(rand, f, m) && IsRun(rand, s, Visible(m))
    ensures Remaining(rand, Make(rand, f, m), After(rand, s, Visible(m))) <=
            Remaining(rand, f, s) + if Causeless(m) then 3 else -1
  {
    PipelineRuns.RunWeight(rand, s, Visible(m));
    MoveOwes(rand, f, m);
    PushIsVisible(rand, f, s, m);
  }

  function Wakeups(moves: seq<Move>): nat {
    if moves == [] then 0 else (if Causeless(moves[0]) then 1 else 0) + Wakeups(moves[1..])
  }

  lemma {:induction false} LockedRunCost(rand: seq<nat>, f: Locked, s: State, moves: seq<Move>)
    requires Matches(rand, f, s) && IsLockedRun(rand, f, moves)
    ensures IsRun(rand, s, VisibleSteps(moves))
    ensures |moves| + Remaining(rand, AfterMoves(rand, f, moves), After(rand, s, VisibleSteps(moves))) <=
            Remaining(rand, f, s) + 4 * Wakeups(moves)
    decreases |moves|
  {
    if moves != [] {
      var f1, rest := Make(rand, f, moves[0]), moves[1..];
      MoveRefines(rand, f, s, moves[0]);
      MoveCost(rand, f, s, moves[0]);
      var s1 := After(rand, s, Visible(moves[0]));
      LockedRunCost(rand, f1, s1, rest);
      RunConcat(rand, s, Visible(moves[0]), s1, VisibleSteps(rest));
    }
  }

  lemma StartOwes(rand: seq<nat>)
    ensures Remaining(rand, Start(), InitState()) == 90 * |rand| + 305
  {
    assert Start().q[0] == Start().q[1] == Start().q[2] == Start().q[3] == Q.Init(2);
    assert Q.Init<Task>(2).producers == [Q.Outside, Q.Outside];
    assert Q.ProducersWeight<Task>([Q.Outside, Q.Outside]) == 0;
  }

  /** The program with its real queues makes, under every schedule, a run of the pipeline. */
  lemma EveryLockedRunRefines(rand: seq<nat>, moves: seq<Move>)
    requires IsLockedRun(rand, Start(), moves)
    ensures IsRun(rand, InitState(), VisibleSteps(moves))
    ensures Matches(rand, AfterMoves(rand, Start(), moves), After(rand, InitState(), VisibleSteps(moves)))
  {
    StartMatches(rand);
    LockedRunRefines(rand, Start(), InitState(), moves);
  }

  /** But for causeless wakeups and the three moves each may cause, it makes at most 90N + 305 moves. */
  lemma LockedRunsAreShort(rand: seq<nat>, moves: seq<Move>)
    requires IsLockedRun(rand, Start(), moves)
    ensures |moves| <= 90 * |rand| + 305 + 4 * Wakeups(moves)
  {
    StartMatches(rand);
    LockedRunCost(rand, Start(), InitState(), moves);
    StartOwes(rand);
    PipelineRuns.MeasureNonNegative(rand, After(rand, InitState(), VisibleSteps(moves)));
  }

  /** It can go on until all four workers are joined, and then its numbers and printed lines are the pipeline's. */
  lemma EveryLockedRunEndsJoined(rand: seq<nat>, moves: seq<Move>)
    requires IsLockedRun(rand, Start(), moves)
    ensures IsRun(rand, InitState(), VisibleSteps(moves))
    ensures var f, s := AfterMoves(rand, Start(), moves), After(rand, InitState(), VisibleSteps(moves));
            && ((forall m :: !Causeless(m) ==> !Can(rand, f, m)) <==> Done(f))
            && (Done(f) ==> PipelineRuns.AllJoined(s) && f.cells == s.cells && f.printed == s.printed)
  {
    EveryLockedRunRefines(rand, moves);
    var f, s := AfterMoves(rand, Start(), moves), After(rand, InitState(), VisibleSteps(moves));
    LockedStuckIffDone(rand, f, s);
    if Done(f) {
      DoneData(rand, f, s);
    }
  }

  lemma DoneData(rand: seq<nat>, f: Locked, s: State)
    requires Synced(f, s) && |s.cells| == |s.printed| && Data(rand, f, s) && Done(f)
    ensures f.cells == s.cells && f.printed == s.printed
  {
    forall i | 0 <= i < |s.cells| ensures f.cells[i] == s.cells[i] && f.printed[i] == s.printed[i] {
      assert CellAt(f, s, i);
    }
  }

  // ------------------------------------- every pipeline run is made so

  /** No call of queue k is under way. */
  predicate AtRest(q: Q.State<Task>)
    requires |q.producers| == 2
  {
    q.mutex.Free? && q.producers[0].Outside? && q.producers[1].Outside? && q.consumer.Absent?
  }

  predicate AllAtRest(f: Locked)
    requires Sized(f)
  {
    AtRest(f.q[0]) && AtRest(f.q[1]) && AtRest(f.q[2]) && AtRest(f.q[3])
  }

  function Enqueuing(p: nat): seq<Q.Step<Task>> {
    [Q.Lock(p), Q.Push(p), Q.Unlock(p), Q.Notify(p)]
  }

  const DEQUEUING: seq<Q.Step<Task>> := [Q.CallDequeue, Q.Acquire, Q.Test, Q.Pop]

  lemma Tails(a: Q.Step<Task>, b: Q.Step<Task>, c: Q.Step<Task>, d: Q.Step<Task>)
    ensures [a, b, c, d][1..] == [b, c, d] && [b, c, d][1..] == [c, d] && [c, d][1..] == [d] && [d][1..] == []
  {
  }

  /** An enqueue once called, and a dequeue on a nonempty queue, that nobody disturbs. */
  lemma CallsAlone(q: Q.State<Task>, p: nat)
    requires |q.producers| == 2 && p < 2
    ensures q.producers[p].Locking? && AtRest(q.(producers := q.producers[p := Q.Outside])) ==>
              Q.IsRun(q, Enqueuing(p)) && AtRest(Q.After(q, Enqueuing(p)))
    ensures AtRest(q) && q.queue != [] ==> Q.IsRun(q, DEQUEUING) && AtRest(Q.After(q, DEQUEUING))
  {
    assert q.producers[p := Q.Outside][1 - p] == q.producers[1 - p];
    Tails(Q.Lock(p), Q.Push(p), Q.Unlock(p), Q.Notify(p));
    Tails(Q.CallDequeue, Q.Acquire, Q.Test, Q.Pop);
  }

  function Insides(k: nat, steps: seq<Q.Step<Task>>): seq<Move> {
    if steps == [] then [] else [Inside(k, steps[0])] + Insides(k, steps[1..])
  }

  /** A run of one queue by itself is a run of the program. */
  lemma {:induction false} QueueAlone(rand: seq<nat>, f: Locked, k: nat, steps: seq<Q.Step<Task>>)
    requires Sized(f) && k < 4 && Q.IsRun(f.q[k], steps)
    requires forall i :: 0 <= i < |steps| ==> !steps[i].CallEnqueue?
    requires forall i :: 0 <= i < |steps| && steps[i].CallDequeue? ==> i == 0 && f.workers[k].Waiting?
    ensures IsLockedRun(rand, f, Insides(k, steps))
    ensures AfterMoves(rand, f, Insides(k, steps)).q == f.q[k := Q.After(f.q[k], steps)]
    decreases |steps|
  {
    if steps == [] {
      assert f.q[k := f.q[k]] == f.q;
    } else {
      var m := Inside(k, steps[0]);
      var f1 := Make(rand, f, m);
      QueueAlone(rand, f1, k, steps[1..]);
      LockedCons(rand, f, m, Insides(k, steps[1..]));
    }
  }

  lemma LockedCons(rand: seq<nat>, f: Locked, m: Move, rest: seq<Move>)
    requires Sized(f) && Can(rand, f, m) && IsLockedRun(rand, Make(rand, f, m), rest)
    ensures IsLockedRun(rand, f, [m] + rest)
    ensures AfterMoves(rand, f, [m] + rest) == AfterMoves(rand, Make(rand, f, m), rest)
  {
    assert ([m] + rest)[1..] == rest;
  }

  /** The moves that make one step of the pipeline with nothing in between. */
  function Moves(rand: seq<nat>, s: State, step: Step): seq<Move>
    requires WellFormed(rand, s) && Enabled(rand, s, step)
  {
    match step
    case Main =>
      if s.main.Generating? && |s.cells| < |rand| then [Enter] + Insides(0, Enqueuing(MAIN))
      else if s.main.Waking? then [Enter] + Insides(s.main.k, Enqueuing(MAIN))
      else [Local]
    case Take(k) => Insides(k, DEQUEUING)
    case Body(k) =>
      if s.workers[k].task.Stage? && k < 2 then [Begin(k)] + Insides(k + 1, Enqueuing(NEIGHBOUR)) else [Run(k)]
    case Check(k) => [CheckFlag(k)]
  }

  lemma {:induction false} VisibleConcat(a: seq<Move>, b: seq<Move>)
    ensures VisibleSteps(a + b) == VisibleSteps(a) + VisibleSteps(b)
    decreases |a|
  {
    if a == [] {
      assert a + b == b;
    } else {
      var c := a + b;
      assert c[0] == a[0] && c[1..] == a[1..] + b;
      VisibleConcat(a[1..], b);
    }
  }

  lemma InsidesShow(k: nat, a: Q.Step<Task>, rest: seq<Q.Step<Task>>)
    ensures VisibleSteps(Insides(k, [a] + rest)) == Visible(Inside(k, a)) + VisibleSteps(Insides(k, rest))
  {
    assert ([a] + rest)[1..] == rest;
    assert ([Inside(k, a)] + Insides(k, rest))[1..] == Insides(k, rest);
  }

  /** Of four steps inside a queue only one is seen. */
  lemma OneOfFourShows(k: nat, a: Q.Step<Task>, b: Q.Step<Task>, c: Q.Step<Task>, d: Q.Step<Task>, show: Step)
    requires Visible(Inside(k, a)) == [] && Visible(Inside(k, c)) == []
    requires Visible(Inside(k, b)) + Visible(Inside(k, d)) == [show]
    ensures VisibleSteps(Insides(k, [a, b, c, d])) == [show]
  {
    assert [a, b, c, d] == [a] + [b, c, d] && [b, c, d] == [b] + [c, d] && [c, d] == [c] + [d] && [d] == [d] + [];
    InsidesShow(k, a, [b, c, d]);
    InsidesShow(k, b, [c, d]);
    InsidesShow(k, c, [d]);
    InsidesShow(k, d, []);
    assert VisibleSteps(Insides(k, [])) == [];
  }

  lemma EnqueuingShows(k: nat, p: nat)
    requires k > 0 || p == MAIN
    ensures VisibleSteps(Insides(k, Enqueuing(p))) == [if p == MAIN then Main else Body(k - 1)]
  {
    OneOfFourShows(k, Q.Lock(p), Q.Push(p), Q.Unlock(p), Q.Notify(p), if p == MAIN then Main else Body(k - 1));
  }

  lemma MovesShow(rand: seq<nat>, s: State, step: Step)
    requires WellFormed(rand, s) && Enabled(rand, s, step)
    ensures VisibleSteps(Moves(rand, s, step)) == [step]
  {
    match step
    case Main =>
      var k := if s.main.Waking? then s.main.k else 0;
      EnqueuingShows(k, MAIN);
      VisibleConcat([Enter], Insides(k, Enqueuing(MAIN)));
    case Take(k) =>
      OneOfFourShows(k, Q.CallDequeue, Q.Acquire, Q.Test, Q.Pop, Take(k));
    case Body(k) =>
      EnqueuingShows(k + 1, NEIGHBOUR);
      VisibleConcat([Begin(k)], Insides(k + 1, Enqueuing(NEIGHBOUR)));
    case Check(k) =>
  }

  /** An enqueue just called, f1 being f with that call made. */
  lemma EnqueueAlone(rand: seq<nat>, f: Locked, f1: Locked, k: nat, p: nat, t: Task)
    requires Sized(f) && AllAtRest(f) && k < 4 && p < 2 && Sized(f1)
    requires f1.q == f.q[k := Q.Next(f.q[k], Q.CallEnqueue(p, t))]
    ensures IsLockedRun(rand, f1, Insides(k, Enqueuing(p)))
    ensures AllAtRest(AfterMoves(rand, f1, Insides(k, Enqueuing(p))))
  {
    assert f1.q[k].producers[p := Q.Outside] == f.q[k].producers;
    CallsAlone(f1.q[k], p);
    QueueAlone(rand, f1, k, Enqueuing(p));
  }

  lemma MainAlone(rand: seq<nat>, f: Locked, s: State)
    requires WellFormed(rand, s) && Synced(f, s) && |f.cells| == |s.cells| && AllAtRest(f) && Enabled(rand, s, Main)
    ensures IsLockedRun(rand, f, Moves(rand, s, Main))
    ensures AllAtRest(AfterMoves(rand, f, Moves(rand, s, Main)))
  {
    if (s.main.Generating? && |s.cells| < |rand|) || s.main.Waking? {
      var k := if s.main.Waking? then s.main.k else 0;
      var t := if s.main.Waking? then Sentinel else Stage(0, |f.cells|);
      EnqueueAlone(rand, f, Make(rand, f, Enter), k, MAIN, t);
      LockedCons(rand, f, Enter, Insides(k, Enqueuing(MAIN)));
    } else {
      LockedCons(rand, f, Local, []);
      assert [Local] + [] == [Local];
    }
  }

  lemma BodyAlone(rand: seq<nat>, f: Locked, s: State, k: nat)
    requires WellFormed(rand, s) && Synced(f, s) && |f.cells| == |s.cells| && AllAtRest(f) && Enabled(rand, s, Body(k))
    ensures IsLockedRun(rand, f, Moves(rand, s, Body(k)))
    ensures AllAtRest(AfterMoves(rand, f, Moves(rand, s, Body(k))))
  {
    assert TaskFits(s.workers[k].task, k, |s.cells|);
    if s.workers[k].task.Stage? && k < 2 {
      EnqueueAlone(rand, f, Make(rand, f, Begin(k)), k + 1, NEIGHBOUR, Stage(k + 1, s.workers[k].task.item));
      LockedCons(rand, f, Begin(k), Insides(k + 1, Enqueuing(NEIGHBOUR)));
    } else {
      LockedCons(rand, f, Run(k), []);
      assert [Run(k)] + [] == [Run(k)];
    }
  }

  lemma StepAlone(rand: seq<nat>, f: Locked, s: State, step: Step)
    requires WellFormed(rand, s) && Synced(f, s) && |f.cells| == |s.cells| && AllAtRest(f) && Enabled(rand, s, step)
    ensures IsLockedRun(rand, f, Moves(rand, s, step))
    ensures AllAtRest(AfterMoves(rand, f, Moves(rand, s, step)))
  {
    match step
    case Main => MainAlone(rand, f, s);
    case Take(k) =>
      assert QueueAt(f, s, k);
      CallsAlone(f.q[k], MAIN);
      QueueAlone(rand, f, k, DEQUEUING);
    case Body(k) => BodyAlone(rand, f, s, k);
    case Check(k) =>
      LockedCons(rand, f, CheckFlag(k), []);
      assert [CheckFlag(k)] + [] == [CheckFlag(k)];
  }

  lemma {:induction false} LockedConcat(rand: seq<nat>, f: Locked, a: seq<Move>, b: seq<Move>)
    requires Sized(f) && IsLockedRun(rand, f, a) && IsLockedRun(rand, AfterMoves(rand, f, a), b)
    ensures IsLockedRun(rand, f, a + b) && AfterMoves(rand, f, a + b) == AfterMoves(rand, AfterMoves(rand, f, a), b)
    decreases |a|
  {
    var c := a + b;
    if a == [] {
      assert c == b;
    } else {
      assert c[0] == a[0] && c[1..] == a[1..] + b;
      LockedConcat(rand, Make(rand, f, a[0]), a[1..], b);
    }
  }

  lemma StepMade(rand: seq<nat>, f: Locked, s: State, step: Step)
    requires Matches(rand, f, s) && AllAtRest(f) && Enabled(rand, s, step)
    ensures var moves := Moves(rand, s, step);
            && VisibleSteps(moves) == [step] && IsLockedRun(rand, f, moves)
            && AllAtRest(AfterMoves(rand, f, moves)) && Matches(rand, AfterMoves(rand, f, moves), Next(rand, s, step))
  {
    StepAlone(rand, f, s, step);
    MovesShow(rand, s, step);
    LockedRunRefines(rand, f, s, Moves(rand, s, step));
    OneStepRun(rand, s, step);
  }

  lemma Joined(rand: seq<nat>, f: Locked, first: seq<Move>, rest: seq<Move>)
    requires Sized(f) && IsLockedRun(rand, f, first) && IsLockedRun(rand, AfterMoves(rand, f, first), rest)
    requires AllAtRest(AfterMoves(rand, AfterMoves(rand, f, first), rest))
    ensures IsLockedRun(rand, f, first + rest) && AllAtRest(AfterMoves(rand, f, first + rest))
    ensures VisibleSteps(first + rest) == VisibleSteps(first) + VisibleSteps(rest)
  {
    LockedConcat(rand, f, first, rest);
    VisibleConcat(first, rest);
  }

  lemma {:induction false} RunAlone(rand: seq<nat>, f: Locked, s: State, steps: seq<Step>) returns (moves: seq<Move>)
    requires Matches(rand, f, s) && AllAtRest(f) && IsRun(rand, s, steps)
    ensures IsLockedRun(rand, f, moves) && VisibleSteps(moves) == steps
    ensures AllAtRest(AfterMoves(rand, f, moves))
    decreases |steps|
  {
    if steps == [] {
      moves := [];
    } else {
      var first := Moves(rand, s, steps[0]);
      StepMade(rand, f, s, steps[0]);
      var rest := RunAlone(rand, AfterMoves(rand, f, first), Next(rand, s, steps[0]), steps[1..]);
      Joined(rand, f, first, rest);
      moves := first + rest;
    }
  }

  /** What the program with its real queues can be seen to do is exactly what the pipeline can do. */
  lemma VisibleRunsAreThePipelines(rand: seq<nat>, steps: seq<Step>)
    ensures IsRun(rand, InitState(), steps) <==>
            exists moves :: IsLockedRun(rand, Start(), moves) && VisibleSteps(moves) == steps
  {
    if IsRun(rand, InitState(), steps) {
      StartMatches(rand);
      var moves := RunAlone(rand, Start(), InitState(), steps);
    }
    forall moves | IsLockedRun(rand, Start(), moves) && VisibleSteps(moves) == steps
      ensures IsRun(rand, InitState(), steps)
    {
      EveryLockedRunRefines(rand, moves);
    }
  }

  lemma UnfinishedTrace(rand: seq<nat>, s: State)
    requires Inv(rand, s) && |s.cells| == |rand| && !PipelineStop.AllCompleted(rand, s)
    ensures exists i :: 0 <= i < |s.printed| && |s.printed[i]| <= 4
  {
    assert FlowAt(s, 0) && FlowAt(s, 1) && FlowAt(s, 2);
    var i := |s.finished[2]|;
    assert i < |rand|;
    assert ItemOk(rand, s, i) && Depth(s, i) <= 2;
    assert |s.printed[i]| <= 4;
  }

  /** With real queues too, some run of any positive number of items joins all workers with an item unfinished. */
  lemma SomeLockedRunLosesAnItem(rand: seq<nat>) returns (moves: seq<Move>)
    requires rand != []
    ensures IsLockedRun(rand, Start(), moves)
    ensures var f := AfterMoves(rand, Start(), moves);
            Done(f) && |f.printed| == |rand| && exists i :: 0 <= i < |f.printed| && |f.printed[i]| <= 4
  {
    var steps := PipelineStop.SomeRunLosesAnItem(rand);
    StartMatches(rand);
    moves := RunAlone(rand, Start(), InitState(), steps);
    EveryLockedRunRefines(rand, moves);
    var f, s := AfterMoves(rand, Start(), moves), After(rand, InitState(), steps);
    DoneData(rand, f, s);
    UnfinishedTrace(rand, s);
  }
}
