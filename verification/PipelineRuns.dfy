/** What every run of the pipeline guarantees, for every number of items and every scheduler. */
module PipelineRuns {
  import opened PrimeCheck
  import opened Pipeline

  // --------------------------------------------------------- conservation

  /** The item whose body worker k is about to run, if any. */
  function Held(s: State, k: nat): seq<nat>
    requires k < |s.workers|
  {
    if s.workers[k].Holding? && s.workers[k].task.Stage? then [s.workers[k].task.item] else []
  }

  lemma StageSplit(s: State, k: nat)
    requires k < 3 && |s.workers| == |s.queues| == |s.started| == |s.finished| == 4
    requires FlowAt(s, k)
    ensures s.started[k] == s.finished[k] + Held(s, k)
    ensures Interval(0, Arrived(s, k)) == s.finished[k] + Held(s, k) + Items(s.queues[k])
  {
  }

  /** Reading the pipeline from its far end gives back the generated items, in order, without gap or repetition. */
  lemma Conservation(rand: seq<nat>, steps: seq<Step>)
    requires IsRun(rand, InitState(), steps)
    ensures var s := After(rand, InitState(), steps);
            Interval(0, |s.cells|) ==
              s.finished[2] + Held(s, 2) + Items(s.queues[2])
                            + Held(s, 1) + Items(s.queues[1])
                            + Held(s, 0) + Items(s.queues[0])
    ensures Items(After(rand, InitState(), steps).queues[3]) == []
  {
    var s := After(rand, InitState(), steps);
    InitInv(rand);
    RunKeeps(rand, InitState(), steps);
    StageSplit(s, 0);
    StageSplit(s, 1);
    StageSplit(s, 2);
    ItemsEmpty(s.queues[3]);
    forall j | 0 <= j < |s.queues[3]| ensures s.queues[3][j].Sentinel? {
      assert TaskFits(s.queues[3][j], 3, |s.cells|);
    }
  }

  /** Number of times item i is somewhere in the pipeline: queued, held by a worker, or completed. */
  ghost function Copies(s: State, i: nat): nat
    requires |s.workers| == |s.queues| == |s.finished| == 4
  {
    multiset(s.finished[2])[i]
    + multiset(Held(s, 0))[i] + multiset(Held(s, 1))[i] + multiset(Held(s, 2))[i] + multiset(Held(s, 3))[i]
    + multiset(Items(s.queues[0]))[i] + multiset(Items(s.queues[1]))[i]
    + multiset(Items(s.queues[2]))[i] + multiset(Items(s.queues[3]))[i]
  }

  lemma {:induction false} IntervalCount(n: nat, i: nat)
    ensures multiset(Interval(0, n))[i] == if i < n then 1 else 0
  {
    if n == 0 {
      assert Interval(0, 0) == [];
    } else {
      IntervalCount(n - 1, i);
      assert Interval(0, n) == Interval(0, n - 1) + [n - 1];
    }
  }

  lemma CountConcat7(a: seq<nat>, b: seq<nat>, c: seq<nat>, d: seq<nat>, e: seq<nat>, f: seq<nat>, g: seq<nat>, i: nat)
    ensures multiset(a + b + c + d + e + f + g)[i] ==
            multiset(a)[i] + multiset(b)[i] + multiset(c)[i] + multiset(d)[i]
            + multiset(e)[i] + multiset(f)[i] + multiset(g)[i]
  {
    assert multiset(a + b + c + d + e + f + g) ==
           multiset(a) + multiset(b) + multiset(c) + multiset(d) + multiset(e) + multiset(f) + multiset(g);
  }

  /** Every generated item is in exactly one place, and nothing else is anywhere. */
  lemma ExactlyOnePlace(rand: seq<nat>, steps: seq<Step>, i: nat)
    requires IsRun(rand, InitState(), steps)
    ensures var s := After(rand, InitState(), steps); Copies(s, i) == if i < |s.cells| then 1 else 0
  {
    var s := After(rand, InitState(), steps);
    Conservation(rand, steps);
    CountConcat7(s.finished[2], Held(s, 2), Items(s.queues[2]), Held(s, 1), Items(s.queues[1]),
                 Held(s, 0), Items(s.queues[0]), i);
    IntervalCount(|s.cells|, i);
    InitInv(rand);
    RunKeeps(rand, InitState(), steps);
    if s.workers[3].Holding? {
      assert TaskFits(s.workers[3].task, 3, |s.cells|);
    }
  }

  /** Items started at one stage are a prefix of those started at the stage before it, and all of generation order. */
  lemma PrefixOrder(rand: seq<nat>, steps: seq<Step>)
    requires IsRun(rand, InitState(), steps)
    ensures var s := After(rand, InitState(), steps);
            s.started[2] <= s.started[1] <= s.started[0] <= Interval(0, |s.cells|)
  {
    InitInv(rand);
    RunKeeps(rand, InitState(), steps);
  }

  lemma LocationFixesDepth(s: State, k: nat, i: nat)
    requires k < 3 && |s.workers| == |s.queues| == |s.started| == |s.finished| == 4
    requires FlowAt(s, 0) && FlowAt(s, 1) && FlowAt(s, 2) && FlowAt(s, k)
    requires i in Items(s.queues[k]) || i in Held(s, k)
    ensures Depth(s, i) == k
  {
  }

  /** There is one number that a value of rand() leads to. */
  lemma NumberIsFixed(rand: nat, g: nat)
    ensures NumberFrom(rand, g) <==> g == Generate(rand)
  {
  }

  /**
   An item's number and printed trace are fixed by where it is and by what rand() returned for it, and its number never
   wraps.
   */
  lemma LocationFixesValue(rand: seq<nat>, steps: seq<Step>, i: nat, g: nat)
    requires IsRun(rand, InitState(), steps) && i < |After(rand, InitState(), steps).cells|
    requires NumberFrom(rand[i], g)
    ensures var s := After(rand, InitState(), steps);
            && 99998 <= s.cells[i] <= 1000010
            && (forall k :: 0 <= k < 3 && (i in Items(s.queues[k]) || i in Held(s, k)) ==>
                  s.cells[i] == ValueAt(g, k) && s.printed[i] == TraceAt(g, k))
            && (i in s.finished[2] ==>
                  s.cells[i] == g &&
                  s.printed[i] == [Number(g), Verdict(Prime(g)), Number(g + 11), Verdict(Prime(g + 11)),
                                   Number(g - 2), Verdict(Prime(g - 2)), Number(g)])
  {
    NumberIsFixed(rand[i], g);
    var s := After(rand, InitState(), steps);
    InitInv(rand);
    RunKeeps(rand, InitState(), steps);
    assert ItemOk(rand, s, i);
    assert FlowAt(s, 0) && FlowAt(s, 1) && FlowAt(s, 2);
    forall k | 0 <= k < 3 && (i in Items(s.queues[k]) || i in Held(s, k)) ensures Depth(s, i) == k {
      assert FlowAt(s, k);
      LocationFixesDepth(s, k, i);
    }
  }

  // ---------------------------------------------------------- termination

  /** Steps still owed to a queued task: take, run and check at each stage it has left. */
  function TaskWeight(t: Task): nat {
    match t
    case Sentinel => 3
    case Stage(n, _) => if n < 3 then 9 - 3 * n else 0
  }

  function QueueWeight(q: seq<Task>): nat {
    if q == [] then 0 else TaskWeight(q[0]) + QueueWeight(q[1..])
  }

  lemma {:induction false} QueueWeightSnoc(q: seq<Task>, t: Task)
    ensures QueueWeight(q + [t]) == QueueWeight(q) + TaskWeight(t)
  {
    if q != [] {
      QueueWeightSnoc(q[1..], t);
      assert (q + [t])[1..] == q[1..] + [t];
    } else {
      assert (q + [t])[1..] == [];
    }
  }

  function WorkerWeight(w: WorkerPc): int {
    match w
    case Waiting => 0
    case Holding(t) => TaskWeight(t) - 1
    case Checking => 1
    case Exited => 0
  }

  function MainWeight(rand: seq<nat>, s: State): int {
    match s.main
    case Generating => 10 * (|rand| - |s.cells|) + 25
    case Storing(k) => 5 * (4 - k) + 4
    case Waking(k) => 5 * (4 - k) + 3
    case Joining(k) => 4 - k
    case Finished => 0
  }

  function StageWeight(s: State, k: nat): int
    requires k < |s.workers| == |s.queues|
  {
    QueueWeight(s.queues[k]) + WorkerWeight(s.workers[k])
  }

  function Measure(rand: seq<nat>, s: State): int
    requires WellFormed(rand, s)
  {
    MainWeight(rand, s) + StageWeight(s, 0) + StageWeight(s, 1) + StageWeight(s, 2) + StageWeight(s, 3)
  }

  lemma MeasureNonNegative(rand: seq<nat>, s: State)
    requires WellFormed(rand, s)
    ensures Measure(rand, s) >= 0
  {
    forall k | 0 <= k < 4 ensures StageWeight(s, k) >= 0 {
      if s.workers[k].Holding? {
        assert TaskFits(s.workers[k].task, k, |s.cells|);
      }
    }
  }

  lemma MainStepWeight(rand: seq<nat>, s: State)
    requires WellFormed(rand, s) && Enabled(rand, s, Main)
    ensures Measure(rand, Next(rand, s, Main)) == Measure(rand, s) - 1
  {
    if s.main.Generating? && |s.cells| < |rand| {
      QueueWeightSnoc(s.queues[0], Stage(0, |s.cells|));
    } else if s.main.Waking? {
      QueueWeightSnoc(s.queues[s.main.k], Sentinel);
    }
  }

  lemma BodyStepWeight(rand: seq<nat>, s: State, k: nat)
    requires WellFormed(rand, s) && Enabled(rand, s, Body(k))
    ensures Measure(rand, Next(rand, s, Body(k))) == Measure(rand, s) - 1
  {
    var t := s.workers[k].task;
    assert TaskFits(t, k, |s.cells|);
    if t.Stage? && k < 2 {
      QueueWeightSnoc(s.queues[k + 1], Stage(k + 1, t.item));
    }
  }

  lemma TakeStepWeight(rand: seq<nat>, s: State, k: nat)
    requires WellFormed(rand, s) && Enabled(rand, s, Take(k))
    ensures Measure(rand, Next(rand, s, Take(k))) == Measure(rand, s) - 1
  {
    var s' := Next(rand, s, Take(k));
    assert QueueWeight(s.queues[k]) == TaskWeight(s.queues[k][0]) + QueueWeight(s'.queues[k]);
    assert StageWeight(s', k) == StageWeight(s, k) - 1;
    assert forall j :: 0 <= j < 4 && j != k ==> StageWeight(s', j) == StageWeight(s, j);
  }

  lemma CheckStepWeight(rand: seq<nat>, s: State, k: nat)
    requires WellFormed(rand, s) && Enabled(rand, s, Check(k))
    ensures Measure(rand, Next(rand, s, Check(k))) == Measure(rand, s) - 1
  {
    var s' := Next(rand, s, Check(k));
    assert StageWeight(s', k) == StageWeight(s, k) - 1;
    assert forall j :: 0 <= j < 4 && j != k ==> StageWeight(s', j) == StageWeight(s, j);
  }

  /** Each step, whichever it is, uses up exactly one unit of the measure. */
  lemma StepWeight(rand: seq<nat>, s: State, step: Step)
    requires WellFormed(rand, s) && Enabled(rand, s, step)
    ensures Measure(rand, Next(rand, s, step)) == Measure(rand, s) - 1
  {
    match step
    case Main => MainStepWeight(rand, s);
    case Take(k) => TakeStepWeight(rand, s, k);
    case Body(k) => BodyStepWeight(rand, s, k);
    case Check(k) => CheckStepWeight(rand, s, k);
  }

  lemma {:induction false} RunWeight(rand: seq<nat>, s: State, steps: seq<Step>)
    requires WellFormed(rand, s) && IsRun(rand, s, steps)
    ensures |steps| + Measure(rand, After(rand, s, steps)) == Measure(rand, s)
    decreases |steps|
  {
    if steps != [] {
      StepWeight(rand, s, steps[0]);
      RunWeight(rand, Next(rand, s, steps[0]), steps[1..]);
    }
  }

  predicate Stuck(rand: seq<nat>, s: State)
    requires WellFormed(rand, s)
  {
    && !Enabled(rand, s, Main)
    && forall k :: 0 <= k < 4 ==>
         !Enabled(rand, s, Take(k)) && !Enabled(rand, s, Body(k)) && !Enabled(rand, s, Check(k))
  }

  predicate AllJoined(s: State)
    requires |s.workers| == 4
  {
    s.main.Finished? && forall k :: 0 <= k < 4 ==> s.workers[k].Exited?
  }

  /** A worker that has not exited once its sentinel was sent can move. */
  lemma WorkerCanMove(rand: seq<nat>, s: State, k: nat)
    requires Inv(rand, s) && k < 4 && SentinelSent(s.main, k) && !s.workers[k].Exited?
    ensures Enabled(rand, s, Take(k)) || Enabled(rand, s, Body(k)) || Enabled(rand, s, Check(k))
  {
    assert ControlAt(s, k);
  }

  /** No deadlock: a reachable state without an enabled step is one where everything has been joined. */
  lemma StuckIffJoined(rand: seq<nat>, s: State)
    requires Inv(rand, s)
    ensures Stuck(rand, s) <==> AllJoined(s)
  {
    if s.main.Joining? && !s.workers[s.main.k].Exited? {
      WorkerCanMove(rand, s, s.main.k);
    }
  }

  /** Every run is at most 10N + 25 steps long, and one that cannot be extended has joined all four workers. */
  lemma EveryRunEndsJoined(rand: seq<nat>, steps: seq<Step>)
    requires IsRun(rand, InitState(), steps)
    ensures |steps| <= 10 * |rand| + 25
    ensures Stuck(rand, After(rand, InitState(), steps)) <==> AllJoined(After(rand, InitState(), steps))
  {
    InitInv(rand);
    RunKeeps(rand, InitState(), steps);
    RunWeight(rand, InitState(), steps);
    MeasureNonNegative(rand, After(rand, InitState(), steps));
    StuckIffJoined(rand, After(rand, InitState(), steps));
  }

  lemma SomeStep(rand: seq<nat>, s: State) returns (step: Step)
    requires Inv(rand, s) && !AllJoined(s)
    ensures Enabled(rand, s, step)
  {
    StuckIffJoined(rand, s);
    if Enabled(rand, s, Main) {
      step := Main;
    } else {
      var k: nat :| k < 4 && (Enabled(rand, s, Take(k)) || Enabled(rand, s, Body(k)) || Enabled(rand, s, Check(k)));
      step := if Enabled(rand, s, Take(k)) then Take(k) else if Enabled(rand, s, Body(k)) then Body(k) else Check(k);
    }
  }

  /** From any reachable state some schedule finishes. */
  lemma Completion(rand: seq<nat>, s: State) returns (steps: seq<Step>)
    requires Inv(rand, s)
    ensures IsRun(rand, s, steps) && AllJoined(After(rand, s, steps))
    decreases Measure(rand, s)
  {
    if AllJoined(s) {
      steps := [];
    } else {
      var step := SomeStep(rand, s);
      StepKeeps(rand, s, step);
      StepWeight(rand, s, step);
      MeasureNonNegative(rand, s);
      MeasureNonNegative(rand, Next(rand, s, step));
      var rest := Completion(rand, Next(rand, s, step));
      RunCons(rand, s, step, rest);
      steps := [step] + rest;
    }
  }
}
