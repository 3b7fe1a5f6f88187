/** What stopping the workers does to the items still on their way. */
module PipelineStop {
  import opened Pipeline
  import opened PipelineRuns

  // ------------------------------------------------ after one flag is set

  function Takes(steps: seq<Step>, k: nat): nat {
    if steps == [] then 0 else (if steps[0] == Take(k) then 1 else 0) + Takes(steps[1..], k)
  }

  /** What worker k, its flag set, may still do between s and s'. */
  predicate Draining(s: State, s': State, k: nat, taken: nat)
    requires k < 4 == |s.workers| == |s.queues| == |s.stop| == |s.started|
    requires |s'.workers| == |s'.queues| == |s'.stop| == |s'.started| == 4
  {
    && s'.stop[k]
    && (taken == 0 ==>
          && s.queues[k] <= s'.queues[k] && s'.started[k] == s.started[k]
          && (s'.workers[k].Waiting? ==> s.workers[k].Waiting?))
    && (taken != 0 ==>
          && taken == 1 && s.workers[k].Waiting? && !s'.workers[k].Waiting?
          && (s.queues[k] != [] ==>
                && s.queues[k][1..] <= s'.queues[k]
                && s'.started[k] == s.started[k] + (if s.queues[k][0].Stage? then [s.queues[k][0].item] else [])))
  }

  lemma StepDrains(rand: seq<nat>, s: State, m: State, k: nat, taken: nat, step: Step)
    requires k < 4 == |s.workers| == |s.queues| == |s.stop| == |s.started|
    requires WellFormed(rand, m) && Draining(s, m, k, taken) && Enabled(rand, m, step)
    ensures Draining(s, Next(rand, m, step), k, taken + if step == Take(k) then 1 else 0)
  {
    var m' := Next(rand, m, step);
    assert step != Take(k) ==> m.queues[k] <= m'.queues[k];
    if step == Take(k) && s.queues[k] != [] {
      assert m.queues[k][0] == s.queues[k][0];
    }
  }

  lemma {:induction false} RunDrains(rand: seq<nat>, s: State, m: State, k: nat, taken: nat, steps: seq<Step>)
    requires k < 4 == |s.workers| == |s.queues| == |s.stop| == |s.started|
    requires WellFormed(rand, m) && Draining(s, m, k, taken) && IsRun(rand, m, steps)
    ensures Draining(s, After(rand, m, steps), k, taken + Takes(steps, k))
    decreases |steps|
  {
    if steps != [] {
      StepDrains(rand, s, m, k, taken, steps[0]);
      RunDrains(rand, s, Next(rand, m, steps[0]), k, taken + (if steps[0] == Take(k) then 1 else 0), steps[1..]);
    }
  }

  /**
   Once its flag is set a worker takes at most one more task, and none if it is not about to dequeue; that task is
   the head of its queue, and everything behind the head stays queued.
   */
  lemma AfterFlagAtMostOneTask(rand: seq<nat>, s: State, k: nat, steps: seq<Step>)
    requires WellFormed(rand, s) && k < 4 && s.stop[k] && IsRun(rand, s, steps)
    ensures Takes(steps, k) <= (if s.workers[k].Waiting? then 1 else 0)
    ensures var s' := After(rand, s, steps);
            s.queues[k] != [] ==>
              && (Takes(steps, k) == 0 ==> s.queues[k] <= s'.queues[k] && s'.started[k] == s.started[k])
              && (Takes(steps, k) == 1 ==>
                    && s.queues[k][1..] <= s'.queues[k]
                    && s'.started[k] == s.started[k] + (if s.queues[k][0].Stage? then [s.queues[k][0].item] else []))
  {
    RunDrains(rand, s, s, k, 0, steps);
  }

  lemma SentinelMeansFlag(rand: seq<nat>, s: State, k: nat, j: nat)
    requires WellFormed(rand, s) && Control(rand, s) && k < 4 && j < |s.queues[k]| && s.queues[k][j] == Sentinel
    ensures s.stop[k]
  {
    assert ControlAt(s, k);
    assert Sentinel in s.queues[k];
  }

  /** After a run in which k took nothing or only the head, position p > 0 of its queue still holds what it held. */
  lemma BehindHeadStays(rand: seq<nat>, s: State, k: nat, p: nat, steps: seq<Step>)
    requires WellFormed(rand, s) && k < 4 && s.stop[k] && 0 < p < |s.queues[k]| && IsRun(rand, s, steps)
    ensures var q' := After(rand, s, steps).queues[k]; var moved := Takes(steps, k);
            moved <= 1 && p - moved < |q'| && q'[p - moved] == s.queues[k][p]
    ensures |After(rand, s, steps).started[k]| <= |s.started[k]| + (if s.queues[k][0].Stage? then 1 else 0)
  {
    AfterFlagAtMostOneTask(rand, s, k, steps);
    var q, q' := s.queues[k], After(rand, s, steps).queues[k];
    if Takes(steps, k) == 0 {
      assert q'[p] == q[p];
    } else {
      assert q'[p - 1] == q[1..][p - 1] == q[p];
    }
  }

  /** Nothing queued behind a sentinel ever runs: it stays queued in every run, and only what precedes it can start. */
  lemma BehindSentinelNeverRuns(rand: seq<nat>, s: State, k: nat, j: nat, p: nat, steps: seq<Step>)
    requires WellFormed(rand, s) && Control(rand, s) && k < 4 && j < p < |s.queues[k]| && s.queues[k][j] == Sentinel
    requires IsRun(rand, s, steps)
    ensures var q' := After(rand, s, steps).queues[k]; var moved := Takes(steps, k);
            moved <= 1 && p - moved < |q'| && q'[p - moved] == s.queues[k][p]
    ensures |After(rand, s, steps).started[k]| <= |s.started[k]| + j
  {
    SentinelMeansFlag(rand, s, k, j);
    BehindHeadStays(rand, s, k, p, steps);
  }

  // ------------------------------------------- when no item can be lost

  /** All N items have completed all three stages. */
  predicate AllCompleted(rand: seq<nat>, s: State)
    requires |s.finished| == 4
  {
    s.finished[2] == Interval(0, |rand|)
  }

  /**
   The condition on the state in which `main` is about to call the first stop: the first two stages are empty, and
   the third has at most the one task that its waiting worker will take next.
   */
  predicate SafeToStop(s: State)
    requires |s.workers| == |s.queues| == 4
  {
    && s.queues[0] == [] && !s.workers[0].Holding?
    && s.queues[1] == [] && !s.workers[1].Holding?
    && (s.queues[2] == [] || (|s.queues[2]| == 1 && s.workers[2].Waiting?))
  }

  /** What a safe state turns into while the stops proceed. */
  predicate Drained(s: State)
    requires |s.workers| == |s.queues| == 4
  {
    && Items(s.queues[0]) == [] && Held(s, 0) == []
    && Items(s.queues[1]) == [] && Held(s, 1) == []
    && (Items(s.queues[2]) == [] ||
        (s.workers[2].Waiting? && s.queues[2] != [] && s.queues[2][0].Stage? && Items(s.queues[2][1..]) == []))
  }

  lemma DrainedMain(rand: seq<nat>, s: State)
    requires WellFormed(rand, s) && !s.main.Generating? && Drained(s) && Enabled(rand, s, Main)
    ensures Drained(Next(rand, s, Main))
  {
    var s' := Next(rand, s, Main);
    if s.main.Waking? {
      var k := s.main.k;
      ItemsSnoc(s.queues[k], Sentinel);
      assert s'.queues[k] == s.queues[k] + [Sentinel];
      if s.queues[2] != [] && k == 2 {
        ItemsSnoc(s.queues[2][1..], Sentinel);
        assert s'.queues[2][1..] == s.queues[2][1..] + [Sentinel];
      }
    }
  }

  lemma DrainedTake(rand: seq<nat>, s: State, k: nat)
    requires WellFormed(rand, s) && Drained(s) && Enabled(rand, s, Take(k))
    ensures Drained(Next(rand, s, Take(k)))
  {
    assert Items(s.queues[k]) ==
      (if s.queues[k][0].Stage? then [s.queues[k][0].item] else []) + Items(s.queues[k][1..]);
  }

  lemma DrainedBody(rand: seq<nat>, s: State, k: nat)
    requires WellFormed(rand, s) && Drained(s) && Enabled(rand, s, Body(k))
    ensures Drained(Next(rand, s, Body(k)))
  {
    assert TaskFits(s.workers[k].task, k, |s.cells|);
    assert k < 2 ==> s.workers[k].task.Sentinel?;
    assert Next(rand, s, Body(k)).queues == s.queues;
  }

  lemma DrainedStep(rand: seq<nat>, s: State, step: Step)
    requires WellFormed(rand, s) && !s.main.Generating? && Drained(s) && Enabled(rand, s, step)
    ensures Drained(Next(rand, s, step)) && !Next(rand, s, step).main.Generating?
  {
    match step
    case Main => DrainedMain(rand, s);
    case Take(k) => DrainedTake(rand, s, k);
    case Body(k) => DrainedBody(rand, s, k);
    case Check(k) =>
  }

  lemma {:induction false} DrainedRun(rand: seq<nat>, s: State, steps: seq<Step>)
    requires WellFormed(rand, s) && !s.main.Generating? && Drained(s) && IsRun(rand, s, steps)
    ensures Drained(After(rand, s, steps)) && !After(rand, s, steps).main.Generating?
    decreases |steps|
  {
    if steps != [] {
      DrainedStep(rand, s, steps[0]);
      DrainedRun(rand, Next(rand, s, steps[0]), steps[1..]);
    }
  }

  lemma SafeStopCompletes(rand: seq<nat>, s: State, steps: seq<Step>)
    requires Inv(rand, s) && s.main == Storing(0) && SafeToStop(s)
    requires IsRun(rand, s, steps) && AllJoined(After(rand, s, steps))
    ensures AllCompleted(rand, After(rand, s, steps))
  {
    if s.queues[2] != [] {
      assert ControlAt(s, 2);
      assert s.queues[2][0] in s.queues[2];
      assert Items(s.queues[2][1..]) == [];
    }
    DrainedRun(rand, s, steps);
    RunKeeps(rand, s, steps);
    var e := After(rand, s, steps);
    assert FlowAt(e, 0) && FlowAt(e, 1) && FlowAt(e, 2);
    StageSplit(e, 0);
    StageSplit(e, 1);
    StageSplit(e, 2);
  }

  /** Item b has not started at stage k, whose flag is set, and is not what its worker may still take. */
  predicate Doomed(s: State, k: nat, b: nat)
    requires k < 3 && |s.workers| == |s.queues| == |s.stop| == |s.started| == 4
  {
    && s.stop[k]
    && |s.started[k]| <= b < |s.cells|
    && (b == |s.started[k]| && s.workers[k].Waiting? ==>
          s.queues[k] != [] && s.queues[k][0] == Sentinel)
  }

  /** All that a step can do to stage k while its flag is set. */
  lemma FlaggedStage(rand: seq<nat>, s: State, k: nat, step: Step)
    requires WellFormed(rand, s) && k < 3 && s.stop[k] && Enabled(rand, s, step)
    ensures var s' := Next(rand, s, step);
            && s'.stop[k] && |s.cells| <= |s'.cells|
            && (step != Take(k) ==>
                  && s'.started[k] == s.started[k] && s.queues[k] <= s'.queues[k]
                  && (s'.workers[k].Waiting? ==> s.workers[k].Waiting?))
            && (step == Take(k) ==>
                  && s.workers[k].Waiting? && !s'.workers[k].Waiting?
                  && |s'.started[k]| == |s.started[k]| + (if s.queues[k][0].Stage? then 1 else 0))
  {
  }

  lemma DoomedStep(rand: seq<nat>, s: State, k: nat, b: nat, step: Step)
    requires WellFormed(rand, s) && k < 3 && Doomed(s, k, b) && Enabled(rand, s, step)
    ensures Doomed(Next(rand, s, step), k, b)
  {
    FlaggedStage(rand, s, k, step);
  }

  lemma {:induction false} DoomedRun(rand: seq<nat>, s: State, k: nat, b: nat, steps: seq<Step>)
    requires WellFormed(rand, s) && k < 3 && Doomed(s, k, b) && IsRun(rand, s, steps)
    ensures Doomed(After(rand, s, steps), k, b)
    decreases |steps|
  {
    if steps != [] {
      DoomedStep(rand, s, k, b, steps[0]);
      DoomedRun(rand, Next(rand, s, steps[0]), k, b, steps[1..]);
    }
  }

  lemma DoomedIncomplete(rand: seq<nat>, s: State, k: nat, b: nat)
    requires Inv(rand, s) && k < 3 && Doomed(s, k, b)
    ensures !AllCompleted(rand, s)
  {
    assert FlowAt(s, 0) && FlowAt(s, 1) && FlowAt(s, 2);
    assert |s.finished[2]| <= b;
  }

  /** s' is s with the first n stops fully carried out and nothing else done. */
  predicate Stopped(s: State, s': State, n: nat)
    requires n <= 4 && |s.workers| == |s.queues| == |s.stop| == |s.started| == |s.finished| == 4
    requires |s'.workers| == |s'.queues| == |s'.stop| == 4
  {
    && s'.main == (if n < 4 then Storing(n) else Joining(0))
    && s'.workers == s.workers && s'.cells == s.cells && s'.started == s.started && s'.finished == s.finished
    && forall k :: 0 <= k < 4 ==>
         s'.stop[k] == (k < n || s.stop[k]) && s'.queues[k] == s.queues[k] + (if k < n then [Sentinel] else [])
  }

  lemma StopOneMore(rand: seq<nat>, s: State, m: State, n: nat) returns (m': State)
    requires n < 4 && |s.workers| == |s.queues| == |s.stop| == |s.started| == |s.finished| == 4
    requires WellFormed(rand, m) && Stopped(s, m, n)
    ensures IsRun(rand, m, [Main, Main]) && After(rand, m, [Main, Main]) == m' && Stopped(s, m', n + 1)
  {
    var m1 := Next(rand, m, Main);
    m' := Next(rand, m1, Main);
    RunCons(rand, m1, Main, []);
    RunCons(rand, m, Main, [Main]);
    assert [Main] + [] == [Main] && [Main] + [Main] == [Main, Main];
  }

  /** The schedule that lets only the main thread run while it makes the four stop calls. */
  lemma StopBurst(rand: seq<nat>, s: State, n: nat) returns (steps: seq<Step>)
    requires Inv(rand, s) && s.main == Storing(0) && n <= 4
    ensures IsRun(rand, s, steps) && Stopped(s, After(rand, s, steps), n)
  {
    if n == 0 {
      steps := [];
    } else {
      var before := StopBurst(rand, s, n - 1);
      var m' := StopOneMore(rand, s, After(rand, s, before), n - 1);
      RunConcat(rand, s, before, After(rand, s, before), [Main, Main]);
      steps := before + [Main, Main];
    }
  }

  /** In an unsafe state some item is doomed once the main thread has rushed through the stops. */
  lemma UnsafeDooms(rand: seq<nat>, s: State, e: State) returns (k: nat, b: nat)
    requires Inv(rand, s) && s.main == Storing(0) && !SafeToStop(s)
    requires Inv(rand, e) && Stopped(s, e, 4)
    ensures k < 3 && Doomed(e, k, b)
  {
    NoSentinelYet(rand, s, 0);
    NoSentinelYet(rand, s, 1);
    NoSentinelYet(rand, s, 2);
    assert FlowAt(s, 0) && FlowAt(s, 1) && FlowAt(s, 2);
    if s.queues[0] != [] || s.workers[0].Holding? {
      k, b := 1, |s.finished[0]|;
    } else if s.queues[1] != [] || s.workers[1].Holding? {
      k, b := 2, |s.finished[1]|;
    } else {
      k, b := 2, |s.finished[1]| - 1;
    }
  }

  lemma {:induction false} AllStageItems(q: seq<Task>)
    requires forall j :: 0 <= j < |q| ==> q[j].Stage?
    ensures |Items(q)| == |q|
  {
    if q != [] {
      assert forall j :: 0 <= j < |q[1..]| ==> q[1..][j] == q[j + 1];
      AllStageItems(q[1..]);
    }
  }

  /** Before the first stop every queued or held task is a stage task. */
  lemma NoSentinelYet(rand: seq<nat>, s: State, k: nat)
    requires Inv(rand, s) && s.main == Storing(0) && k < 4
    ensures |Items(s.queues[k])| == |s.queues[k]|
    ensures s.workers[k].Holding? ==> s.workers[k].task.Stage?
  {
    assert ControlAt(s, k);
    forall j | 0 <= j < |s.queues[k]| ensures s.queues[k][j].Stage? {
      assert s.queues[k][j] in s.queues[k];
    }
    AllStageItems(s.queues[k]);
  }

  /** An unsafe state has a schedule that joins everything and still loses an item. */
  lemma UnsafeStopCanLose(rand: seq<nat>, s: State) returns (steps: seq<Step>)
    requires Inv(rand, s) && s.main == Storing(0) && !SafeToStop(s)
    ensures IsRun(rand, s, steps) && AllJoined(After(rand, s, steps)) && !AllCompleted(rand, After(rand, s, steps))
  {
    var burst := StopBurst(rand, s, 4);
    var e := After(rand, s, burst);
    RunKeeps(rand, s, burst);
    var k, b := UnsafeDooms(rand, s, e);
    var rest := Completion(rand, e);
    RunConcat(rand, s, burst, e, rest);
    steps := burst + rest;
    DoomedRun(rand, e, k, b, rest);
    RunKeeps(rand, e, rest);
    DoomedIncomplete(rand, After(rand, e, rest), k, b);
  }

  /**
   The stops lose no item under any schedule exactly when the state they start in is safe.  The program does not
   check the condition: it relies on the pauses of the generation loop to bring it about.
   */
  lemma StopLosesNothingIffSafe(rand: seq<nat>, s: State)
    requires Inv(rand, s) && s.main == Storing(0)
    ensures SafeToStop(s) <==>
            forall steps :: IsRun(rand, s, steps) && AllJoined(After(rand, s, steps)) ==>
              AllCompleted(rand, After(rand, s, steps))
  {
    if SafeToStop(s) {
      forall steps | IsRun(rand, s, steps) && AllJoined(After(rand, s, steps))
        ensures AllCompleted(rand, After(rand, s, steps))
      {
        SafeStopCompletes(rand, s, steps);
      }
    } else {
      var steps := UnsafeStopCanLose(rand, s);
    }
  }

  /** Generation alone, without a single step of a worker. */
  lemma GenerateOnly(rand: seq<nat>, n: nat) returns (steps: seq<Step>)
    requires n <= |rand|
    ensures IsRun(rand, InitState(), steps)
    ensures var s := After(rand, InitState(), steps); s.main.Generating? && |s.cells| == n && |s.queues[0]| == n
  {
    if n == 0 {
      steps := [];
    } else {
      var before := GenerateOnly(rand, n - 1);
      var m := After(rand, InitState(), before);
      assert [Main][1..] == [];
      assert IsRun(rand, m, [Main]);
      RunConcat(rand, InitState(), before, m, [Main]);
      steps := before + [Main];
    }
  }

  /** For every positive N the program has a complete run that does not complete all N items. */
  lemma SomeRunLosesAnItem(rand: seq<nat>) returns (steps: seq<Step>)
    requires rand != []
    ensures IsRun(rand, InitState(), steps)
    ensures var s := After(rand, InitState(), steps); AllJoined(s) && !AllCompleted(rand, s)
  {
    var before := GenerateOnly(rand, |rand|);
    var m := After(rand, InitState(), before);
    InitInv(rand);
    RunKeeps(rand, InitState(), before);
    StepKeeps(rand, m, Main);
    assert [Main][1..] == [];
    assert IsRun(rand, m, [Main]);
    var s := Next(rand, m, Main);
    assert After(rand, m, [Main]) == s;
    RunConcat(rand, InitState(), before, m, [Main]);
    var rest := UnsafeStopCanLose(rand, s);
    RunConcat(rand, InitState(), before + [Main], s, rest);
    steps := before + [Main] + rest;
  }

  /** If all workers are idle on empty queues when the stops begin, every complete run completes every item once. */
  lemma QuiescentStopCompletes(rand: seq<nat>, s: State, steps: seq<Step>)
    requires Inv(rand, s) && s.main == Storing(0)
    requires forall k :: 0 <= k < 4 ==> s.workers[k].Waiting? && s.queues[k] == []
    requires IsRun(rand, s, steps) && AllJoined(After(rand, s, steps))
    ensures var e := After(rand, s, steps);
            e.started[0] == e.started[1] == e.started[2] == e.finished[0] == e.finished[1] == e.finished[2]
              == Interval(0, |rand|)
  {
    SafeStopCompletes(rand, s, steps);
    RunKeeps(rand, s, steps);
    var e := After(rand, s, steps);
    assert FlowAt(e, 0) && FlowAt(e, 1) && FlowAt(e, 2);
  }
}
