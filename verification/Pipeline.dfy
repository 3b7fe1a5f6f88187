/**
 The four-stage active-object pipeline (Assignment-5/StPipeline.hpp and
 Assignment-5/ActiveObject.hpp) as a step system: one program counter for the
 main thread, one for each of the four workers, four FIFO queues, four stop
 flags and one number cell per generated item.

 Every step is deterministic, so a run is a sequence of step labels chosen by
 an arbitrary scheduler.  Storing a stop flag and enqueuing the empty task that
 wakes the worker are two steps, and so are taking a task, running its body and
 checking the flag.  A queue operation is one step; LockedPipeline.dfy has the
 queues with their locks instead, and LockedRuns.dfy proves that nothing else can
 be seen to happen there.  The cell of an item lives as long as the item does.
 */
module Pipeline {
  import opened PrimeCheck

  /** A closure in a queue: the stage-n body for one item, or the empty task of `stop`. */
  datatype Task = Stage(n: nat, item: nat) | Sentinel

  /** Where a worker is in its loop. */
  datatype WorkerPc = Waiting | Holding(task: Task) | Checking | Exited

  /** Where the main thread is: `Storing(k)` and `Waking(k)` are the two halves of stopping worker k. */
  datatype MainPc = Generating | Storing(k: nat) | Waking(k: nat) | Joining(k: nat) | Finished

  datatype Line = Number(n: nat) | Verdict(prime: bool)

  datatype Step = Main | Take(k: nat) | Body(k: nat) | Check(k: nat)

  /** `started` and `finished` record, per stage, the items whose task was taken and whose body has run. */
  datatype State = State(
    main: MainPc,
    workers: seq<WorkerPc>,
    queues: seq<seq<Task>>,
    stop: seq<bool>,
    cells: seq<nat>,
    printed: seq<seq<Line>>,
    started: seq<seq<nat>>,
    finished: seq<seq<nat>>)

  // ---------------------------------------------------------------- steps

  /** g has six digits and is 100000 more than `rand`, apart from multiples of 900000; no other number is. */
  predicate NumberFrom(rand: nat, g: nat) {
    100000 <= g <= 999999 && (g - 100000 - rand) % 900000 == 0
  }

  /** generateNumber on one value of rand(). */
  function Generate(rand: nat): (g: nat)
    ensures NumberFrom(rand, g)
  {
    rand % 900000 + 100000
  }

  /** Unsigned 32-bit addition; subtracting d is adding UINT_LIMIT - d. */
  function Add32(a: nat, b: nat): nat {
    (a + b) % UINT_LIMIT
  }

  function InitState(): State {
    State(Generating, seq(4, _ => Waiting), seq(4, _ => []), seq(4, _ => false), [], [],
          seq(4, _ => []), seq(4, _ => []))
  }

  predicate TaskFits(t: Task, k: nat, items: nat) {
    t.Stage? ==> t.n == k && k < 3 && t.item < items
  }

  /** The shape every state has: four of everything, and each task belongs to the worker that gets it. */
  predicate WellFormed(rand: seq<nat>, s: State) {
    && |s.workers| == |s.queues| == |s.stop| == |s.started| == |s.finished| == 4
    && |s.printed| == |s.cells| <= |rand|
    && (s.main.Generating? || |s.cells| == |rand|)
    && (s.main.Storing? || s.main.Waking? || s.main.Joining? ==> s.main.k < 4)
    && (forall k, j :: 0 <= k < 4 && 0 <= j < |s.queues[k]| ==> TaskFits(s.queues[k][j], k, |s.cells|))
    && (forall k :: 0 <= k < 4 && s.workers[k].Holding? ==> TaskFits(s.workers[k].task, k, |s.cells|))
  }

  predicate Enabled(rand: seq<nat>, s: State, step: Step)
    requires WellFormed(rand, s)
  {
    match step
    case Main =>
      !s.main.Finished? && (s.main.Joining? ==> s.workers[s.main.k].Exited?)
    case Take(k) => k < 4 && s.workers[k].Waiting? && s.queues[k] != []
    case Body(k) => k < 4 && s.workers[k].Holding?
    case Check(k) => k < 4 && s.workers[k].Checking?
  }

  function Enqueue(s: State, k: nat, t: Task): State
    requires k < |s.queues|
  {
    s.(queues := s.queues[k := s.queues[k] + [t]])
  }

  function MainNext(rand: seq<nat>, s: State): State
    requires WellFormed(rand, s) && Enabled(rand, s, Main)
  {
    match s.main
    case Generating =>
      if |s.cells| < |rand| then
        Enqueue(s.(cells := s.cells + [Generate(rand[|s.cells|])], printed := s.printed + [[]]),
                0, Stage(0, |s.cells|))
      else
        s.(main := Storing(0))
    case Storing(k) => s.(main := Waking(k), stop := s.stop[k := true])
    case Waking(k) => Enqueue(s, k, Sentinel).(main := if k < 3 then Storing(k + 1) else Joining(0))
    case Joining(k) => s.(main := if k < 3 then Joining(k + 1) else Finished)
  }

  function TakeNext(s: State, k: nat): State
    requires k < 4 == |s.workers| == |s.queues| == |s.started| && s.queues[k] != []
  {
    var t := s.queues[k][0];
    s.(workers := s.workers[k := Holding(t)],
       queues := s.queues[k := s.queues[k][1..]],
       started := if t.Stage? then s.started[k := s.started[k] + [t.item]] else s.started)
  }

  /** What the stage-n body prints: the number, its verdict, and at the last stage the final number. */
  ghost function BodyLines(n: nat, value: nat): seq<Line> {
    [Number(value), Verdict(Prime(value))] + (if n == 2 then [Number(Add32(value, 2))] else [])
  }

  /** num += 11, num -= 13, num += 2. */
  function BodyValue(n: nat, value: nat): nat {
    if n == 0 then Add32(value, 11) else if n == 1 then Add32(value, UINT_LIMIT - 13) else Add32(value, 2)
  }

  ghost function BodyNext(rand: seq<nat>, s: State, k: nat): State
    requires WellFormed(rand, s) && Enabled(rand, s, Body(k))
  {
    var done := s.(workers := s.workers[k := Checking]);
    match s.workers[k].task
    case Sentinel => done
    case Stage(n, i) =>
      var ran := done.(cells := s.cells[i := BodyValue(n, s.cells[i])],
                       printed := s.printed[i := s.printed[i] + BodyLines(n, s.cells[i])],
                       finished := s.finished[n := s.finished[n] + [i]]);
      if n < 2 then Enqueue(ran, n + 1, Stage(n + 1, i)) else ran
  }

  function CheckNext(s: State, k: nat): State
    requires k < 4 == |s.workers| == |s.stop|
  {
    s.(workers := s.workers[k := if s.stop[k] then Exited else Waiting])
  }

  ghost function Next(rand: seq<nat>, s: State, step: Step): (s': State)
    requires WellFormed(rand, s) && Enabled(rand, s, step)
    ensures WellFormed(rand, s')
  {
    match step
    case Main => MainNext(rand, s)
    case Take(k) => TakeNext(s, k)
    case Body(k) => BodyNext(rand, s, k)
    case Check(k) => CheckNext(s, k)
  }

  // ----------------------------------------------------------------- runs

  ghost predicate IsRun(rand: seq<nat>, s: State, steps: seq<Step>)
    requires WellFormed(rand, s)
    decreases |steps|
  {
    steps == [] || (Enabled(rand, s, steps[0]) && IsRun(rand, Next(rand, s, steps[0]), steps[1..]))
  }

  ghost function After(rand: seq<nat>, s: State, steps: seq<Step>): (s': State)
    requires WellFormed(rand, s) && IsRun(rand, s, steps)
    ensures WellFormed(rand, s')
    decreases |steps|
  {
    if steps == [] then s else After(rand, Next(rand, s, steps[0]), steps[1..])
  }

  lemma RunCons(rand: seq<nat>, s: State, step: Step, rest: seq<Step>)
    requires WellFormed(rand, s) && Enabled(rand, s, step) && IsRun(rand, Next(rand, s, step), rest)
    ensures IsRun(rand, s, [step] + rest)
    ensures After(rand, s, [step] + rest) == After(rand, Next(rand, s, step), rest)
  {
    assert ([step] + rest)[1..] == rest;
  }

  lemma {:induction false} RunConcat(rand: seq<nat>, s: State, a: seq<Step>, m: State, b: seq<Step>)
    requires WellFormed(rand, s) && WellFormed(rand, m)
    requires IsRun(rand, s, a) && After(rand, s, a) == m && IsRun(rand, m, b)
    ensures IsRun(rand, s, a + b) && After(rand, s, a + b) == After(rand, m, b)
    decreases |a|
  {
    if a == [] {
      assert a + b == b;
    } else {
      var s1, rest := Next(rand, s, a[0]), a[1..];
      var c := a + b;
      assert c[0] == a[0] && c[1..] == rest + b;
      RunConcat(rand, s1, rest, m, b);
    }
  }

  // ------------------------------------------------------------ invariant

  /** The items of the stage tasks in a queue, in queue order. */
  function Items(q: seq<Task>): (r: seq<nat>)
    ensures |r| <= |q|
  {
    if q == [] then []
    else (if q[0].Stage? then [q[0].item] else []) + Items(q[1..])
  }

  lemma {:induction false} ItemsSnoc(q: seq<Task>, t: Task)
    ensures Items(q + [t]) == Items(q) + (if t.Stage? then [t.item] else [])
  {
    if q != [] {
      ItemsSnoc(q[1..], t);
      assert (q + [t])[1..] == q[1..] + [t];
    } else {
      assert Items([t]) == (if t.Stage? then [t.item] else []) + Items([]);
    }
  }

  lemma {:induction false} ItemsEmpty(q: seq<Task>)
    ensures Items(q) == [] <==> forall j :: 0 <= j < |q| ==> q[j].Sentinel?
  {
    if q != [] {
      ItemsEmpty(q[1..]);
      if Items(q) == [] {
        forall j | 0 <= j < |q| ensures q[j].Sentinel? {
          if j > 0 { assert q[j] == q[1..][j - 1]; }
        }
      }
    }
  }

  function Interval(a: nat, b: nat): (r: seq<nat>)
    requires a <= b
    ensures |r| == b - a && forall i :: 0 <= i < b - a ==> r[i] == a + i
  {
    seq(b - a, i requires 0 <= i => a + i)
  }

  /** How many items have reached queue k: the generated ones, or those the previous stage handed on. */
  function Arrived(s: State, k: nat): nat
    requires k < 3 && |s.finished| == 4
  {
    if k == 0 then |s.cells| else |s.finished[k - 1]|
  }

  predicate FlowAt(s: State, k: nat)
    requires k < 3 && |s.workers| == |s.queues| == |s.started| == |s.finished| == 4
  {
    var st, fin := |s.started[k]|, |s.finished[k]|;
    && fin <= st <= Arrived(s, k)
    && s.started[k] == Interval(0, st)
    && s.finished[k] == Interval(0, fin)
    && Items(s.queues[k]) == Interval(st, Arrived(s, k))
    && (if s.workers[k].Holding? && s.workers[k].task.Stage?
        then st == fin + 1 && s.workers[k].task.item == fin
        else st == fin)
  }

  /** Items move through the stages in generation order and none is lost or doubled on the way. */
  predicate Flow(rand: seq<nat>, s: State)
    requires WellFormed(rand, s)
  {
    FlowAt(s, 0) && FlowAt(s, 1) && FlowAt(s, 2) && s.started[3] == s.finished[3] == []
  }

  predicate FlagStored(m: MainPc, k: nat) {
    match m
    case Generating => false
    case Storing(j) => k < j
    case Waking(j) => k <= j
    case Joining(_) => true
    case Finished => true
  }

  predicate SentinelSent(m: MainPc, k: nat) {
    match m
    case Generating => false
    case Storing(j) => k < j
    case Waking(j) => k < j
    case Joining(_) => true
    case Finished => true
  }

  predicate ControlAt(s: State, k: nat)
    requires k < 4 && |s.workers| == |s.queues| == |s.stop| == 4
  {
    && (s.stop[k] <==> FlagStored(s.main, k))
    && (Sentinel in s.queues[k] ==> SentinelSent(s.main, k))
    && (s.workers[k] == Holding(Sentinel) ==> SentinelSent(s.main, k))
    && (SentinelSent(s.main, k) && s.workers[k].Waiting? ==> Sentinel in s.queues[k])
    && (s.workers[k].Exited? ==> s.stop[k])
    && (s.main.Joining? && k < s.main.k ==> s.workers[k].Exited?)
    && (s.main.Finished? ==> s.workers[k].Exited?)
  }

  predicate Control(rand: seq<nat>, s: State)
    requires WellFormed(rand, s)
  {
    ControlAt(s, 0) && ControlAt(s, 1) && ControlAt(s, 2) && ControlAt(s, 3)
  }

  /** How many stage bodies have run on item i. */
  function Depth(s: State, i: nat): (d: nat)
    requires |s.finished| == 4
    ensures d <= 3
  {
    if i < |s.finished[2]| then 3 else if i < |s.finished[1]| then 2 else if i < |s.finished[0]| then 1 else 0
  }

  /** The number an item generated as g carries after d stages. */
  function ValueAt(g: nat, d: nat): nat
    requires 100000 <= g <= 999999
  {
    if d == 1 then g + 11 else if d == 2 then g - 2 else g
  }

  /** What has been printed about an item generated as g after d stages. */
  ghost function TraceAt(g: nat, d: nat): seq<Line>
    requires 100000 <= g <= 999999 && d <= 3
  {
    (if d >= 1 then [Number(g), Verdict(Prime(g))] else []) +
    (if d >= 2 then [Number(g + 11), Verdict(Prime(g + 11))] else []) +
    (if d >= 3 then [Number(g - 2), Verdict(Prime(g - 2)), Number(g)] else [])
  }

  ghost predicate ItemOk(rand: seq<nat>, s: State, i: nat)
    requires WellFormed(rand, s) && i < |s.cells|
  {
    && s.cells[i] == ValueAt(Generate(rand[i]), Depth(s, i))
    && s.printed[i] == TraceAt(Generate(rand[i]), Depth(s, i))
  }

  ghost predicate Values(rand: seq<nat>, s: State)
    requires WellFormed(rand, s)
  {
    forall i :: 0 <= i < |s.cells| ==> ItemOk(rand, s, i)
  }

  ghost predicate Inv(rand: seq<nat>, s: State) {
    WellFormed(rand, s) && Flow(rand, s) && Control(rand, s) && Values(rand, s)
  }

  lemma InitInv(rand: seq<nat>)
    ensures Inv(rand, InitState())
  {
  }

  lemma FlowFrame(s: State, s': State, k: nat)
    requires k < 3 && |s.workers| == |s.queues| == |s.started| == |s.finished| == 4
    requires |s'.workers| == |s'.queues| == |s'.started| == |s'.finished| == 4
    requires FlowAt(s, k)
    requires s'.workers[k] == s.workers[k] && Items(s'.queues[k]) == Items(s.queues[k])
    requires s'.started[k] == s.started[k] && s'.finished[k] == s.finished[k] && Arrived(s', k) == Arrived(s, k)
    ensures FlowAt(s', k)
  {
  }

  lemma ControlFrame(s: State, s': State, k: nat)
    requires k < 4 && |s.workers| == |s.queues| == |s.stop| == 4 == |s'.workers| == |s'.queues| == |s'.stop|
    requires ControlAt(s, k) && s'.main == s.main
    requires s'.workers[k] == s.workers[k] && s'.queues[k] == s.queues[k] && s'.stop[k] == s.stop[k]
    ensures ControlAt(s', k)
  {
  }

  lemma GenerateFlow(rand: seq<nat>, s: State)
    requires WellFormed(rand, s) && Flow(rand, s) && s.main.Generating? && |s.cells| < |rand|
    ensures Flow(rand, Next(rand, s, Main))
  {
    var s' := Next(rand, s, Main);
    BodyFlowNext(s, s', 0, |s.cells|);
    FlowFrame(s, s', 1);
    FlowFrame(s, s', 2);
  }

  lemma GenerateControl(rand: seq<nat>, s: State)
    requires WellFormed(rand, s) && Control(rand, s) && s.main.Generating? && |s.cells| < |rand|
    ensures Control(rand, Next(rand, s, Main))
  {
    var s' := Next(rand, s, Main);
    assert s'.queues[0] == s.queues[0] + [Stage(0, |s.cells|)];
    ControlFrame(s, s', 1);
    ControlFrame(s, s', 2);
    ControlFrame(s, s', 3);
  }

  lemma GenerateValues(rand: seq<nat>, s: State)
    requires WellFormed(rand, s) && Flow(rand, s) && Values(rand, s) && s.main.Generating? && |s.cells| < |rand|
    ensures Values(rand, Next(rand, s, Main))
  {
    var s' := Next(rand, s, Main);
    forall i | 0 <= i < |s'.cells| ensures ItemOk(rand, s', i) {
      if i < |s.cells| {
        assert ItemOk(rand, s, i);
      }
    }
  }

  lemma WakeKeeps(rand: seq<nat>, s: State)
    requires Inv(rand, s) && s.main.Waking?
    ensures Inv(rand, Next(rand, s, Main))
  {
    var s' := Next(rand, s, Main);
    var k := s.main.k;
    ItemsSnoc(s.queues[k], Sentinel);
    assert s'.queues[k] == s.queues[k] + [Sentinel];
    assert s'.queues[k][|s.queues[k]|] == Sentinel;
    FlowFrame(s, s', 0);
    FlowFrame(s, s', 1);
    FlowFrame(s, s', 2);
    assert ControlAt(s', 0) && ControlAt(s', 1) && ControlAt(s', 2) && ControlAt(s', 3);
    ValuesFrame(rand, s, s');
  }

  lemma MainKeeps(rand: seq<nat>, s: State)
    requires Inv(rand, s) && Enabled(rand, s, Main)
    ensures Inv(rand, Next(rand, s, Main))
  {
    if s.main.Generating? && |s.cells| < |rand| {
      GenerateFlow(rand, s);
      GenerateControl(rand, s);
      GenerateValues(rand, s);
    } else if s.main.Waking? {
      WakeKeeps(rand, s);
    } else {
      var s' := Next(rand, s, Main);
      FlowFrame(s, s', 0);
      FlowFrame(s, s', 1);
      FlowFrame(s, s', 2);
      assert ControlAt(s', 0) && ControlAt(s', 1) && ControlAt(s', 2) && ControlAt(s', 3);
      ValuesFrame(rand, s, s');
    }
  }

  lemma ValuesFrame(rand: seq<nat>, s: State, s': State)
    requires WellFormed(rand, s) && WellFormed(rand, s') && Values(rand, s)
    requires s'.cells == s.cells && s'.printed == s.printed && s'.finished == s.finished
    ensures Values(rand, s')
  {
    forall i | 0 <= i < |s'.cells| ensures ItemOk(rand, s', i) {
      assert ItemOk(rand, s, i);
    }
  }

  lemma TakeFlow(s: State, k: nat)
    requires k < 3 && |s.workers| == |s.queues| == |s.started| == |s.finished| == 4
    requires FlowAt(s, k) && s.queues[k] != [] && s.workers[k].Waiting?
    ensures FlowAt(TakeNext(s, k), k)
  {
    var s' := TakeNext(s, k);
    var q := s.queues[k];
    assert Items(q) == (if q[0].Stage? then [q[0].item] else []) + Items(q[1..]);
    if q[0].Stage? {
      assert Items(q)[0] == q[0].item;
      assert Items(q[1..]) == Items(q)[1..];
      assert s'.started[k] == s.started[k] + [q[0].item];
    }
  }

  lemma TakeKeepsFlow(rand: seq<nat>, s: State, k: nat)
    requires WellFormed(rand, s) && Flow(rand, s) && Enabled(rand, s, Take(k))
    ensures Flow(rand, Next(rand, s, Take(k)))
  {
    var s' := Next(rand, s, Take(k));
    assert TaskFits(s.queues[k][0], k, |s.cells|);
    FlowOthers(s, s', k);
    if k < 3 {
      assert FlowAt(s, k);
      TakeFlow(s, k);
    }
  }

  lemma TakeKeepsControl(rand: seq<nat>, s: State, k: nat)
    requires WellFormed(rand, s) && Control(rand, s) && Enabled(rand, s, Take(k))
    ensures Control(rand, Next(rand, s, Take(k)))
  {
    ControlOthers(s, Next(rand, s, Take(k)), k);
    assert ControlAt(s, k);
    TakeControl(rand, s, k);
  }

  lemma TakeKeeps(rand: seq<nat>, s: State, k: nat)
    requires Inv(rand, s) && Enabled(rand, s, Take(k))
    ensures Inv(rand, Next(rand, s, Take(k)))
  {
    TakeKeepsFlow(rand, s, k);
    TakeKeepsControl(rand, s, k);
    ValuesFrame(rand, s, Next(rand, s, Take(k)));
  }

  lemma TakeControl(rand: seq<nat>, s: State, k: nat)
    requires WellFormed(rand, s) && Enabled(rand, s, Take(k)) && ControlAt(s, k)
    ensures ControlAt(Next(rand, s, Take(k)), k)
  {
    var q := s.queues[k];
    assert q[0] in q;
    assert forall t :: t in q[1..] ==> t in q;
  }

  /** A step of worker k that hands nothing on leaves the flow at the other stages alone. */
  lemma FlowOthers(s: State, s': State, k: nat)
    requires k < 4 && |s.workers| == |s.queues| == |s.started| == |s.finished| == 4
    requires |s'.workers| == |s'.queues| == |s'.started| == |s'.finished| == 4
    requires FlowAt(s, 0) && FlowAt(s, 1) && FlowAt(s, 2)
    requires s'.cells == s.cells && s'.finished == s.finished
    requires forall j :: 0 <= j < 4 && j != k ==>
      s'.workers[j] == s.workers[j] && s'.queues[j] == s.queues[j] && s'.started[j] == s.started[j]
    ensures forall j :: 0 <= j < 3 && j != k ==> FlowAt(s', j)
  {
    forall j | 0 <= j < 3 && j != k ensures FlowAt(s', j) {
      assert FlowAt(s, j);
      FlowFrame(s, s', j);
    }
  }

  lemma ControlOthers(s: State, s': State, k: nat)
    requires k < 4 && |s.workers| == |s.queues| == |s.stop| == 4 == |s'.workers| == |s'.queues| == |s'.stop|
    requires ControlAt(s, 0) && ControlAt(s, 1) && ControlAt(s, 2) && ControlAt(s, 3)
    requires s'.main == s.main && s'.stop == s.stop
    requires forall j :: 0 <= j < 4 && j != k ==> s'.workers[j] == s.workers[j] && s'.queues[j] == s.queues[j]
    ensures forall j :: 0 <= j < 4 && j != k ==> ControlAt(s', j)
  {
    forall j | 0 <= j < 4 && j != k ensures ControlAt(s', j) {
      assert ControlAt(s, j);
      ControlFrame(s, s', j);
    }
  }

  lemma CheckKeepsFlow(rand: seq<nat>, s: State, k: nat)
    requires WellFormed(rand, s) && Flow(rand, s) && Enabled(rand, s, Check(k))
    ensures Flow(rand, Next(rand, s, Check(k)))
  {
    FlowOthers(s, Next(rand, s, Check(k)), k);
    assert k < 3 ==> FlowAt(s, k);
  }

  lemma CheckKeepsControl(rand: seq<nat>, s: State, k: nat)
    requires WellFormed(rand, s) && Control(rand, s) && Enabled(rand, s, Check(k))
    ensures Control(rand, Next(rand, s, Check(k)))
  {
    ControlOthers(s, Next(rand, s, Check(k)), k);
    assert ControlAt(s, k);
  }

  lemma CheckKeeps(rand: seq<nat>, s: State, k: nat)
    requires Inv(rand, s) && Enabled(rand, s, Check(k))
    ensures Inv(rand, Next(rand, s, Check(k)))
  {
    CheckKeepsFlow(rand, s, k);
    CheckKeepsControl(rand, s, k);
    ValuesFrame(rand, s, Next(rand, s, Check(k)));
  }

  /** One stage body takes an item's number and trace from depth d to depth d + 1, without wrapping. */
  lemma BodyAdvances(g: nat, d: nat)
    requires 100000 <= g <= 999999 && d < 3
    ensures BodyValue(d, ValueAt(g, d)) == ValueAt(g, d + 1)
    ensures TraceAt(g, d) + BodyLines(d, ValueAt(g, d)) == TraceAt(g, d + 1)
  {
  }

  lemma BodyKeepsControl(rand: seq<nat>, s: State, k: nat)
    requires Inv(rand, s) && Enabled(rand, s, Body(k))
    ensures Control(rand, Next(rand, s, Body(k)))
  {
    var s' := Next(rand, s, Body(k));
    var t := s.workers[k].task;
    assert TaskFits(t, k, |s.cells|);
    forall j | 0 <= j < 4 ensures ControlAt(s', j) {
      assert ControlAt(s, j);
      if t.Stage? && k < 2 && j == k + 1 {
        assert s'.queues[j] == s.queues[j] + [Stage(k + 1, t.item)];
        assert Sentinel in s'.queues[j] <==> Sentinel in s.queues[j];
      }
    }
  }

  /** The flow at stage k after its worker has run the body of item i. */
  lemma BodyFlowHere(s: State, s': State, k: nat, i: nat)
    requires k < 3 && |s.workers| == |s.queues| == |s.started| == |s.finished| == 4
    requires |s'.workers| == |s'.queues| == |s'.started| == |s'.finished| == 4
    requires FlowAt(s, k) && s.workers[k] == Holding(Stage(k, i)) && s'.workers[k] == Checking
    requires s'.queues[k] == s.queues[k] && s'.started[k] == s.started[k]
    requires s'.finished[k] == s.finished[k] + [i] && Arrived(s', k) == Arrived(s, k)
    ensures FlowAt(s', k)
  {
  }

  /** The flow at stage k when item i, the next to arrive, is enqueued there. */
  lemma BodyFlowNext(s: State, s': State, k: nat, i: nat)
    requires k < 3 && |s.workers| == |s.queues| == |s.started| == |s.finished| == 4
    requires |s'.workers| == |s'.queues| == |s'.started| == |s'.finished| == 4
    requires FlowAt(s, k) && s'.workers[k] == s.workers[k]
    requires s'.started[k] == s.started[k] && s'.finished[k] == s.finished[k]
    requires s'.queues[k] == s.queues[k] + [Stage(k, i)]
    requires Arrived(s, k) == i && Arrived(s', k) == i + 1
    ensures FlowAt(s', k)
  {
    ItemsSnoc(s.queues[k], Stage(k, i));
  }

  /** The effect of a stage body on everything the flow at the other stages depends on. */
  lemma BodyFlowOthers(s: State, s': State, k: nat)
    requires k < 3 && |s.workers| == |s.queues| == |s.started| == |s.finished| == 4
    requires |s'.workers| == |s'.queues| == |s'.started| == |s'.finished| == 4
    requires FlowAt(s, 0) && FlowAt(s, 1) && FlowAt(s, 2)
    requires |s'.cells| == |s.cells| && s'.started == s.started
    requires forall j :: 0 <= j < 3 && j != k ==> s'.finished[j] == s.finished[j]
    requires forall j :: 0 <= j < 4 && j != k ==> s'.workers[j] == s.workers[j]
    requires forall j :: 0 <= j < 4 && j != k + 1 ==> s'.queues[j] == s.queues[j]
    ensures forall j :: 0 <= j < 3 && j != k && j != k + 1 ==> FlowAt(s', j)
  {
    forall j | 0 <= j < 3 && j != k && j != k + 1 ensures FlowAt(s', j) {
      assert FlowAt(s, j);
      FlowFrame(s, s', j);
    }
  }

  lemma SentinelBodyFlow(s: State, s': State, k: nat)
    requires k < 4 && |s.workers| == |s.queues| == |s.started| == |s.finished| == 4
    requires FlowAt(s, 0) && FlowAt(s, 1) && FlowAt(s, 2)
    requires s.workers[k] == Holding(Sentinel) && s' == s.(workers := s.workers[k := Checking])
    ensures FlowAt(s', 0) && FlowAt(s', 1) && FlowAt(s', 2)
  {
    FlowOthers(s, s', k);
    assert k < 3 ==> FlowAt(s, k);
  }

  lemma BodyKeepsFlow(rand: seq<nat>, s: State, k: nat)
    requires WellFormed(rand, s) && Flow(rand, s) && Enabled(rand, s, Body(k))
    ensures Flow(rand, Next(rand, s, Body(k)))
  {
    var s' := Next(rand, s, Body(k));
    var t := s.workers[k].task;
    if t.Sentinel? {
      SentinelBodyFlow(s, s', k);
    } else {
      assert TaskFits(t, k, |s.cells|);
      StageBodyFlow(rand, s, k, t.item);
    }
  }

  lemma StageBodyFlow(rand: seq<nat>, s: State, k: nat, i: nat)
    requires WellFormed(rand, s) && Flow(rand, s)
    requires k < 3 && i < |s.cells| && s.workers[k] == Holding(Stage(k, i))
    ensures Flow(rand, Next(rand, s, Body(k)))
  {
    var s' := Next(rand, s, Body(k));
    assert FlowAt(s, k);
    BodyFlowHere(s, s', k, i);
    BodyFlowOthers(s, s', k);
    if k < 2 {
      assert FlowAt(s, k + 1);
      BodyFlowNext(s, s', k + 1, i);
    }
  }

  lemma BodyKeeps(rand: seq<nat>, s: State, k: nat)
    requires Inv(rand, s) && Enabled(rand, s, Body(k))
    ensures Inv(rand, Next(rand, s, Body(k)))
  {
    var s' := Next(rand, s, Body(k));
    BodyKeepsFlow(rand, s, k);
    BodyKeepsControl(rand, s, k);
    forall i | 0 <= i < |s'.cells| ensures ItemOk(rand, s', i) {
      assert ItemOk(rand, s, i);
      BodyKeepsItem(rand, s, k, i);
    }
  }

  lemma BodyKeepsItem(rand: seq<nat>, s: State, k: nat, i: nat)
    requires WellFormed(rand, s) && Flow(rand, s) && Enabled(rand, s, Body(k))
    requires i < |s.cells| && ItemOk(rand, s, i)
    ensures ItemOk(rand, Next(rand, s, Body(k)), i)
  {
    var t := s.workers[k].task;
    if t.Stage? {
      assert TaskFits(t, k, |s.cells|);
      assert FlowAt(s, k);
      StageBodyItem(rand, s, k, t.item, i);
    }
  }

  lemma StageBodyItem(rand: seq<nat>, s: State, k: nat, t: nat, i: nat)
    requires WellFormed(rand, s) && Flow(rand, s) && i < |s.cells| && ItemOk(rand, s, i)
    requires k < 3 && t < |s.cells| && s.workers[k] == Holding(Stage(k, t)) && t == |s.finished[k]|
    ensures ItemOk(rand, Next(rand, s, Body(k)), i)
  {
    var s' := Next(rand, s, Body(k));
    assert s'.finished == s.finished[k := s.finished[k] + [t]];
    if i == t {
      assert Depth(s, i) == k && Depth(s', i) == k + 1;
      BodyAdvances(Generate(rand[i]), k);
    } else {
      assert Depth(s', i) == Depth(s, i);
    }
  }

  lemma StepKeeps(rand: seq<nat>, s: State, step: Step)
    requires Inv(rand, s) && Enabled(rand, s, step)
    ensures Inv(rand, Next(rand, s, step))
  {
    match step
    case Main => MainKeeps(rand, s);
    case Take(k) => TakeKeeps(rand, s, k);
    case Body(k) => BodyKeeps(rand, s, k);
    case Check(k) => CheckKeeps(rand, s, k);
  }

  /** The invariant holds after every run, whatever the scheduler does. */
  lemma {:induction false} RunKeeps(rand: seq<nat>, s: State, steps: seq<Step>)
    requires Inv(rand, s) && IsRun(rand, s, steps)
    ensures Inv(rand, After(rand, s, steps))
    decreases |steps|
  {
    if steps != [] {
      StepKeeps(rand, s, steps[0]);
      RunKeeps(rand, Next(rand, s, steps[0]), steps[1..]);
    }
  }
}
