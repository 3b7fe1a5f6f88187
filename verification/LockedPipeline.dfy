/**
 The pipeline over the queues it really has: four queues under mutexes, with
 sleeping consumers, each step being one access to a mutex, a condition variable
 or an underlying queue (BlockingQueue.dfy), or a thread's own work between two
 queue operations.  It refines Pipeline.dfy, in which queue operations are
 single steps, and every run of Pipeline.dfy is one of its own.
 */
module LockedPipeline {
  import opened PrimeCheck
  import opened Pipeline
  import Q = BlockingQueue

  /** The producers of queue k: the main thread, and the worker of queue k - 1. */
  const MAIN: nat := 0
  const NEIGHBOUR: nat := 1

  /**
   A program counter moves on when its thread pushes or pops; what is left of the queue operation is in the queue's
   own state.  So a worker that is still Holding with its hand-over begun has run the rest of its closure.
   */
  datatype Locked = Locked(
    main: MainPc,
    workers: seq<WorkerPc>,
    q: seq<Q.State<Task>>,
    stop: seq<bool>,
    cells: seq<nat>,
    printed: seq<seq<Line>>)

  /**
   `Enter`: the main thread calls enqueue, having generated the number if there is one to generate; `Local`: it does
   anything else.  `Begin`: a worker runs its closure up to the call of enqueue; `Run`: a closure that hands nothing on.
   `Inside`: a step of a queue operation.
   */
  datatype Move =
    | Enter | Local | Begin(k: nat) | Run(k: nat) | CheckFlag(k: nat)
    | Inside(k: nat, step: Q.Step<Task>)

  predicate Sized(f: Locked) {
    && |f.workers| == |f.q| == |f.stop| == 4 && |f.printed| == |f.cells|
    && (forall k :: 0 <= k < 4 ==> |f.q[k].producers| == 2)
  }

  function Start(): Locked {
    Locked(Generating, seq(4, _ => Waiting), seq(4, _ => Q.Init(2)), seq(4, _ => false), [], [])
  }

  predicate MainOutside(f: Locked)
    requires Sized(f)
  {
    forall k :: 0 <= k < 4 ==> f.q[k].producers[MAIN].Outside?
  }

  /** Worker k is not inside a call of enqueue. */
  predicate WorkerOutside(f: Locked, k: nat)
    requires Sized(f) && k < 4
  {
    k < 3 ==> f.q[k + 1].producers[NEIGHBOUR].Outside?
  }

  predicate HoldsItem(f: Locked, k: nat)
    requires Sized(f) && k < 4
  {
    f.workers[k].Holding? && f.workers[k].task.Stage? && f.workers[k].task.item < |f.cells|
  }

  predicate Can(rand: seq<nat>, f: Locked, m: Move)
    requires Sized(f)
  {
    match m
    case Enter =>
      MainOutside(f) && ((f.main.Generating? && |f.cells| < |rand|) || (f.main.Waking? && f.main.k < 4))
    case Local =>
      MainOutside(f) &&
      ((f.main.Generating? && |f.cells| >= |rand|) || (f.main.Storing? && f.main.k < 4) ||
       (f.main.Joining? && f.main.k < 4 && f.workers[f.main.k].Exited?))
    case Begin(k) => k < 2 && HoldsItem(f, k) && WorkerOutside(f, k)
    case Run(k) => k < 4 && (f.workers[k] == Holding(Sentinel) || (k == 2 && HoldsItem(f, k)))
    case CheckFlag(k) => k < 4 && f.workers[k].Checking? && WorkerOutside(f, k)
    case Inside(k, step) =>
      k < 4 && Q.Enabled(f.q[k], step) && !step.CallEnqueue? && (step.CallDequeue? ==> f.workers[k].Waiting?)
  }

  function AfterWaking(k: nat): MainPc {
    if k < 3 then Storing(k + 1) else Joining(0)
  }

  function QueueStep(f: Locked, k: nat, step: Q.Step<Task>): (f': Locked)
    requires Sized(f) && k < 4 && Q.Enabled(f.q[k], step)
    ensures Sized(f')
  {
    f.(q := f.q[k := Q.Next(f.q[k], step)])
  }

  /** The part of stage n's closure that deals with item i alone. */
  ghost function Work(f: Locked, n: nat, i: nat): (f': Locked)
    requires Sized(f) && i < |f.cells|
    ensures Sized(f')
  {
    f.(cells := f.cells[i := BodyValue(n, f.cells[i])],
       printed := f.printed[i := f.printed[i] + BodyLines(n, f.cells[i])])
  }

  ghost function Make(rand: seq<nat>, f: Locked, m: Move): (f': Locked)
    requires Sized(f) && Can(rand, f, m)
    ensures Sized(f')
  {
    match m
    case Enter =>
      if f.main.Waking? then QueueStep(f, f.main.k, Q.CallEnqueue(MAIN, Sentinel))
      else
        QueueStep(f.(cells := f.cells + [Generate(rand[|f.cells|])], printed := f.printed + [[]]),
                  0, Q.CallEnqueue(MAIN, Stage(0, |f.cells|)))
    case Local =>
      (match f.main
       case Storing(k) => f.(main := Waking(k), stop := f.stop[k := true])
       case Joining(k) => f.(main := if k < 3 then Joining(k + 1) else Finished)
       case _ => f.(main := Storing(0)))
    case Begin(k) =>
      var i := f.workers[k].task.item;
      QueueStep(Work(f, k, i), k + 1, Q.CallEnqueue(NEIGHBOUR, Stage(k + 1, i)))
    case Run(k) =>
      var g := f.(workers := f.workers[k := Checking]);
      if f.workers[k].task.Sentinel? then g else Work(g, 2, f.workers[k].task.item)
    case CheckFlag(k) => f.(workers := f.workers[k := if f.stop[k] then Exited else Waiting])
    case Inside(k, step) =>
      var g := QueueStep(f, k, step);
      if step.Push? && step.p == MAIN then
        g.(main := if f.main.Waking? then AfterWaking(f.main.k) else f.main)
      else if step.Push? && k > 0 then g.(workers := f.workers[k - 1 := Checking])
      else if step.Pop? then g.(workers := f.workers[k := Holding(f.q[k].queue[0])])
      else g
  }

  /** The step of the pipeline a move completes, if it completes one. */
  function Visible(m: Move): seq<Step> {
    match m
    case Local => [Main]
    case Run(k) => [Body(k)]
    case CheckFlag(k) => [Check(k)]
    case Inside(k, step) =>
      if step.Push? && step.p == MAIN then [Main]
      else if step.Push? && k > 0 then [Body(k - 1)]
      else if step.Pop? then [Take(k)]
      else []
    case _ => []
  }

  ghost predicate IsLockedRun(rand: seq<nat>, f: Locked, moves: seq<Move>)
    requires Sized(f)
    decreases |moves|
  {
    moves == [] || (Can(rand, f, moves[0]) && IsLockedRun(rand, Make(rand, f, moves[0]), moves[1..]))
  }

  ghost function AfterMoves(rand: seq<nat>, f: Locked, moves: seq<Move>): (f': Locked)
    requires Sized(f) && IsLockedRun(rand, f, moves)
    ensures Sized(f')
    decreases |moves|
  {
    if moves == [] then f else AfterMoves(rand, Make(rand, f, moves[0]), moves[1..])
  }

  function VisibleSteps(moves: seq<Move>): seq<Step> {
    if moves == [] then [] else Visible(moves[0]) + VisibleSteps(moves[1..])
  }

  // --------------------------------------------- the pipeline it stands for

  /** Called, but not yet pushed. */
  predicate Pending(pc: Q.ProducerPc<Task>) {
    pc.Locking? || pc.Locked?
  }

  /** The main thread's place in its program and in queue k agree. */
  predicate MainAt(main: MainPc, items: nat, k: nat, pc: Q.ProducerPc<Task>) {
    && (Pending(pc) ==>
          if main.Generating? then k == 0 && items > 0 && pc.item == Stage(0, items - 1)
          else main == Waking(k) && pc.item == Sentinel)
    && (pc.Pushed? || pc.Unlocked? ==> (main.Generating? && k == 0) || main == AfterWaking(k))
  }

  /** So do those of worker k - 1, of which w is the program counter. */
  predicate NeighbourAt(w: WorkerPc, k: nat, pc: Q.ProducerPc<Task>) {
    && (Pending(pc) ==>
          0 < k < 3 && w.Holding? && w.task.Stage? && w.task.n == k - 1 && pc.item == Stage(k, w.task.item))
    && (pc.Pushed? || pc.Unlocked? ==> 0 < k < 3 && w.Checking?)
  }

  predicate QueueAt(f: Locked, s: State, k: nat)
    requires Sized(f) && k < 4 == |s.queues|
  {
    var q := f.q[k];
    && q.queue == s.queues[k]
    && MainAt(f.main, |f.cells|, k, q.producers[MAIN])
    && NeighbourAt(if k > 0 then f.workers[k - 1] else Exited, k, q.producers[NEIGHBOUR])
    && (!q.consumer.Absent? ==> f.workers[k].Waiting?)
  }

  /** The main thread has generated a number whose task is not yet in the queue. */
  predicate Ahead(f: Locked)
    requires Sized(f)
  {
    f.main.Generating? && Pending(f.q[0].producers[MAIN])
  }

  /** Worker k has dealt with item i but its hand-over is not yet in the next queue. */
  predicate Begun(f: Locked, k: nat, i: nat)
    requires Sized(f) && k < 2
  {
    Pending(f.q[k + 1].producers[NEIGHBOUR]) && f.workers[k] == Holding(Stage(k, i))
  }

  ghost predicate CellAt(f: Locked, s: State, i: nat)
    requires Sized(f) && i < |f.cells| && i < |s.cells| == |s.printed|
  {
    if Begun(f, 0, i) then
      f.cells[i] == BodyValue(0, s.cells[i]) && f.printed[i] == s.printed[i] + BodyLines(0, s.cells[i])
    else if Begun(f, 1, i) then
      f.cells[i] == BodyValue(1, s.cells[i]) && f.printed[i] == s.printed[i] + BodyLines(1, s.cells[i])
    else f.cells[i] == s.cells[i] && f.printed[i] == s.printed[i]
  }

  ghost predicate Data(rand: seq<nat>, f: Locked, s: State)
    requires Sized(f) && |s.cells| == |s.printed|
  {
    && |f.cells| == |s.cells| + (if Ahead(f) then 1 else 0) && |f.cells| <= |rand|
    && (Ahead(f) ==> f.cells[|s.cells|] == Generate(rand[|s.cells|]) && f.printed[|s.cells|] == [])
    && (forall i :: 0 <= i < |s.cells| ==> CellAt(f, s, i))
  }

  /** Threads and queues of f are those of s, apart from queue operations under way. */
  predicate Synced(f: Locked, s: State) {
    && Sized(f) && |s.queues| == 4
    && f.main == s.main && f.workers == s.workers && f.stop == s.stop
    && QueueAt(f, s, 0) && QueueAt(f, s, 1) && QueueAt(f, s, 2) && QueueAt(f, s, 3)
  }

  predicate LocksHold(f: Locked) {
    forall k :: 0 <= k < |f.q| ==> Q.Inv(f.q[k])
  }

  /** f is the pipeline state s with queue operations under way. */
  ghost predicate Matches(rand: seq<nat>, f: Locked, s: State) {
    Inv(rand, s) && Synced(f, s) && LocksHold(f) && Data(rand, f, s)
  }

  lemma StartMatches(rand: seq<nat>)
    ensures Matches(rand, Start(), InitState())
  {
    InitInv(rand);
    StartSynced();
    Q.InitInv<Task>(2);
  }

  lemma StartSynced()
    ensures Synced(Start(), InitState()) && forall k :: 0 <= k < 4 ==> Start().q[k] == Q.Init(2)
  {
    assert QueueAt(Start(), InitState(), 0) && QueueAt(Start(), InitState(), 1);
    assert QueueAt(Start(), InitState(), 2) && QueueAt(Start(), InitState(), 3);
  }

  /** No item is held by two workers. */
  lemma OneHolder(rand: seq<nat>, s: State, j: nat, k: nat, i: nat)
    requires Inv(rand, s) && j < k < 4
    ensures !(s.workers[j] == Holding(Stage(j, i)) && s.workers[k] == Holding(Stage(k, i)))
  {
    assert FlowAt(s, 0) && FlowAt(s, 1) && FlowAt(s, 2);
    if s.workers[k].Holding? {
      assert TaskFits(s.workers[k].task, k, |s.cells|);
    }
  }

  // ------------------------------------------------ each move is simulated

  /** A queue nobody has touched still agrees with threads that are not inside it. */
  lemma QueueFrame(f: Locked, s: State, f': Locked, s': State, k: nat)
    requires Sized(f) && Sized(f') && k < 4 == |s.queues| == |s'.queues|
    requires QueueAt(f, s, k) && f'.q[k] == f.q[k] && s'.queues[k] == s.queues[k]
    requires (f'.main == f.main && |f'.cells| == |f.cells|) || f.q[k].producers[MAIN].Outside?
    requires k > 0 ==> f'.workers[k - 1] == f.workers[k - 1] || f.q[k].producers[NEIGHBOUR].Outside?
    requires f'.workers[k] == f.workers[k] || f.q[k].consumer.Absent?
    ensures QueueAt(f', s', k)
  {
  }

  /** Data is unaffected by what neither begins nor completes a hand-over. */
  lemma DataFrame(rand: seq<nat>, f: Locked, s: State, f': Locked, s': State)
    requires Sized(f) && Sized(f') && |s.cells| == |s.printed| && Data(rand, f, s)
    requires s'.cells == s.cells && s'.printed == s.printed && f'.cells == f.cells && f'.printed == f.printed
    requires Ahead(f') == Ahead(f)
    requires forall i :: Begun(f', 0, i) == Begun(f, 0, i) && Begun(f', 1, i) == Begun(f, 1, i)
    ensures Data(rand, f', s')
  {
    forall i | 0 <= i < |s'.cells| ensures CellAt(f', s', i) {
      assert CellAt(f, s, i);
    }
  }

  /** A step inside queue k leaves the other queues in agreement. */
  lemma OthersSynced(f: Locked, s: State, f': Locked, s': State, k: nat)
    requires Synced(f, s) && Sized(f') && |s'.queues| == 4 && k < 4
    requires forall j :: 0 <= j < 4 && j != k ==> f'.q[j] == f.q[j] && s'.queues[j] == s.queues[j]
    requires forall j :: 0 <= j < 4 && j != k ==>
      (f'.main == f.main && |f'.cells| == |f.cells|) || f.q[j].producers[MAIN].Outside?
    requires forall j :: 0 < j < 4 && j != k ==>
      f'.workers[j - 1] == f.workers[j - 1] || f.q[j].producers[NEIGHBOUR].Outside?
    requires forall j :: 0 <= j < 4 && j != k ==> f'.workers[j] == f.workers[j] || f.q[j].consumer.Absent?
    ensures forall j :: 0 <= j < 4 && j != k ==> QueueAt(f', s', j)
  {
    forall j | 0 <= j < 4 && j != k ensures QueueAt(f', s', j) {
      assert QueueAt(f, s, j);
      QueueFrame(f, s, f', s', j);
    }
  }

  lemma MoveKeepsLocks(rand: seq<nat>, f: Locked, m: Move)
    requires Sized(f) && LocksHold(f) && Can(rand, f, m)
    ensures LocksHold(Make(rand, f, m))
  {
    match m
    case Enter =>
      var k := if f.main.Waking? then f.main.k else 0;
      Q.StepKeeps(f.q[k], Q.CallEnqueue(MAIN, if f.main.Waking? then Sentinel else Stage(0, |f.cells|)));
    case Begin(k) =>
      Q.StepKeeps(f.q[k + 1], Q.CallEnqueue(NEIGHBOUR, Stage(k + 1, f.workers[k].task.item)));
    case Inside(k, step) => Q.StepKeeps(f.q[k], step);
    case _ =>
  }

  /** The steps inside a queue that neither push nor pop. */
  predicate Quiet(step: Q.Step<Task>) {
    !step.CallEnqueue? && !step.Push? && !step.Pop?
  }

  lemma QuietSynced(rand: seq<nat>, f: Locked, s: State, k: nat, step: Q.Step<Task>)
    requires Synced(f, s) && Can(rand, f, Inside(k, step)) && Quiet(step)
    ensures Synced(Make(rand, f, Inside(k, step)), s)
  {
    var f' := Make(rand, f, Inside(k, step));
    assert QueueAt(f, s, k);
    OthersSynced(f, s, f', s, k);
    QuietQueue(rand, f, s, k, step);
  }

  lemma QuietQueue(rand: seq<nat>, f: Locked, s: State, k: nat, step: Q.Step<Task>)
    requires Sized(f) && k < 4 == |s.queues| && QueueAt(f, s, k) && Can(rand, f, Inside(k, step)) && Quiet(step)
    ensures QueueAt(Make(rand, f, Inside(k, step)), s, k)
    ensures forall p :: 0 <= p < 2 ==>
              Pending(Make(rand, f, Inside(k, step)).q[k].producers[p]) == Pending(f.q[k].producers[p])
  {
  }

  lemma QuietRefines(rand: seq<nat>, f: Locked, s: State, k: nat, step: Q.Step<Task>)
    requires Matches(rand, f, s) && Can(rand, f, Inside(k, step)) && Quiet(step)
    ensures Matches(rand, Make(rand, f, Inside(k, step)), s)
  {
    var f' := Make(rand, f, Inside(k, step));
    assert QueueAt(f, s, k);
    QuietSynced(rand, f, s, k, step);
    MoveKeepsLocks(rand, f, Inside(k, step));
    QuietQueue(rand, f, s, k, step);
    DataFrame(rand, f, s, f', s);
  }

  lemma EnterSynced(rand: seq<nat>, f: Locked, s: State)
    requires Synced(f, s) && Can(rand, f, Enter)
    ensures Synced(Make(rand, f, Enter), s)
  {
    var f' := Make(rand, f, Enter);
    var k := if f.main.Waking? then f.main.k else 0;
    assert QueueAt(f, s, k);
    OthersSynced(f, s, f', s, k);
    assert QueueAt(f', s, k);
  }

  lemma EnterRefines(rand: seq<nat>, f: Locked, s: State)
    requires Matches(rand, f, s) && Can(rand, f, Enter)
    ensures Matches(rand, Make(rand, f, Enter), s)
  {
    var f' := Make(rand, f, Enter);
    EnterSynced(rand, f, s);
    MoveKeepsLocks(rand, f, Enter);
    forall i | 0 <= i < |s.cells| ensures CellAt(f', s, i) {
      assert CellAt(f, s, i);
      assert Begun(f', 0, i) == Begun(f, 0, i) && Begun(f', 1, i) == Begun(f, 1, i);
    }
  }

  lemma LocalSynced(rand: seq<nat>, f: Locked, s: State)
    requires WellFormed(rand, s) && Synced(f, s) && Can(rand, f, Local) && |f.cells| == |s.cells|
    ensures Enabled(rand, s, Main) && Synced(Make(rand, f, Local), Next(rand, s, Main))
  {
    var f', s' := Make(rand, f, Local), Next(rand, s, Main);
    OthersSynced(f, s, f', s', 0);
    assert QueueAt(f', s', 0);
  }

  lemma LocalRefines(rand: seq<nat>, f: Locked, s: State)
    requires Matches(rand, f, s) && Can(rand, f, Local)
    ensures Enabled(rand, s, Main) && Matches(rand, Make(rand, f, Local), Next(rand, s, Main))
  {
    LocalSynced(rand, f, s);
    MainKeeps(rand, s);
    MoveKeepsLocks(rand, f, Local);
    DataFrame(rand, f, s, Make(rand, f, Local), Next(rand, s, Main));
  }

  lemma CheckSynced(rand: seq<nat>, f: Locked, s: State, k: nat)
    requires WellFormed(rand, s) && Synced(f, s) && Can(rand, f, CheckFlag(k))
    ensures Enabled(rand, s, Check(k)) && Synced(Make(rand, f, CheckFlag(k)), Next(rand, s, Check(k)))
  {
    var f', s' := Make(rand, f, CheckFlag(k)), Next(rand, s, Check(k));
    assert QueueAt(f, s, k);
    OthersSynced(f, s, f', s', k);
    QueueFrame(f, s, f', s', k);
  }

  lemma CheckRefines(rand: seq<nat>, f: Locked, s: State, k: nat)
    requires Matches(rand, f, s) && Can(rand, f, CheckFlag(k))
    ensures Enabled(rand, s, Check(k)) && Matches(rand, Make(rand, f, CheckFlag(k)), Next(rand, s, Check(k)))
  {
    CheckSynced(rand, f, s, k);
    CheckKeeps(rand, s, k);
    MoveKeepsLocks(rand, f, CheckFlag(k));
    DataFrame(rand, f, s, Make(rand, f, CheckFlag(k)), Next(rand, s, Check(k)));
  }

  /** A worker about to dequeue is not inside enqueue. */
  lemma WaitingIsOutside(f: Locked, s: State, k: nat)
    requires Synced(f, s) && k < 4 && f.workers[k].Waiting?
    ensures WorkerOutside(f, k)
  {
    if k < 3 {
      assert QueueAt(f, s, k + 1);
    }
  }

  lemma PopSynced(rand: seq<nat>, f: Locked, s: State, k: nat)
    requires WellFormed(rand, s) && Synced(f, s) && Can(rand, f, Inside(k, Q.Pop))
    ensures Enabled(rand, s, Take(k)) && Synced(Make(rand, f, Inside(k, Q.Pop)), Next(rand, s, Take(k)))
    ensures f.workers[k].Waiting?
  {
    var f' := Make(rand, f, Inside(k, Q.Pop));
    assert QueueAt(f, s, k);
    var s' := Next(rand, s, Take(k));
    WaitingIsOutside(f, s, k);
    OthersSynced(f, s, f', s', k);
    assert QueueAt(f', s', k);
  }

  lemma PopRefines(rand: seq<nat>, f: Locked, s: State, k: nat)
    requires Matches(rand, f, s) && Can(rand, f, Inside(k, Q.Pop))
    ensures Enabled(rand, s, Take(k)) && Matches(rand, Make(rand, f, Inside(k, Q.Pop)), Next(rand, s, Take(k)))
  {
    PopSynced(rand, f, s, k);
    TakeKeeps(rand, s, k);
    MoveKeepsLocks(rand, f, Inside(k, Q.Pop));
    PopData(rand, f, s, k);
  }

  lemma PopData(rand: seq<nat>, f: Locked, s: State, k: nat)
    requires WellFormed(rand, s) && Synced(f, s) && Data(rand, f, s)
    requires Can(rand, f, Inside(k, Q.Pop)) && Enabled(rand, s, Take(k))
    ensures Data(rand, Make(rand, f, Inside(k, Q.Pop)), Next(rand, s, Take(k)))
  {
    WaitingIsOutside(f, s, k);
    DataFrame(rand, f, s, Make(rand, f, Inside(k, Q.Pop)), Next(rand, s, Take(k)));
  }

  lemma MainPushSynced(rand: seq<nat>, f: Locked, s: State, k: nat)
    requires WellFormed(rand, s) && Synced(f, s) && Can(rand, f, Inside(k, Q.Push(MAIN)))
    requires |s.cells| + (if Ahead(f) then 1 else 0) == |f.cells| <= |rand|
    ensures Enabled(rand, s, Main) && Synced(Make(rand, f, Inside(k, Q.Push(MAIN))), Next(rand, s, Main))
    ensures (f.main.Generating? && k == 0) || f.main == Waking(k)
  {
    var f' := Make(rand, f, Inside(k, Q.Push(MAIN)));
    assert QueueAt(f, s, k);
    var s' := Next(rand, s, Main);
    OthersSynced(f, s, f', s', k);
    MainPushQueue(rand, f, s, k);
  }

  lemma MainPushQueue(rand: seq<nat>, f: Locked, s: State, k: nat)
    requires WellFormed(rand, s) && Sized(f) && Can(rand, f, Inside(k, Q.Push(MAIN))) && QueueAt(f, s, k)
    requires f.main == s.main && |s.cells| + (if Ahead(f) then 1 else 0) == |f.cells| <= |rand|
    requires Enabled(rand, s, Main)
    ensures QueueAt(Make(rand, f, Inside(k, Q.Push(MAIN))), Next(rand, s, Main), k)
  {
    assert Next(rand, s, Main).queues[k] == s.queues[k] + [f.q[k].producers[MAIN].item];
  }

  lemma MainPushRefines(rand: seq<nat>, f: Locked, s: State, k: nat)
    requires Matches(rand, f, s) && Can(rand, f, Inside(k, Q.Push(MAIN)))
    ensures Enabled(rand, s, Main)
    ensures Matches(rand, Make(rand, f, Inside(k, Q.Push(MAIN))), Next(rand, s, Main))
  {
    var f', s' := Make(rand, f, Inside(k, Q.Push(MAIN))), Next(rand, s, Main);
    MainPushSynced(rand, f, s, k);
    MainKeeps(rand, s);
    MoveKeepsLocks(rand, f, Inside(k, Q.Push(MAIN)));
    MainPushData(rand, f, s, k);
  }

  lemma MainPushData(rand: seq<nat>, f: Locked, s: State, k: nat)
    requires WellFormed(rand, s) && Synced(f, s) && Can(rand, f, Inside(k, Q.Push(MAIN))) && Enabled(rand, s, Main)
    requires (f.main.Generating? && k == 0) || f.main == Waking(k)
    requires Data(rand, f, s)
    ensures Data(rand, Make(rand, f, Inside(k, Q.Push(MAIN))), Next(rand, s, Main))
  {
    var f', s' := Make(rand, f, Inside(k, Q.Push(MAIN))), Next(rand, s, Main);
    forall i | 0 <= i < |s'.cells| ensures CellAt(f', s', i) {
      assert Begun(f', 0, i) == Begun(f, 0, i) && Begun(f', 1, i) == Begun(f, 1, i);
      if i < |s.cells| {
        assert CellAt(f, s, i);
      }
    }
  }

  lemma BeginSynced(rand: seq<nat>, f: Locked, s: State, k: nat)
    requires WellFormed(rand, s) && Synced(f, s) && Can(rand, f, Begin(k))
    ensures Synced(Make(rand, f, Begin(k)), s)
  {
    var f' := Make(rand, f, Begin(k));
    assert TaskFits(s.workers[k].task, k, |s.cells|);
    assert QueueAt(f, s, k + 1);
    OthersSynced(f, s, f', s, k + 1);
    assert QueueAt(f', s, k + 1);
  }

  lemma BeginRefines(rand: seq<nat>, f: Locked, s: State, k: nat)
    requires Matches(rand, f, s) && Can(rand, f, Begin(k))
    ensures Matches(rand, Make(rand, f, Begin(k)), s)
  {
    BeginSynced(rand, f, s, k);
    MoveKeepsLocks(rand, f, Begin(k));
    BeginData(rand, f, s, k);
  }

  lemma BeginData(rand: seq<nat>, f: Locked, s: State, k: nat)
    requires Inv(rand, s) && Synced(f, s) && Can(rand, f, Begin(k)) && Data(rand, f, s)
    ensures Data(rand, Make(rand, f, Begin(k)), s)
  {
    var f' := Make(rand, f, Begin(k));
    var i := f.workers[k].task.item;
    assert TaskFits(s.workers[k].task, k, |s.cells|);
    OneHolder(rand, s, 0, 1, i);
    assert CellAt(f, s, i);
    forall j | 0 <= j < |s.cells| ensures CellAt(f', s, j) {
      assert CellAt(f, s, j);
      if j != i {
        assert Begun(f', 0, j) == Begun(f, 0, j) && Begun(f', 1, j) == Begun(f, 1, j);
      }
    }
  }

  lemma ClosureSynced(rand: seq<nat>, f: Locked, s: State, k: nat)
    requires WellFormed(rand, s) && Synced(f, s) && Can(rand, f, Run(k))
    ensures Enabled(rand, s, Body(k)) && Synced(Make(rand, f, Run(k)), Next(rand, s, Body(k)))
    ensures WorkerOutside(f, k)
  {
    assert TaskFits(s.workers[k].task, k, |s.cells|);
    var f', s' := Make(rand, f, Run(k)), Next(rand, s, Body(k));
    assert QueueAt(f, s, k);
    if k < 3 {
      assert QueueAt(f, s, k + 1);
    }
    OthersSynced(f, s, f', s', k);
    QueueFrame(f, s, f', s', k);
  }

  lemma ClosureRefines(rand: seq<nat>, f: Locked, s: State, k: nat)
    requires Matches(rand, f, s) && Can(rand, f, Run(k))
    ensures Enabled(rand, s, Body(k)) && Matches(rand, Make(rand, f, Run(k)), Next(rand, s, Body(k)))
  {
    ClosureSynced(rand, f, s, k);
    BodyKeeps(rand, s, k);
    MoveKeepsLocks(rand, f, Run(k));
    if f.workers[k].task.Sentinel? {
      SentinelData(rand, f, s, k);
    } else {
      ClosureData(rand, f, s);
    }
  }

  lemma SentinelData(rand: seq<nat>, f: Locked, s: State, k: nat)
    requires WellFormed(rand, s) && Synced(f, s) && Data(rand, f, s)
    requires k < 4 && f.workers[k] == Holding(Sentinel)
    ensures Data(rand, Make(rand, f, Run(k)), Next(rand, s, Body(k)))
  {
    DataFrame(rand, f, s, Make(rand, f, Run(k)), Next(rand, s, Body(k)));
  }

  /** The last stage's closure works on a number that no other worker has to do with. */
  lemma ClosureData(rand: seq<nat>, f: Locked, s: State)
    requires Inv(rand, s) && Synced(f, s) && Data(rand, f, s)
    requires Can(rand, f, Run(2)) && f.workers[2].task.Stage? && Enabled(rand, s, Body(2))
    ensures Data(rand, Make(rand, f, Run(2)), Next(rand, s, Body(2)))
  {
    var f', s' := Make(rand, f, Run(2)), Next(rand, s, Body(2));
    var i := f.workers[2].task.item;
    assert TaskFits(s.workers[2].task, 2, |s.cells|);
    OneHolder(rand, s, 0, 2, i);
    OneHolder(rand, s, 1, 2, i);
    forall j | 0 <= j < |s'.cells| ensures CellAt(f', s', j) {
      assert CellAt(f, s, j);
      assert Begun(f', 0, j) == Begun(f, 0, j) && Begun(f', 1, j) == Begun(f, 1, j);
    }
  }

  lemma HandOverSynced(rand: seq<nat>, f: Locked, s: State, k: nat)
    requires WellFormed(rand, s) && Synced(f, s) && Can(rand, f, Inside(k, Q.Push(NEIGHBOUR)))
    ensures 0 < k < 3 && f.workers[k - 1].Holding? && Begun(f, k - 1, f.workers[k - 1].task.item)
    ensures Enabled(rand, s, Body(k - 1))
    ensures Synced(Make(rand, f, Inside(k, Q.Push(NEIGHBOUR))), Next(rand, s, Body(k - 1)))
  {
    var f' := Make(rand, f, Inside(k, Q.Push(NEIGHBOUR)));
    assert QueueAt(f, s, k) && QueueAt(f, s, k - 1);
    var s' := Next(rand, s, Body(k - 1));
    assert s'.queues[k] == s.queues[k] + [f.q[k].producers[NEIGHBOUR].item];
    OthersSynced(f, s, f', s', k);
    assert QueueAt(f', s', k);
  }

  lemma HandOverRefines(rand: seq<nat>, f: Locked, s: State, k: nat)
    requires Matches(rand, f, s) && Can(rand, f, Inside(k, Q.Push(NEIGHBOUR)))
    ensures k > 0 && Enabled(rand, s, Body(k - 1))
    ensures Matches(rand, Make(rand, f, Inside(k, Q.Push(NEIGHBOUR))), Next(rand, s, Body(k - 1)))
  {
    HandOverSynced(rand, f, s, k);
    BodyKeeps(rand, s, k - 1);
    MoveKeepsLocks(rand, f, Inside(k, Q.Push(NEIGHBOUR)));
    HandOverData(rand, f, s, k);
  }

  lemma HandOverData(rand: seq<nat>, f: Locked, s: State, k: nat)
    requires Inv(rand, s) && Synced(f, s) && Data(rand, f, s) && Can(rand, f, Inside(k, Q.Push(NEIGHBOUR)))
    requires 0 < k < 3 && f.workers[k - 1].Holding? && Begun(f, k - 1, f.workers[k - 1].task.item)
    requires Enabled(rand, s, Body(k - 1))
    ensures Data(rand, Make(rand, f, Inside(k, Q.Push(NEIGHBOUR))), Next(rand, s, Body(k - 1)))
  {
    var f', s' := Make(rand, f, Inside(k, Q.Push(NEIGHBOUR))), Next(rand, s, Body(k - 1));
    var i := f.workers[k - 1].task.item;
    assert TaskFits(s.workers[k - 1].task, k - 1, |s.cells|);
    OneHolder(rand, s, 0, 1, i);
    forall j | 0 <= j < |s'.cells| ensures CellAt(f', s', j) {
      assert CellAt(f, s, j);
      if j != i {
        assert Begun(f', 0, j) == Begun(f, 0, j) && Begun(f', 1, j) == Begun(f, 1, j);
      }
    }
  }

  lemma OneStepRun(rand: seq<nat>, s: State, step: Step)
    requires WellFormed(rand, s) && Enabled(rand, s, step)
    ensures IsRun(rand, s, [step]) && After(rand, s, [step]) == Next(rand, s, step)
  {
    RunCons(rand, s, step, []);
    assert [step] + [] == [step];
  }

  /** Every move completes the pipeline step it stands for, which is then possible, or leaves the pipeline alone. */
  lemma MoveRefines(rand: seq<nat>, f: Locked, s: State, m: Move)
    requires Matches(rand, f, s) && Can(rand, f, m)
    ensures IsRun(rand, s, Visible(m))
    ensures Matches(rand, Make(rand, f, m), After(rand, s, Visible(m)))
  {
    match m
    case Enter => EnterRefines(rand, f, s);
    case Begin(k) => BeginRefines(rand, f, s, k);
    case Local =>
      LocalRefines(rand, f, s);
      OneStepRun(rand, s, Main);
    case Run(k) =>
      ClosureRefines(rand, f, s, k);
      OneStepRun(rand, s, Body(k));
    case CheckFlag(k) =>
      CheckRefines(rand, f, s, k);
      OneStepRun(rand, s, Check(k));
    case Inside(k, step) => InsideRefines(rand, f, s, k, step);
  }

  lemma InsideRefines(rand: seq<nat>, f: Locked, s: State, k: nat, step: Q.Step<Task>)
    requires Matches(rand, f, s) && Can(rand, f, Inside(k, step))
    ensures IsRun(rand, s, Visible(Inside(k, step)))
    ensures Matches(rand, Make(rand, f, Inside(k, step)), After(rand, s, Visible(Inside(k, step))))
  {
    if step.Push? && step.p == MAIN {
      MainPushRefines(rand, f, s, k);
      OneStepRun(rand, s, Main);
    } else if step.Push? {
      assert step == Q.Push(NEIGHBOUR);
      HandOverRefines(rand, f, s, k);
      OneStepRun(rand, s, Body(k - 1));
    } else if step.Pop? {
      PopRefines(rand, f, s, k);
      OneStepRun(rand, s, Take(k));
    } else {
      QuietRefines(rand, f, s, k, step);
    }
  }

  /** Every run with locks is, seen from outside, a run of the pipeline. */
  lemma {:induction false} LockedRunRefines(rand: seq<nat>, f: Locked, s: State, moves: seq<Move>)
    requires Matches(rand, f, s) && IsLockedRun(rand, f, moves)
    ensures IsRun(rand, s, VisibleSteps(moves))
    ensures Matches(rand, AfterMoves(rand, f, moves), After(rand, s, VisibleSteps(moves)))
    decreases |moves|
  {
    if moves != [] {
      var f1, rest := Make(rand, f, moves[0]), moves[1..];
      MoveRefines(rand, f, s, moves[0]);
      var s1 := After(rand, s, Visible(moves[0]));
      LockedRunRefines(rand, f1, s1, rest);
      RunConcat(rand, s, Visible(moves[0]), s1, VisibleSteps(rest));
    }
  }
}
