/**
 The pipeline as the program has it: four active-object instances over four
 queues, whose fields the main thread and the workers update
 (Assignment-5/ActiveObject.hpp and Assignment-5/StPipeline.hpp).  Each method is
 one step of a thread; `Execute` interleaves them as a given schedule says.
 Every run of these objects is a run of the step system of Pipeline.dfy.
 */
module ActiveObjects {
  import opened PrimeCheck
  import opened Pipeline
  import BlockingQueue

  /** The steps of a schedule that are made when those that cannot be made at their turn are passed over. */
  ghost function Moving(rand: seq<nat>, s: State, schedule: seq<Step>): (steps: seq<Step>)
    requires WellFormed(rand, s)
    decreases |schedule|
  {
    if schedule == [] then []
    else if Enabled(rand, s, schedule[0]) then
      [schedule[0]] + Moving(rand, Next(rand, s, schedule[0]), schedule[1..])
    else Moving(rand, s, schedule[1..])
  }

  /** They make a run, which is the whole schedule if that is one. */
  lemma {:induction false} MovingIsRun(rand: seq<nat>, s: State, schedule: seq<Step>)
    requires WellFormed(rand, s)
    ensures IsRun(rand, s, Moving(rand, s, schedule))
    ensures Moving(rand, s, schedule) == schedule <==> IsRun(rand, s, schedule)
    decreases |schedule|
  {
    if schedule != [] {
      var step, rest := schedule[0], schedule[1..];
      if Enabled(rand, s, step) {
        MovingIsRun(rand, Next(rand, s, step), rest);
        RunCons(rand, s, step, Moving(rand, Next(rand, s, step), rest));
        assert schedule == [step] + rest;
      } else {
        MovingIsRun(rand, s, rest);
        MovingIsNoLonger(rand, s, rest);
      }
    }
  }

  lemma {:induction false} MovingIsNoLonger(rand: seq<nat>, s: State, schedule: seq<Step>)
    requires WellFormed(rand, s)
    ensures |Moving(rand, s, schedule)| <= |schedule|
    decreases |schedule|
  {
    if schedule != [] {
      if Enabled(rand, s, schedule[0]) {
        MovingIsNoLonger(rand, Next(rand, s, schedule[0]), schedule[1..]);
      } else {
        MovingIsNoLonger(rand, s, schedule[1..]);
      }
    }
  }

  class ActiveObject {
    const queue: BlockingQueue.Queue<Task>
    var stopRequested: bool
    var pc: WorkerPc

    constructor (q: BlockingQueue.Queue<Task>)
      ensures queue == q && !stopRequested && pc == Waiting
    {
      queue, stopRequested, pc := q, false, Waiting;
    }

    /** The worker's `queue_->dequeue()`, once it does not block. */
    method TakeTask()
      requires pc.Waiting? && queue.queue_ != []
      modifies this`pc, queue
      ensures pc == Holding(old(queue.queue_)[0]) && queue.queue_ == old(queue.queue_)[1..]
    {
      var task := queue.Dequeue();
      pc := Holding(task);
    }

    /** The flag check at the end of the loop body: leave, or go back to waiting. */
    method CheckStop()
      requires pc.Checking?
      modifies this`pc
      ensures pc == if stopRequested then Exited else Waiting
    {
      pc := if stopRequested then Exited else Waiting;
    }
  }

  /** A worker on an empty queue, about to dequeue. */
  method NewWorker() returns (ao: ActiveObject)
    ensures fresh(ao) && fresh(ao.queue)
    ensures !ao.stopRequested && ao.pc == Waiting && ao.queue.queue_ == []
  {
    var q := new BlockingQueue.Queue<Task>();
    ao := new ActiveObject(q);
  }

  class StPipeline {
    const rand: seq<nat>
    const ao1: ActiveObject
    const ao2: ActiveObject
    const ao3: ActiveObject
    const ao4: ActiveObject
    var main: MainPc
    var cells: seq<nat>
    var printed: seq<seq<Line>>
    ghost var started: seq<seq<nat>>
    ghost var finished: seq<seq<nat>>

    function Ao(k: nat): ActiveObject
      requires k < 4
    {
      if k == 0 then ao1 else if k == 1 then ao2 else if k == 2 then ao3 else ao4
    }

    ghost predicate Separate() {
      && ao1 != ao2 && ao1 != ao3 && ao1 != ao4 && ao2 != ao3 && ao2 != ao4 && ao3 != ao4
      && ao1.queue != ao2.queue && ao1.queue != ao3.queue && ao1.queue != ao4.queue
      && ao2.queue != ao3.queue && ao2.queue != ao4.queue && ao3.queue != ao4.queue
    }

    ghost function Repr(): set<object> {
      {this, ao1, ao2, ao3, ao4, ao1.queue, ao2.queue, ao3.queue, ao4.queue}
    }

    /** The state of the step system these objects are in. */
    ghost function View(): State
      reads Repr()
    {
      State(main,
            [ao1.pc, ao2.pc, ao3.pc, ao4.pc],
            [ao1.queue.queue_, ao2.queue.queue_, ao3.queue.queue_, ao4.queue.queue_],
            [ao1.stopRequested, ao2.stopRequested, ao3.stopRequested, ao4.stopRequested],
            cells, printed, started, finished)
    }

    ghost predicate Valid()
      reads Repr()
    {
      && Separate()
      && WellFormed(rand, View())
      && forall i :: 0 <= i < |cells| ==> cells[i] < UINT_LIMIT
    }

    /** `values` is what the successive calls of rand() return. */
    constructor (values: seq<nat>)
      ensures Valid() && fresh(Repr()) && rand == values && View() == InitState()
    {
      var w1 := NewWorker();
      var w2 := NewWorker();
      var w3 := NewWorker();
      var w4 := NewWorker();
      ao1, ao2, ao3, ao4 := w1, w2, w3, w4;
      rand := values;
      main, cells, printed := Generating, [], [];
      started, finished := [[], [], [], []], [[], [], [], []];
      new;
      assert View() == InitState();
    }

    method MainStep()
      requires Valid() && Enabled(rand, View(), Main)
      modifies Repr()
      ensures Valid() && View() == Next(rand, old(View()), Main)
    {
      ghost var s := View();
      match main {
        case Generating =>
          if |cells| < |rand| {
            var num := Generate(rand[|cells|]);
            cells := cells + [num];
            printed := printed + [[]];
            EnqueueAt(0, Stage(0, |cells| - 1));
          } else {
            main := Storing(0);
          }
        case Storing(k) =>
          StoreFlag(k);
          main := Waking(k);
        case Waking(k) =>
          EnqueueAt(k, Sentinel);
          main := if k < 3 then Storing(k + 1) else Joining(0);
        case Joining(k) =>
          main := if k < 3 then Joining(k + 1) else Finished;
      }
      assert View() == Next(rand, s, Main);
    }

    /** `stopRequested_.store(true)` of active object k. */
    method StoreFlag(k: nat)
      requires Separate() && k < 4
      modifies Ao(k)`stopRequested
      ensures View() == old(View()).(stop := old(View()).stop[k := true])
    {
      Ao(k).stopRequested := true;
      assert View().stop == old(View()).stop[k := true];
    }

    method EnqueueAt(k: nat, t: Task)
      requires Separate() && k < 4
      modifies Ao(k).queue
      ensures View() == Enqueue(old(View()), k, t)
    {
      Ao(k).queue.Enqueue(t);
      assert View().queues == old(View()).queues[k := old(View()).queues[k] + [t]];
    }

    method TakeStep(k: nat)
      requires Valid() && Enabled(rand, View(), Take(k))
      modifies Repr()
      ensures Valid() && View() == Next(rand, old(View()), Take(k))
    {
      ghost var s := View();
      ghost var t := s.queues[k][0];
      Ao(k).TakeTask();
      started := if t.Stage? then started[k := started[k] + [t.item]] else started;
      assert View().queues == s.queues[k := s.queues[k][1..]];
      assert View().workers == s.workers[k := Holding(t)];
    }

    method CheckStep(k: nat)
      requires Valid() && Enabled(rand, View(), Check(k))
      modifies Repr()
      ensures Valid() && View() == Next(rand, old(View()), Check(k))
    {
      ghost var s := View();
      Ao(k).CheckStop();
      assert View().workers == s.workers[k := if s.stop[k] then Exited else Waiting];
    }

    /** One stage's closure: print the number and its verdict, update it, hand it on or print it once more. */
    method RunStage(n: nat, i: nat)
      requires Separate() && n < 3 && i < |cells| == |printed| && |finished| == 4 && cells[i] < UINT_LIMIT
      modifies this`cells, this`printed, this`finished, ao2.queue, ao3.queue
      ensures var s := old(View());
              var ran := s.(cells := s.cells[i := BodyValue(n, s.cells[i])],
                            printed := s.printed[i := s.printed[i] + BodyLines(n, s.cells[i])],
                            finished := s.finished[n := s.finished[n] + [i]]);
              View() == if n < 2 then Enqueue(ran, n + 1, Stage(n + 1, i)) else ran
    {
      var num := cells[i];
      var verdict := IsPrime(num);
      var lines := [Number(num), Verdict(verdict)];
      if n == 0 {
        num := Add32(num, 11);
        EnqueueAt(1, Stage(1, i));
      } else if n == 1 {
        num := Add32(num, UINT_LIMIT - 13);
        EnqueueAt(2, Stage(2, i));
      } else {
        num := Add32(num, 2);
        lines := lines + [Number(num)];
      }
      assert lines == BodyLines(n, cells[i]) && num == BodyValue(n, cells[i]);
      cells := cells[i := num];
      printed := printed[i := printed[i] + lines];
      finished := finished[n := finished[n] + [i]];
    }

    method BodyStep(k: nat)
      requires Valid() && Enabled(rand, View(), Body(k))
      modifies Repr()
      ensures Valid() && View() == Next(rand, old(View()), Body(k))
    {
      ghost var s := View();
      var t := Ao(k).pc.task;
      assert t == s.workers[k].task && TaskFits(t, k, |cells|);
      if t.Stage? {
        RunStage(t.n, t.item);
      }
      Ao(k).pc := Checking;
      assert View().workers == s.workers[k := Checking];
    }

    /** One step of the scheduler's choice; nothing happens if the chosen thread cannot move. */
    method Perform(step: Step) returns (moved: bool)
      requires Valid()
      modifies Repr()
      ensures Valid() && moved == Enabled(rand, old(View()), step)
      ensures View() == if moved then Next(rand, old(View()), step) else old(View())
    {
      moved := false;
      match step {
        case Main =>
          if main != Finished && (main.Joining? ==> Ao(main.k).pc.Exited?) {
            MainStep();
            moved := true;
          }
        case Take(k) =>
          if k < 4 && Ao(k).pc.Waiting? && Ao(k).queue.queue_ != [] {
            TakeStep(k);
            moved := true;
          }
        case Body(k) =>
          if k < 4 && Ao(k).pc.Holding? {
            BodyStep(k);
            moved := true;
          }
        case Check(k) =>
          if k < 4 && Ao(k).pc.Checking? {
            CheckStep(k);
            moved := true;
          }
      }
    }

    /**
     The program under an arbitrary schedule, in which threads that cannot move when it is their turn are passed over:
     `done` are the steps made.  Every run of the step system is made when it is the schedule.
     */
    method Execute(schedule: seq<Step>) returns (done: seq<Step>)
      requires Valid() && View() == InitState()
      modifies Repr()
      ensures Valid() && done == Moving(rand, InitState(), schedule)
      ensures IsRun(rand, InitState(), done) && View() == After(rand, InitState(), done)
      ensures IsRun(rand, InitState(), schedule) ==> done == schedule
    {
      done := [];
      assert schedule[0..] == schedule;
      ghost var whole := Moving(rand, View(), schedule);
      MovingIsRun(rand, View(), schedule);
      for n := 0 to |schedule|
        invariant Valid()
        invariant var rest := Moving(rand, View(), schedule[n..]);
                  && whole == done + rest && IsRun(rand, View(), rest)
                  && After(rand, View(), rest) == After(rand, InitState(), whole)
      {
        ghost var rest := Moving(rand, View(), schedule[n..]);
        assert schedule[n..][0] == schedule[n] && schedule[n..][1..] == schedule[n + 1..];
        var moved := Perform(schedule[n]);
        if moved {
          assert rest[1..] == Moving(rand, View(), schedule[n + 1..]);
          assert done + rest == done + [schedule[n]] + rest[1..];
          done := done + [schedule[n]];
        }
      }
      assert done + [] == done;
    }
  }
}
