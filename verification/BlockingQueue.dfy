/**
 The blocking queue of the active objects (Assignment-5/Queue.hpp): a FIFO under
 a mutex, whose consumer sleeps on a condition variable while it is empty.

 Queue below is the code run by one thread at a time.  The rest of the module is
 the concurrent protocol, one step per access to the mutex, the condition
 variable or the underlying queue, for any number of producers and the one
 worker that consumes.  It refines an atomic FIFO; LockedPipeline.dfy puts four
 of it together with the threads of the pipeline.
 */
module BlockingQueue {

  // ------------------------------------------------------ the atomic FIFO

  /** What a queue means: its pending items, and all items ever put in and taken out, in order. */
  datatype Fifo<T> = Fifo(pending: seq<T>, entered: seq<T>, left: seq<T>)

  datatype Action<T> = Put(item: T) | Get(item: T)

  predicate Possible<T(==)>(f: Fifo<T>, a: Action<T>) {
    a.Get? ==> f.pending != [] && f.pending[0] == a.item
  }

  function Perform<T(==)>(f: Fifo<T>, a: Action<T>): Fifo<T>
    requires Possible(f, a)
  {
    match a
    case Put(x) => Fifo(f.pending + [x], f.entered + [x], f.left)
    case Get(x) => Fifo(f.pending[1..], f.entered, f.left + [x])
  }

  ghost predicate Performable<T>(f: Fifo<T>, actions: seq<Action<T>>)
    decreases |actions|
  {
    actions == [] || (Possible(f, actions[0]) && Performable(Perform(f, actions[0]), actions[1..]))
  }

  ghost function PerformAll<T>(f: Fifo<T>, actions: seq<Action<T>>): Fifo<T>
    requires Performable(f, actions)
    decreases |actions|
  {
    if actions == [] then f else PerformAll(Perform(f, actions[0]), actions[1..])
  }

  /** The items put in, and those taken out, in order. */
  function Puts<T>(actions: seq<Action<T>>): seq<T> {
    if actions == [] then [] else (if actions[0].Put? then [actions[0].item] else []) + Puts(actions[1..])
  }

  function Gets<T>(actions: seq<Action<T>>): seq<T> {
    if actions == [] then [] else (if actions[0].Get? then [actions[0].item] else []) + Gets(actions[1..])
  }

  /** What has entered are the items put in and what has left are those taken out; what was put in first goes first. */
  lemma {:induction false} HistoryOfActions<T>(f: Fifo<T>, actions: seq<Action<T>>)
    requires Performable(f, actions)
    ensures var e := PerformAll(f, actions);
            && e.entered == f.entered + Puts(actions) && e.left == f.left + Gets(actions)
            && f.pending + Puts(actions) == Gets(actions) + e.pending
    decreases |actions|
  {
    if actions != [] {
      var a, rest := actions[0], actions[1..];
      var f1 := Perform(f, a);
      HistoryOfActions(f1, rest);
      var e := PerformAll(f1, rest);
      if a.Get? {
        assert f.pending == [a.item] + f1.pending;
        assert [a.item] + f1.pending + Puts(rest) == [a.item] + (f1.pending + Puts(rest));
        assert [a.item] + (Gets(rest) + e.pending) == [a.item] + Gets(rest) + e.pending;
      } else {
        assert f.pending + ([a.item] + Puts(rest)) == f1.pending + Puts(rest);
      }
    }
  }

  class Queue<T(==)> {
    var queue_: seq<T>
    ghost var entered: seq<T>
    ghost var left: seq<T>

    ghost function Meaning(): Fifo<T>
      reads this
    {
      Fifo(queue_, entered, left)
    }

    constructor ()
      ensures Meaning() == Fifo([], [], [])
    {
      queue_, entered, left := [], [], [];
    }

    method Enqueue(item: T)
      modifies this
      ensures queue_ == old(queue_) + [item] && entered == old(entered) + [item] && left == old(left)
      ensures Meaning() == Perform(old(Meaning()), Put(item))
    {
      queue_ := queue_ + [item];
      entered := entered + [item];
    }

    /** Run when the wait for a nonempty queue is over. */
    method Dequeue() returns (item: T)
      requires queue_ != []
      modifies this
      ensures [item] + queue_ == old(queue_) && entered == old(entered) && left == old(left) + [item]
      ensures Possible(old(Meaning()), Get(item))
      ensures Meaning() == Perform(old(Meaning()), Get(item))
    {
      item := queue_[0];
      queue_ := queue_[1..];
      left := left + [item];
    }

    method IsEmpty() returns (empty: bool)
      ensures empty <==> Meaning().pending == []
    {
      empty := queue_ == [];
    }
  }

  // -------------------------------------------------- the locked protocol

  /** A producer inside `enqueue`: waiting for the mutex, holding it, having pushed, having unlocked. */
  datatype ProducerPc<T> = Outside | Locking(item: T) | Locked(item: T) | Pushed | Unlocked

  /** The consumer inside `dequeue`: `Asleep` in wait, `Woken` but without the mutex, `Testing` the predicate. */
  datatype ConsumerPc = Absent | Wanting | Testing | Asleep | Woken | Popping

  datatype Owner = Free | Producer(p: nat) | Consumer

  datatype State<T> = State(
    mutex: Owner,
    queue: seq<T>,
    producers: seq<ProducerPc<T>>,
    consumer: ConsumerPc,
    entered: seq<T>,
    left: seq<T>)

  datatype Step<T> =
    | CallEnqueue(p: nat, item: T) | Lock(p: nat) | Push(p: nat) | Unlock(p: nat) | Notify(p: nat)
    | CallDequeue | Acquire | Test | Pop
    | Spurious

  function Init<T>(producers: nat): State<T> {
    State(Free, [], seq(producers, _ => Outside), Absent, [], [])
  }

  predicate Enabled<T(==)>(s: State<T>, step: Step<T>) {
    match step
    case CallEnqueue(p, _) => p < |s.producers| && s.producers[p].Outside?
    case Lock(p) => p < |s.producers| && s.producers[p].Locking? && s.mutex.Free?
    case Push(p) => p < |s.producers| && s.producers[p].Locked?
    case Unlock(p) => p < |s.producers| && s.producers[p].Pushed?
    case Notify(p) => p < |s.producers| && s.producers[p].Unlocked?
    case CallDequeue => s.consumer.Absent?
    case Acquire => (s.consumer.Wanting? || s.consumer.Woken?) && s.mutex.Free?
    case Test => s.consumer.Testing?
    case Pop => s.consumer.Popping? && s.queue != []
    case Spurious => s.consumer.Asleep?
  }

  function Next<T(==)>(s: State<T>, step: Step<T>): State<T>
    requires Enabled(s, step)
  {
    match step
    case CallEnqueue(p, x) => s.(producers := s.producers[p := Locking(x)])
    case Lock(p) => s.(mutex := Producer(p), producers := s.producers[p := Locked(s.producers[p].item)])
    case Push(p) =>
      var x := s.producers[p].item;
      s.(queue := s.queue + [x], entered := s.entered + [x], producers := s.producers[p := Pushed])
    case Unlock(p) => s.(mutex := Free, producers := s.producers[p := Unlocked])
    case Notify(p) =>
      s.(producers := s.producers[p := Outside], consumer := if s.consumer.Asleep? then Woken else s.consumer)
    case CallDequeue => s.(consumer := Wanting)
    case Acquire => s.(mutex := Consumer, consumer := Testing)
    case Test => if s.queue == [] then s.(mutex := Free, consumer := Asleep) else s.(consumer := Popping)
    case Pop => s.(mutex := Free, consumer := Absent, queue := s.queue[1..], left := s.left + [s.queue[0]])
    case Spurious => s.(consumer := Woken)
  }

  /** The visible effect of a step, if it has one: a push is the enqueue, a pop the dequeue. */
  function Effect<T(==)>(s: State<T>, step: Step<T>): seq<Action<T>>
    requires Enabled(s, step)
  {
    match step
    case Push(p) => [Put(s.producers[p].item)]
    case Pop => [Get(s.queue[0])]
    case _ => []
  }

  function Meaning<T>(s: State<T>): Fifo<T> {
    Fifo(s.queue, s.entered, s.left)
  }

  ghost predicate IsRun<T>(s: State<T>, steps: seq<Step<T>>)
    decreases |steps|
  {
    steps == [] || (Enabled(s, steps[0]) && IsRun(Next(s, steps[0]), steps[1..]))
  }

  ghost function After<T>(s: State<T>, steps: seq<Step<T>>): State<T>
    requires IsRun(s, steps)
    decreases |steps|
  {
    if steps == [] then s else After(Next(s, steps[0]), steps[1..])
  }

  ghost function Effects<T>(s: State<T>, steps: seq<Step<T>>): seq<Action<T>>
    requires IsRun(s, steps)
    decreases |steps|
  {
    if steps == [] then [] else Effect(s, steps[0]) + Effects(Next(s, steps[0]), steps[1..])
  }

  // ------------------------------------------------------------ invariant

  predicate Holds<T>(pc: ProducerPc<T>) {
    pc.Locked? || pc.Pushed?
  }

  /** Exactly the owner of the mutex is between lock and unlock. */
  predicate MutualExclusion<T(==)>(s: State<T>) {
    && (forall p :: 0 <= p < |s.producers| ==> (Holds(s.producers[p]) <==> s.mutex == Producer(p)))
    && (s.mutex.Producer? ==> s.mutex.p < |s.producers|)
    && (s.consumer.Testing? || s.consumer.Popping? <==> s.mutex.Consumer?)
  }

  /** A producer that has pushed and will still notify. */
  predicate NotifyPending<T>(pc: ProducerPc<T>) {
    pc.Pushed? || pc.Unlocked?
  }

  /** No lost wakeup: the consumer sleeps on a nonempty queue only while some producer is yet to notify. */
  predicate NoLostWakeup<T>(s: State<T>) {
    s.consumer.Asleep? && s.queue != [] ==>
      exists p :: 0 <= p < |s.producers| && NotifyPending(s.producers[p])
  }

  predicate Inv<T(==)>(s: State<T>) {
    && MutualExclusion(s)
    && NoLostWakeup(s)
    && s.entered == s.left + s.queue
    && (s.consumer.Popping? ==> s.queue != [])
  }

  lemma InitInv<T>(producers: nat)
    ensures Inv(Init<T>(producers))
  {
  }

  lemma StepKeepsExclusion<T>(s: State<T>, step: Step<T>)
    requires MutualExclusion(s) && Enabled(s, step)
    ensures MutualExclusion(Next(s, step))
  {
  }

  lemma StepKeepsWakeup<T>(s: State<T>, step: Step<T>)
    requires NoLostWakeup(s) && Enabled(s, step)
    ensures NoLostWakeup(Next(s, step))
  {
    var s' := Next(s, step);
    if s'.consumer.Asleep? && s'.queue != [] {
      if step.Push? || step.Unlock? {
        assert NotifyPending(s'.producers[step.p]);
      } else {
        var p :| 0 <= p < |s.producers| && NotifyPending(s.producers[p]);
        assert NotifyPending(s'.producers[p]);
      }
    }
  }

  lemma StepKeeps<T>(s: State<T>, step: Step<T>)
    requires Inv(s) && Enabled(s, step)
    ensures Inv(Next(s, step))
  {
    StepKeepsExclusion(s, step);
    StepKeepsWakeup(s, step);
  }

  lemma {:induction false} RunKeeps<T>(s: State<T>, steps: seq<Step<T>>)
    requires Inv(s) && IsRun(s, steps)
    ensures Inv(After(s, steps))
    decreases |steps|
  {
    if steps != [] {
      StepKeeps(s, steps[0]);
      RunKeeps(Next(s, steps[0]), steps[1..]);
    }
  }

  // ----------------------------------------------------------- refinement

  /** Each step is one atomic FIFO operation or leaves the FIFO alone. */
  lemma StepRefines<T>(s: State<T>, step: Step<T>)
    requires Enabled(s, step)
    ensures Performable(Meaning(s), Effect(s, step))
    ensures Meaning(Next(s, step)) == PerformAll(Meaning(s), Effect(s, step))
  {
  }

  lemma {:induction false} PerformConcat<T>(f: Fifo<T>, a: seq<Action<T>>, b: seq<Action<T>>)
    requires Performable(f, a) && Performable(PerformAll(f, a), b)
    ensures Performable(f, a + b) && PerformAll(f, a + b) == PerformAll(PerformAll(f, a), b)
    decreases |a|
  {
    if a == [] {
      assert a + b == b;
    } else {
      var c := a + b;
      assert c[0] == a[0] && c[1..] == a[1..] + b;
      PerformConcat(Perform(f, a[0]), a[1..], b);
    }
  }

  /** Every run of the protocol is a run of the atomic FIFO with the same effects in the same order. */
  lemma {:induction false} RunRefines<T>(s: State<T>, steps: seq<Step<T>>)
    requires IsRun(s, steps)
    ensures Performable(Meaning(s), Effects(s, steps))
    ensures Meaning(After(s, steps)) == PerformAll(Meaning(s), Effects(s, steps))
    decreases |steps|
  {
    if steps != [] {
      StepRefines(s, steps[0]);
      RunRefines(Next(s, steps[0]), steps[1..]);
      PerformConcat(Meaning(s), Effect(s, steps[0]), Effects(Next(s, steps[0]), steps[1..]));
    }
  }

  /** From the empty queue: what has left followed by what is pending is what has entered, and no wakeup is lost. */
  lemma EveryRunIsFifo<T>(producers: nat, steps: seq<Step<T>>)
    requires IsRun(Init<T>(producers), steps)
    ensures var s := After(Init<T>(producers), steps);
            && s.entered == s.left + s.queue
            && MutualExclusion(s) && NoLostWakeup(s)
            && Performable(Fifo([], [], []), Effects(Init<T>(producers), steps))
            && PerformAll(Fifo([], [], []), Effects(Init<T>(producers), steps)) == Fifo(s.queue, s.entered, s.left)
  {
    InitInv<T>(producers);
    RunKeeps(Init<T>(producers), steps);
    RunRefines(Init<T>(producers), steps);
  }

  // ----------------------------------------------------- calls and history

  /** How often enqueue has been called with x. */
  function Called<T(==)>(steps: seq<Step<T>>, x: T): nat {
    if steps == [] then 0 else (if steps[0].CallEnqueue? && steps[0].item == x then 1 else 0) + Called(steps[1..], x)
  }

  function DequeueCalls<T>(steps: seq<Step<T>>): nat {
    if steps == [] then 0 else (if steps[0].CallDequeue? then 1 else 0) + DequeueCalls(steps[1..])
  }

  /** How many calls with x have not pushed yet. */
  function Unpushed<T(==)>(ps: seq<ProducerPc<T>>, x: T): nat {
    if ps == [] then 0 else UnpushedBy(ps[0], x) + Unpushed(ps[1..], x)
  }

  function UnpushedBy<T(==)>(pc: ProducerPc<T>, x: T): nat {
    if (pc.Locking? || pc.Locked?) && pc.item == x then 1 else 0
  }

  lemma {:induction false} UnpushedUpdate<T>(ps: seq<ProducerPc<T>>, p: nat, pc: ProducerPc<T>, x: T)
    requires p < |ps|
    ensures Unpushed(ps[p := pc], x) == Unpushed(ps, x) - UnpushedBy(ps[p], x) + UnpushedBy(pc, x)
  {
    if p == 0 {
      assert ps[0 := pc][1..] == ps[1..];
    } else {
      UnpushedUpdate(ps[1..], p - 1, pc, x);
      assert ps[p := pc][1..] == ps[1..][p - 1 := pc];
    }
  }

  lemma {:induction false} NoneUnpushed<T>(producers: nat, x: T)
    ensures Unpushed(Init<T>(producers).producers, x) == 0
    decreases producers
  {
    if producers > 0 {
      NoneUnpushed<T>(producers - 1, x);
      assert Init<T>(producers).producers[1..] == Init<T>(producers - 1).producers;
    }
  }

  function Inside(c: ConsumerPc): nat {
    if c.Absent? then 0 else 1
  }

  /** What a step adds to the calls it adds to the history or to the calls under way. */
  lemma StepServes<T>(s: State<T>, step: Step<T>, x: T)
    requires Enabled(s, step)
    ensures var s' := Next(s, step);
            && multiset(s'.entered)[x] + Unpushed(s'.producers, x) ==
               multiset(s.entered)[x] + Unpushed(s.producers, x) + Called([step], x)
            && |s'.left| + Inside(s'.consumer) == |s.left| + Inside(s.consumer) + DequeueCalls([step])
  {
    var ps := s.producers;
    match step
    case CallEnqueue(p, y) => UnpushedUpdate(ps, p, Locking(y), x);
    case Lock(p) => UnpushedUpdate(ps, p, Locked(ps[p].item), x);
    case Push(p) => UnpushedUpdate(ps, p, Pushed, x);
    case Unlock(p) => UnpushedUpdate(ps, p, Unlocked, x);
    case Notify(p) => UnpushedUpdate(ps, p, Outside, x);
    case _ =>
  }

  lemma {:induction false} RunServes<T>(s: State<T>, steps: seq<Step<T>>, x: T)
    requires IsRun(s, steps)
    ensures var e := After(s, steps);
            && multiset(e.entered)[x] + Unpushed(e.producers, x) ==
               multiset(s.entered)[x] + Unpushed(s.producers, x) + Called(steps, x)
            && |e.left| + Inside(e.consumer) == |s.left| + Inside(s.consumer) + DequeueCalls(steps)
    decreases |steps|
  {
    if steps != [] {
      StepServes(s, steps[0], x);
      assert [steps[0]][1..] == [];
      RunServes(Next(s, steps[0]), steps[1..], x);
    }
  }

  /**
   However often enqueue is called with an item, so often has the item entered, but for calls that have not pushed yet;
   and every call of dequeue has taken one item or is still under way.  What has entered and left is what the pushes
   put in and the pops took out, in their order.
   */
  lemma EveryCallIsServedOnce<T>(producers: nat, steps: seq<Step<T>>, x: T)
    requires IsRun(Init<T>(producers), steps)
    ensures var s := After(Init<T>(producers), steps); var actions := Effects(Init<T>(producers), steps);
            && Called(steps, x) == multiset(s.entered)[x] + Unpushed(s.producers, x)
            && DequeueCalls(steps) == |s.left| + Inside(s.consumer)
            && s.entered == Puts(actions) && s.left == Gets(actions)
  {
    RunServes(Init<T>(producers), steps, x);
    NoneUnpushed<T>(producers, x);
    RunRefines(Init<T>(producers), steps);
    HistoryOfActions(Fifo([], [], []), Effects(Init<T>(producers), steps));
  }

  // ------------------------------------------------------------- progress

  /** Steps that carry on with calls already made; wakeups without cause are not counted on. */
  predicate Continuing<T>(step: Step<T>) {
    !step.CallEnqueue? && !step.CallDequeue? && !step.Spurious?
  }

  function ProducerWeight<T>(pc: ProducerPc<T>): nat {
    match pc
    case Outside => 0
    case Locking(_) => 7
    case Locked(_) => 6
    case Pushed => 5
    case Unlocked => 4
  }

  function ConsumerWeight(c: ConsumerPc): nat {
    match c
    case Absent => 0
    case Asleep => 0
    case Wanting => 3
    case Woken => 3
    case Testing => 2
    case Popping => 1
  }

  function ProducersWeight<T>(ps: seq<ProducerPc<T>>): nat {
    if ps == [] then 0 else ProducerWeight(ps[0]) + ProducersWeight(ps[1..])
  }

  lemma {:induction false} ProducersWeightUpdate<T>(ps: seq<ProducerPc<T>>, p: nat, pc: ProducerPc<T>)
    requires p < |ps|
    ensures ProducersWeight(ps[p := pc]) == ProducersWeight(ps) - ProducerWeight(ps[p]) + ProducerWeight(pc)
  {
    if p == 0 {
      assert ps[0 := pc][1..] == ps[1..];
    } else {
      ProducersWeightUpdate(ps[1..], p - 1, pc);
      assert ps[p := pc][1..] == ps[1..][p - 1 := pc];
    }
  }

  function Measure<T>(s: State<T>): nat {
    ProducersWeight(s.producers) + ConsumerWeight(s.consumer)
  }

  lemma ContinuingDecreases<T>(s: State<T>, step: Step<T>)
    requires Enabled(s, step) && Continuing(step)
    ensures Measure(Next(s, step)) < Measure(s)
  {
    match step
    case Lock(p) => ProducersWeightUpdate(s.producers, p, Locked(s.producers[p].item));
    case Push(p) => ProducersWeightUpdate(s.producers, p, Pushed);
    case Unlock(p) => ProducersWeightUpdate(s.producers, p, Unlocked);
    case Notify(p) => ProducersWeightUpdate(s.producers, p, Outside);
    case _ =>
  }

  /** A run of continuing steps is no longer than the measure of the state it starts in. */
  lemma {:induction false} ContinuingRunsAreShort<T>(s: State<T>, steps: seq<Step<T>>)
    requires IsRun(s, steps) && forall i :: 0 <= i < |steps| ==> Continuing(steps[i])
    ensures |steps| + Measure(After(s, steps)) <= Measure(s)
    decreases |steps|
  {
    if steps != [] {
      ContinuingDecreases(s, steps[0]);
      ContinuingRunsAreShort(Next(s, steps[0]), steps[1..]);
    }
  }

  /** Every call made has returned, except a dequeue that sleeps on an empty queue. */
  predicate Settled<T>(s: State<T>) {
    && (forall p :: 0 <= p < |s.producers| ==> s.producers[p].Outside?)
    && (s.consumer.Absent? || (s.consumer.Asleep? && s.queue == []))
  }

  /** No deadlock and no sleeping on pending items: the protocol can go on by itself exactly until it has settled. */
  lemma StuckIffSettled<T>(s: State<T>)
    requires Inv(s)
    ensures (forall step :: Continuing(step) ==> !Enabled(s, step)) <==> Settled(s)
  {
    if !Settled(s) {
      var step := ContinuingStep(s);
      assert Continuing(step) && Enabled(s, step);
    }
  }

  lemma ContinuingStep<T>(s: State<T>) returns (step: Step<T>)
    requires Inv(s) && !Settled(s)
    ensures Continuing(step) && Enabled(s, step)
  {
    if s.mutex.Producer? {
      var p := s.mutex.p;
      assert Holds(s.producers[p]);
      step := if s.producers[p].Locked? then Push(p) else Unlock(p);
    } else if s.mutex.Consumer? {
      step := if s.consumer.Testing? then Test else Pop;
    } else if s.consumer.Wanting? || s.consumer.Woken? {
      step := Acquire;
    } else if exists p :: 0 <= p < |s.producers| && !s.producers[p].Outside? {
      var p :| 0 <= p < |s.producers| && !s.producers[p].Outside?;
      assert !Holds(s.producers[p]);
      step := if s.producers[p].Locking? then Lock(p) else Notify(p);
    } else {
      assert false;
      step := Test;
    }
  }
}
