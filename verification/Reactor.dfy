/**
 The select loop of the reactor (Assignment-4/reactor.c).  Handlers are reached
 through the table and act on the reactor while it dispatches: what a handler
 does is an arbitrary function of its own state and of the call, and its effect
 on the reactor is a list of addFd and stopReactor calls.
 */
module Reactor {

  const MAX_FDS: nat := 1024

  /** A handler_t: null, or one of the program's handler functions. */
  datatype Handler = Null | Function(code: nat)

  datatype Call = Call(fd: nat, handler: Handler)

  datatype Action = AddFd(fd: nat, handler: Handler) | StopReactor

  /** What the handlers do: from their own state and the call to their new state and the actions they take. */
  type Behaviour<!S> = (S, Call) -> (S, seq<Action>)

  datatype State = State(readFds: set<nat>, maxFd: int, handlers: seq<Handler>, running: bool)

  predicate WellFormed(r: State) {
    |r.handlers| == MAX_FDS && -1 <= r.maxFd < MAX_FDS
  }

  /** max_fd is the maximum of read_fds, or -1 when nothing is registered; what is registered has a handler. */
  predicate Consistent(r: State) {
    && WellFormed(r)
    && (if r.readFds == {} then r.maxFd == -1 else r.maxFd in r.readFds)
    && (forall fd :: fd in r.readFds ==> fd <= r.maxFd)
    && (forall fd :: fd in r.readFds ==> fd < MAX_FDS && r.handlers[fd] != Null)
  }

  predicate ActionOk(a: Action) {
    a.AddFd? ==> a.fd < MAX_FDS && a.handler != Null
  }

  predicate ActionsOk(acts: seq<Action>) {
    forall i :: 0 <= i < |acts| ==> ActionOk(acts[i])
  }

  ghost predicate BehaviourOk<S(!new)>(behave: Behaviour<S>) {
    forall st, call :: ActionsOk(behave(st, call).1)
  }

  function Act(r: State, a: Action): (r': State)
    requires WellFormed(r) && ActionOk(a)
    ensures WellFormed(r')
    ensures Consistent(r) ==> Consistent(r')
  {
    match a
    case AddFd(fd, h) =>
      State(r.readFds + {fd}, if fd > r.maxFd then fd else r.maxFd, r.handlers[fd := h], r.running)
    case StopReactor => r.(running := false)
  }

  function ActAll(r: State, acts: seq<Action>): (r': State)
    requires WellFormed(r) && ActionsOk(acts)
    ensures WellFormed(r')
    ensures Consistent(r) ==> Consistent(r')
    ensures r.readFds <= r'.readFds && r.maxFd <= r'.maxFd
    ensures r'.running ==> r.running
    decreases |acts|
  {
    if acts == [] then r else ActAll(Act(r, acts[0]), acts[1..])
  }

  /** The for loop from fd on over one snapshot of ready descriptors; max_fd and the table are read anew each time. */
  ghost function Round<S(!new)>(r: State, st: S, ready: set<nat>, fd: nat, behave: Behaviour<S>)
    : (e: (State, S, seq<Call>))
    requires WellFormed(r) && BehaviourOk(behave)
    ensures WellFormed(e.0)
    decreases MAX_FDS - fd
  {
    if fd > r.maxFd then (r, st, [])
    else if fd in ready && r.handlers[fd] != Null then
      var call := Call(fd, r.handlers[fd]);
      var (st1, acts) := behave(st, call);
      assert ActionsOk(behave(st, call).1);
      var (r2, st2, calls) := Round(ActAll(r, acts), st1, ready, fd + 1, behave);
      (r2, st2, [call] + calls)
    else Round(r, st, ready, fd + 1, behave)
  }

  // ------------------------------------------------------- what a round does

  /** The members of a set from fd on, in ascending order. */
  function Ascending(fds: set<nat>, fd: nat): (r: seq<nat>)
    ensures forall i :: 0 <= i < |r| ==> fd <= r[i] < MAX_FDS && r[i] in fds
    ensures forall i, j :: 0 <= i < j < |r| ==> r[i] < r[j]
    ensures forall f :: f in fds && fd <= f < MAX_FDS ==> f in r
    decreases MAX_FDS - fd
  {
    if fd >= MAX_FDS then [] else (if fd in fds then [fd] else []) + Ascending(fds, fd + 1)
  }

  function Fds(calls: seq<Call>): (r: seq<nat>)
    ensures |r| == |calls|
  {
    if calls == [] then [] else [calls[0].fd] + Fds(calls[1..])
  }

  lemma {:induction false} NothingAbove(fds: set<nat>, fd: nat, max: int)
    requires forall f :: f in fds ==> f <= max
    requires fd > max
    ensures Ascending(fds, fd) == []
    decreases MAX_FDS - fd
  {
    if fd < MAX_FDS {
      NothingAbove(fds, fd + 1, max);
    }
  }

  /**
   A round calls a handler for each ready descriptor exactly once and in ascending order, whatever the handlers
   register on the way; nothing registered during the round is called in it.
   */
  lemma {:induction false} RoundCallsReadyOnce<S(!new)>(r: State, st: S, ready: set<nat>, fd: nat, behave: Behaviour<S>)
    requires Consistent(r) && BehaviourOk(behave) && ready <= r.readFds
    ensures var (r', st', calls) := Round(r, st, ready, fd, behave);
            && Fds(calls) == Ascending(ready, fd)
            && Consistent(r') && r.readFds <= r'.readFds && (r'.running ==> r.running)
    decreases MAX_FDS - fd
  {
    if fd > r.maxFd {
      NothingAbove(ready, fd, r.maxFd);
    } else if fd in ready {
      var call := Call(fd, r.handlers[fd]);
      var (st1, acts) := behave(st, call);
      assert ActionsOk(behave(st, call).1);
      RoundCallsReadyOnce(ActAll(r, acts), st1, ready, fd + 1, behave);
      var (r2, st2, calls) := Round(ActAll(r, acts), st1, ready, fd + 1, behave);
      assert Fds([call] + calls) == [fd] + Fds(calls) by {
        assert ([call] + calls)[1..] == calls;
      }
    } else {
      RoundCallsReadyOnce(r, st, ready, fd + 1, behave);
    }
  }

  /** What handlers do over a series of calls: their state at its end, and all their actions in order. */
  function Replay<S>(st: S, calls: seq<Call>, behave: Behaviour<S>): (S, seq<Action>)
    decreases |calls|
  {
    if calls == [] then (st, [])
    else
      var (st1, acts) := behave(st, calls[0]);
      var (st2, more) := Replay(st1, calls[1..], behave);
      (st2, acts + more)
  }

  lemma {:induction false} ActConcat(r: State, a: seq<Action>, b: seq<Action>)
    requires WellFormed(r) && ActionsOk(a) && ActionsOk(b)
    ensures ActionsOk(a + b) && ActAll(r, a + b) == ActAll(ActAll(r, a), b)
    decreases |a|
  {
    if a == [] {
      assert a + b == b;
    } else {
      var c := a + b;
      assert c[0] == a[0] && c[1..] == a[1..] + b;
      ActConcat(Act(r, a[0]), a[1..], b);
    }
  }

  /** A round does to reactor and handlers what its calls, replayed, do: no action is dropped and none is invented. */
  lemma {:induction false} RoundIsReplay<S(!new)>(r: State, st: S, ready: set<nat>, fd: nat, behave: Behaviour<S>)
    requires WellFormed(r) && BehaviourOk(behave)
    ensures var (r', st', calls) := Round(r, st, ready, fd, behave);
            var (end, acts) := Replay(st, calls, behave);
            st' == end && ActionsOk(acts) && r' == ActAll(r, acts)
    decreases MAX_FDS - fd
  {
    if fd > r.maxFd {
    } else if fd in ready && r.handlers[fd] != Null {
      var call := Call(fd, r.handlers[fd]);
      var (st1, acts) := behave(st, call);
      assert ActionsOk(behave(st, call).1);
      var r1 := ActAll(r, acts);
      RoundIsReplay(r1, st1, ready, fd + 1, behave);
      var (r2, st2, calls) := Round(r1, st1, ready, fd + 1, behave);
      assert ([call] + calls)[1..] == calls;
      ActConcat(r, acts, Replay(st1, calls, behave).1);
    } else {
      RoundIsReplay(r, st, ready, fd + 1, behave);
    }
  }

  /** What actions leave: the descriptors registered before and those added, and a stop if there is one among them. */
  lemma {:induction false} ActionsLeave(r: State, acts: seq<Action>)
    requires WellFormed(r) && ActionsOk(acts)
    ensures ActAll(r, acts).running <==> r.running && StopReactor !in acts
    ensures forall fd :: fd in ActAll(r, acts).readFds <==> fd in r.readFds || exists h :: AddFd(fd, h) in acts
    ensures forall fd :: 0 <= fd < MAX_FDS && (forall h :: AddFd(fd, h) !in acts) ==>
              ActAll(r, acts).handlers[fd] == r.handlers[fd]
    decreases |acts|
  {
    if acts != [] {
      var rest := acts[1..];
      assert forall a :: a in acts <==> a == acts[0] || a in rest;
      ActionsLeave(Act(r, acts[0]), rest);
    }
  }

  /** If no handler registers one of the ready descriptors anew, each is served by the handler registered for it. */
  lemma {:induction false} RoundUsesTheTable<S(!new)>(r: State, st: S, ready: set<nat>, fd: nat, behave: Behaviour<S>)
    requires Consistent(r) && BehaviourOk(behave) && ready <= r.readFds
    requires forall s, c, f, h :: f in ready ==> AddFd(f, h) !in behave(s, c).1
    ensures forall c :: c in Round(r, st, ready, fd, behave).2 ==>
              c.fd in ready && c.fd < MAX_FDS && c.handler == r.handlers[c.fd]
    decreases MAX_FDS - fd
  {
    if fd > r.maxFd {
    } else if fd in ready {
      var call := Call(fd, r.handlers[fd]);
      var (st1, acts) := behave(st, call);
      assert ActionsOk(behave(st, call).1);
      ActionsLeave(r, acts);
      RoundUsesTheTable(ActAll(r, acts), st1, ready, fd + 1, behave);
    } else {
      RoundUsesTheTable(r, st, ready, fd + 1, behave);
    }
  }

  /** A round may be cut at any descriptor. */
  lemma {:induction false} RoundSplit<S(!new)>(
    r: State, st: S, ready: set<nat>, fd: nat, mid: nat, behave: Behaviour<S>)
    requires WellFormed(r) && BehaviourOk(behave) && fd <= mid < MAX_FDS
    ensures var (r1, st1, calls) := Round(r, st, Below(ready, mid), fd, behave);
            var (r2, st2, more) := Round(r1, st1, ready, mid, behave);
            Round(r, st, ready, fd, behave) == (r2, st2, calls + more)
    decreases MAX_FDS - fd
  {
    var below := Below(ready, mid);
    if fd == mid {
      NothingReady(r, st, below, mid, behave);
      assert [] + Round(r, st, ready, mid, behave).2 == Round(r, st, ready, mid, behave).2;
    } else if fd > r.maxFd {
      assert Round(r, st, ready, mid, behave) == (r, st, []);
      assert [] + Round(r, st, ready, mid, behave).2 == [];
    } else if fd in ready && r.handlers[fd] != Null {
      var call := Call(fd, r.handlers[fd]);
      var (st1, acts) := behave(st, call);
      assert ActionsOk(behave(st, call).1);
      RoundSplit(ActAll(r, acts), st1, ready, fd + 1, mid, behave);
      var (r1, st2, calls) := Round(ActAll(r, acts), st1, below, fd + 1, behave);
      var more := Round(r1, st2, ready, mid, behave).2;
      assert [call] + (calls + more) == [call] + calls + more;
    } else {
      RoundSplit(r, st, ready, fd + 1, mid, behave);
    }
  }

  function Below(ready: set<nat>, mid: nat): (b: set<nat>)
    ensures forall f :: f in b <==> f in ready && f < mid
  {
    set f | f in ready && f < mid
  }

  lemma {:induction false} NothingReady<S(!new)>(r: State, st: S, ready: set<nat>, fd: nat, behave: Behaviour<S>)
    requires WellFormed(r) && BehaviourOk(behave) && forall f :: f in ready ==> f < fd
    ensures Round(r, st, ready, fd, behave) == (r, st, [])
    decreases MAX_FDS - fd
  {
    if fd <= r.maxFd {
      NothingReady(r, st, ready, fd + 1, behave);
    }
  }

  // -------------------------------------------------------------- the loop

  /** What one select call comes back with; while it waits, `world` happens to what the handlers deal with. */
  datatype Selection<!S> = Ready(fds: set<nat>, world: S -> S) | SelectError

  /** How the loop ended; `Blocked` when the given select results are used up and it waits for the next. */
  datatype Outcome = Stopped | Failed | Blocked

  datatype Trace<S> = Trace(r: State, st: S, rounds: seq<seq<Call>>, outcome: Outcome)

  /** The while loop of startReactor. */
  ghost function Loop<S(!new)>(r: State, st: S, selections: seq<Selection<S>>, behave: Behaviour<S>): (t: Trace<S>)
    requires WellFormed(r) && BehaviourOk(behave)
    ensures WellFormed(t.r)
    decreases |selections|
  {
    if !r.running then Trace(r, st, [], Stopped)
    else if selections == [] then Trace(r, st, [], Blocked)
    else
      match selections[0]
      case SelectError => Trace(r, st, [], Failed)
      case Ready(fds, world) =>
        var (r1, st1, calls) := Round(r, world(st), fds * r.readFds, 0, behave);
        var t := Loop(r1, st1, selections[1..], behave);
        t.(rounds := [calls] + t.rounds)
  }

  /**
   A stop requested by any handler call of a round lets the round go through all its ready descriptors, and it is the
   last; without such a request there is another select.
   */
  lemma StopFinishesTheRound<S(!new)>(r: State, st: S, selections: seq<Selection<S>>, behave: Behaviour<S>)
    requires Consistent(r) && BehaviourOk(behave) && r.running
    requires selections != [] && selections[0].Ready?
    ensures var now, ready := selections[0].world(st), selections[0].fds * r.readFds;
            var t := Loop(r, st, selections, behave);
            && t.rounds != [] && Fds(t.rounds[0]) == Ascending(ready, 0)
            && (StopReactor in Replay(now, t.rounds[0], behave).1 <==> t.outcome == Stopped && |t.rounds| == 1)
  {
    var now, ready := selections[0].world(st), selections[0].fds * r.readFds;
    RoundEffect(r, now, ready, behave);
    var (r1, st1, calls) := Round(r, now, ready, 0, behave);
    EndsAtOnce(r1, st1, selections[1..], behave);
    ActionsLeave(r, Replay(now, calls, behave).1);
  }

  lemma EndsAtOnce<S(!new)>(r: State, st: S, selections: seq<Selection<S>>, behave: Behaviour<S>)
    requires WellFormed(r) && BehaviourOk(behave)
    ensures var t := Loop(r, st, selections, behave); !r.running <==> t.outcome == Stopped && t.rounds == []
  {
  }

  /** A whole round from its snapshot on. */
  lemma RoundEffect<S(!new)>(r: State, st: S, ready: set<nat>, behave: Behaviour<S>)
    requires Consistent(r) && BehaviourOk(behave) && ready <= r.readFds
    ensures var (r', st', calls) := Round(r, st, ready, 0, behave);
            && Fds(calls) == Ascending(ready, 0) && Consistent(r') && r.readFds <= r'.readFds
            && ActionsOk(Replay(st, calls, behave).1)
            && st' == Replay(st, calls, behave).0 && r' == ActAll(r, Replay(st, calls, behave).1)
  {
    RoundCallsReadyOnce(r, st, ready, 0, behave);
    RoundIsReplay(r, st, ready, 0, behave);
  }

  /** The same replay over whole rounds, the world changing before each. */
  function ReplayRounds<S>(st: S, selections: seq<Selection<S>>, rounds: seq<seq<Call>>, behave: Behaviour<S>)
    : (S, seq<Action>)
    requires |rounds| <= |selections| && forall i :: 0 <= i < |rounds| ==> selections[i].Ready?
    decreases |rounds|
  {
    if rounds == [] then (st, [])
    else
      var (st1, acts) := Replay(selections[0].world(st), rounds[0], behave);
      var (st2, more) := ReplayRounds(st1, selections[1..], rounds[1..], behave);
      (st2, acts + more)
  }

  /** A round answers a selection: it calls all selected that were registered at first, and only selected ones. */
  predicate Answers(calls: seq<Call>, fds: set<nat>, registered: set<nat>) {
    && (forall fd :: fd in Fds(calls) ==> fd in fds)
    && (forall fd :: fd in fds && fd in registered && fd < MAX_FDS ==> fd in Fds(calls))
  }

  /**
   The loop answers each select result by a round, and ends where a select fails, where no result is left, or where a
   handler has stopped it.
   */
  lemma {:induction false} LoopAnswersSelects<S(!new)>(
    r: State, st: S, selections: seq<Selection<S>>, behave: Behaviour<S>)
    requires Consistent(r) && BehaviourOk(behave)
    ensures var t := Loop(r, st, selections, behave); var n := |t.rounds|;
            && n <= |selections|
            && (forall i :: 0 <= i < n ==> selections[i].Ready? && Answers(t.rounds[i], selections[i].fds, r.readFds))
            && (t.outcome == Failed ==> t.r.running && n < |selections| && selections[n].SelectError?)
            && (t.outcome == Blocked ==> t.r.running && n == |selections|)
            && (t.outcome == Stopped ==> !t.r.running)
    decreases |selections|
  {
    if r.running && selections != [] && selections[0].Ready? {
      var ready, now := selections[0].fds * r.readFds, selections[0].world(st);
      RoundEffect(r, now, ready, behave);
      var (r1, st1, calls) := Round(r, now, ready, 0, behave);
      LoopAnswersSelects(r1, st1, selections[1..], behave);
      var rounds := [calls] + Loop(r1, st1, selections[1..], behave).rounds;
      assert rounds[1..] == Loop(r1, st1, selections[1..], behave).rounds;
      AnswersShift(rounds, selections, r.readFds, r1.readFds);
    }
  }

  /** It does to reactor and handlers exactly what its calls do. */
  lemma {:induction false} LoopIsReplay<S(!new)>(
    r: State, st: S, selections: seq<Selection<S>>, behave: Behaviour<S>)
    requires Consistent(r) && BehaviourOk(behave)
    ensures var t := Loop(r, st, selections, behave);
            && |t.rounds| <= |selections| && (forall i :: 0 <= i < |t.rounds| ==> selections[i].Ready?)
            && var (end, acts) := ReplayRounds(st, selections, t.rounds, behave);
               t.st == end && ActionsOk(acts) && t.r == ActAll(r, acts)
    decreases |selections|
  {
    LoopAnswersSelects(r, st, selections, behave);
    if r.running && selections != [] && selections[0].Ready? {
      var ready, now := selections[0].fds * r.readFds, selections[0].world(st);
      RoundEffect(r, now, ready, behave);
      var (r1, st1, calls) := Round(r, now, ready, 0, behave);
      LoopIsReplay(r1, st1, selections[1..], behave);
      var t1 := Loop(r1, st1, selections[1..], behave);
      assert ([calls] + t1.rounds)[1..] == t1.rounds;
      ActConcat(r, Replay(now, calls, behave).1, ReplayRounds(st1, selections[1..], t1.rounds, behave).1);
    }
  }

  lemma AnswersShift<S>(rounds: seq<seq<Call>>, selections: seq<Selection<S>>, before: set<nat>, after: set<nat>)
    requires before <= after && 0 < |rounds| <= |selections|
    requires selections[0].Ready? && Answers(rounds[0], selections[0].fds, before)
    requires forall i :: 0 <= i < |rounds| - 1 ==>
      selections[1..][i].Ready? && Answers(rounds[1..][i], selections[1..][i].fds, after)
    ensures forall i :: 0 <= i < |rounds| ==> selections[i].Ready? && Answers(rounds[i], selections[i].fds, before)
  {
    forall i | 0 <= i < |rounds|
      ensures selections[i].Ready? && Answers(rounds[i], selections[i].fds, before)
    {
      if i > 0 {
        assert selections[i] == selections[1..][i - 1] && rounds[i] == rounds[1..][i - 1];
      }
    }
  }

  /** max_fd stays the maximum of what is registered, and nothing is ever unregistered. */
  lemma {:induction false} LoopKeepsConsistent<S(!new)>(
    r: State, st: S, selections: seq<Selection<S>>, behave: Behaviour<S>)
    requires Consistent(r) && BehaviourOk(behave)
    ensures var t := Loop(r, st, selections, behave); Consistent(t.r) && r.readFds <= t.r.readFds
    decreases |selections|
  {
    if r.running && selections != [] && selections[0].Ready? {
      var ready, now := selections[0].fds * r.readFds, selections[0].world(st);
      RoundCallsReadyOnce(r, now, ready, 0, behave);
      var (r1, st1, calls) := Round(r, now, ready, 0, behave);
      LoopKeepsConsistent(r1, st1, selections[1..], behave);
    }
  }

  // ------------------------------------------------------------- the object

  class Reactor {
    var readFds: set<nat>
    var maxFd: int
    const handlers: array<Handler>
    var running: bool

    ghost function View(): State
      reads this, handlers
    {
      State(readFds, maxFd, handlers[..], running)
    }

    /** createReactor. */
    constructor ()
      ensures Consistent(View()) && View().readFds == {} && !View().running && fresh(handlers)
    {
      readFds, maxFd, running := {}, -1, false;
      handlers := new Handler[MAX_FDS](_ => Null);
    }

    method Stop()
      requires WellFormed(View())
      modifies this`running
      ensures !running && readFds == old(readFds) && maxFd == old(maxFd) && handlers[..] == old(handlers[..])
      ensures View() == Act(old(View()), StopReactor)
    {
      running := false;
    }

    method Add(fd: nat, handler: Handler)
      requires WellFormed(View()) && ActionOk(AddFd(fd, handler))
      modifies this, handlers
      ensures readFds == old(readFds) + {fd} && running == old(running)
      ensures maxFd == if fd > old(maxFd) then fd else old(maxFd)
      ensures handlers[..] == old(handlers[..])[fd := handler]
      ensures View() == Act(old(View()), AddFd(fd, handler))
    {
      readFds := readFds + {fd};
      if fd > maxFd {
        maxFd := fd;
      }
      handlers[fd] := handler;
    }

    /** Everything one handler invocation does to the reactor. */
    method Carry(acts: seq<Action>)
      requires WellFormed(View()) && ActionsOk(acts)
      modifies this, handlers
      ensures View() == ActAll(old(View()), acts)
    {
      var i := 0;
      ghost var whole := ActAll(View(), acts);
      while i < |acts|
        invariant 0 <= i <= |acts| && WellFormed(View())
        invariant ActAll(View(), acts[i..]) == whole
      {
        assert acts[i..][0] == acts[i] && acts[i..][1..] == acts[i + 1..];
        match acts[i] {
          case AddFd(fd, h) => Add(fd, h);
          case StopReactor => Stop();
        }
        i := i + 1;
      }
    }

    /** The inner loop of startReactor. */
    method Dispatch<S(!new)>(st: S, ready: set<nat>, behave: Behaviour<S>) returns (st': S, calls: seq<Call>)
      requires WellFormed(View()) && BehaviourOk(behave)
      modifies this, handlers
      ensures WellFormed(View()) && (View(), st', calls) == Round(old(View()), st, ready, 0, behave)
    {
      st', calls := st, [];
      ghost var whole := Round(View(), st, ready, 0, behave);
      assert calls + whole.2 == whole.2;
      var fd := 0;
      while fd <= maxFd
        invariant WellFormed(View())
        invariant var rest := Round(View(), st', ready, fd, behave); whole == (rest.0, rest.1, calls + rest.2)
        decreases MAX_FDS - fd
      {
        if fd in ready {
          var handler := handlers[fd];
          if handler != Null {
            var call := Call(fd, handler);
            var (next, acts) := behave(st', call);
            assert ActionsOk(behave(st', call).1);
            ghost var rest := Round(ActAll(View(), acts), next, ready, fd + 1, behave);
            assert calls + ([call] + rest.2) == calls + [call] + rest.2;
            Carry(acts);
            st', calls := next, calls + [call];
          }
        }
        fd := fd + 1;
      }
      assert calls + [] == calls;
    }

    /** startReactor, with the results of its successive select calls. */
    method Start<S(!new)>(st: S, selections: seq<Selection<S>>, behave: Behaviour<S>)
      returns (st': S, rounds: seq<seq<Call>>, outcome: Outcome)
      requires WellFormed(View()) && BehaviourOk(behave)
      modifies this, handlers
      ensures Trace(View(), st', rounds, outcome) == Loop(old(View()).(running := true), st, selections, behave)
    {
      running := true;
      st', rounds := st, [];
      ghost var whole := Loop(View(), st, selections, behave);
      var n := 0;
      while running
        invariant 0 <= n <= |selections| && WellFormed(View())
        invariant var rest := Loop(View(), st', selections[n..], behave);
                  whole == rest.(rounds := rounds + rest.rounds)
        decreases |selections| - n
      {
        if n == |selections| {
          return st', rounds, Blocked;
        }
        assert selections[n..][0] == selections[n] && selections[n..][1..] == selections[n + 1..];
        match selections[n]
        case SelectError =>
          return st', rounds, Failed;
        case Ready(fds, world) =>
          ghost var rest := Loop(View(), st', selections[n..], behave);
          var next, calls := Dispatch(world(st'), fds * readFds, behave);
          assert rounds + rest.rounds == rounds + [calls] + rest.rounds[1..];
          st', rounds := next, rounds + [calls];
          n := n + 1;
      }
      outcome := Stopped;
    }
  }
}
