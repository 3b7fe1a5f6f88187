/**
 The server on top of the reactor (Assignment-4/react_server.c): a table of ten
 client slots shared by the two handlers.  What accept and recv return is chosen
 by the environment, once per round; accept returns a descriptor that is not
 open, is not zero and is below MAX_FDS, or fails.
 */
module ReactServer {
  import opened Reactor

  const MAX_CLIENTS: nat := 10

  const ACCEPT := Function(0)
  const CLIENT := Function(1)

  // ------------------------------------------------------- the slot table

  /** Index of the first slot from i on that holds v, or the number of slots. */
  function FirstSlot(slots: seq<nat>, v: nat, i: nat): (k: nat)
    requires i <= |slots|
    ensures i <= k <= |slots|
    ensures forall j :: i <= j < k ==> slots[j] != v
    ensures k < |slots| ==> slots[k] == v
    decreases |slots| - i
  {
    if i == |slots| then i else if slots[i] == v then i else FirstSlot(slots, v, i + 1)
  }

  /** Put v2 where v1 is first found; unchanged if it is not there. */
  function Replace(slots: seq<nat>, v1: nat, v2: nat): (r: seq<nat>)
    ensures |r| == |slots|
  {
    var k := FirstSlot(slots, v1, 0);
    if k < |slots| then slots[k := v2] else slots
  }

  /** k is the first slot in which there is no client. */
  predicate FirstFree(slots: seq<nat>, k: int) {
    0 <= k < |slots| && slots[k] == 0 && forall j :: 0 <= j < k ==> slots[j] != 0
  }

  /** The descriptors held by slots. */
  function Clients(slots: seq<nat>): (c: set<nat>)
    ensures forall fd :: fd in c <==> fd != 0 && fd in slots
  {
    set fd | fd in slots && fd != 0
  }

  predicate SlotsDistinct(slots: seq<nat>) {
    forall i, j :: 0 <= i < j < |slots| && slots[i] != 0 ==> slots[i] != slots[j]
  }

  lemma ClaimSlot(slots: seq<nat>, fd: nat)
    requires SlotsDistinct(slots) && fd != 0 && fd !in slots && FirstSlot(slots, 0, 0) < |slots|
    ensures SlotsDistinct(Replace(slots, 0, fd)) && Clients(Replace(slots, 0, fd)) == Clients(slots) + {fd}
  {
    var k := FirstSlot(slots, 0, 0);
    var r := Replace(slots, 0, fd);
    forall f ensures f in Clients(r) <==> f in Clients(slots) + {fd} {
      if f in Clients(slots) {
        var j :| 0 <= j < |slots| && slots[j] == f;
        assert r[j] == f;
      }
      if f == fd {
        assert r[k] == fd;
      }
    }
  }

  lemma ReleaseSlot(slots: seq<nat>, fd: nat)
    requires SlotsDistinct(slots) && fd != 0
    ensures SlotsDistinct(Replace(slots, fd, 0)) && Clients(Replace(slots, fd, 0)) == Clients(slots) - {fd}
  {
    var k := FirstSlot(slots, fd, 0);
    var r := Replace(slots, fd, 0);
    forall f ensures f in Clients(r) <==> f in Clients(slots) - {fd} {
      if f in Clients(slots) && f != fd {
        var j :| 0 <= j < |slots| && slots[j] == f;
        assert r[j] == f;
      }
    }
  }

  /** The slots in use are no more than there are slots. */
  lemma {:induction false} ClientsBounded(slots: seq<nat>)
    ensures |Clients(slots)| <= |slots|
  {
    if slots != [] {
      var rest := slots[1..];
      ClientsBounded(rest);
      assert slots == [slots[0]] + rest;
      assert Clients(slots) <= Clients(rest) + {slots[0]};
      SubsetSize(Clients(slots), Clients(rest) + {slots[0]});
    } else {
      assert Clients(slots) == {};
    }
  }

  lemma {:induction false} SubsetSize(a: set<nat>, b: set<nat>)
    requires a <= b
    ensures |a| <= |b|
  {
    if a != {} {
      var x :| x in a;
      SubsetSize(a - {x}, b - {x});
    }
  }

  // ---------------------------------------------------------- the handlers

  /** What the kernel answers during one round: to accept, given what is open, and to recv on each descriptor. */
  datatype Weather = Weather(accept: set<nat> -> int, recv: nat -> int)

  /** The handlers' side of the world; `once` are the descriptors that have ever held a slot. */
  datatype Server = Server(fd: nat, slots: seq<nat>, open: set<nat>, once: set<nat>, weather: Weather)

  /** A descriptor that accept may return. */
  predicate Possible(fd: int, open: set<nat>) {
    0 < fd < MAX_FDS && fd !in open
  }

  /** The result of accept: what the kernel never returns, such as a descriptor already open, stands for a failure. */
  function Answer(s: Server): (a: int)
    ensures a >= 0 ==> 0 < a < MAX_FDS && a !in s.open
    ensures Possible(s.weather.accept(s.open), s.open) ==> a == s.weather.accept(s.open)
    ensures !Possible(s.weather.accept(s.open), s.open) ==> a == -1
  {
    var a := s.weather.accept(s.open);
    if 0 < a < MAX_FDS && a !in s.open then a else -1
  }

  function Accepting(s: Server): (Server, seq<Action>) {
    var fd := Answer(s);
    if fd >= 0 && FirstSlot(s.slots, 0, 0) < |s.slots| then
      (s.(slots := Replace(s.slots, 0, fd), open := s.open + {fd}, once := s.once + {fd}), [AddFd(fd, CLIENT)])
    else
      (s, [])
  }

  function Receiving(s: Server, fd: nat): (Server, seq<Action>) {
    if s.weather.recv(fd) == 0 then (s.(slots := Replace(s.slots, fd, 0), open := s.open - {fd}), [])
    else (s, [])
  }

  function Handle(s: Server, call: Call): (Server, seq<Action>) {
    if call.handler == ACCEPT then Accepting(s) else Receiving(s, call.fd)
  }

  lemma HandleOk()
    ensures BehaviourOk(Handle)
  {
  }

  /** `client_sockets` with the two handlers that share it. */
  class SlotTable {
    const slots: array<nat>

    constructor ()
      ensures fresh(slots) && slots.Length == MAX_CLIENTS && forall i :: 0 <= i < MAX_CLIENTS ==> slots[i] == 0
    {
      slots := new nat[MAX_CLIENTS](_ => 0);
    }

    /** The loop of acceptClient: claim the first free slot; -1 if there is none. */
    method Claim(fd: nat) returns (slot: int)
      modifies slots
      ensures slot == if FirstSlot(old(slots[..]), 0, 0) < slots.Length then FirstSlot(old(slots[..]), 0, 0) else -1
      ensures slots[..] == Replace(old(slots[..]), 0, fd)
    {
      ghost var before := slots[..];
      slot := -1;
      var i := 0;
      while i < slots.Length
        invariant 0 <= i <= slots.Length && slots[..] == before
        invariant FirstSlot(before, 0, 0) == FirstSlot(before, 0, i)
      {
        if slots[i] == 0 {
          slots[i] := fd;
          slot := i;
          return;
        }
        i := i + 1;
      }
    }

    /** The loop of handleClient: clear the first slot that holds the descriptor. */
    method Release(fd: nat)
      modifies slots
      ensures slots[..] == Replace(old(slots[..]), fd, 0)
    {
      ghost var before := slots[..];
      var i := 0;
      while i < slots.Length
        invariant 0 <= i <= slots.Length && slots[..] == before
        invariant FirstSlot(before, fd, 0) == FirstSlot(before, fd, i)
      {
        if slots[i] == fd {
          slots[i] := 0;
          return;
        }
        i := i + 1;
      }
    }

    /** acceptClient; `answer` is what accept returned, `closed` whether the new descriptor is closed again. */
    method AcceptClient(answer: int, ghost s: Server) returns (acts: seq<Action>, closed: bool)
      requires slots[..] == s.slots && answer == Answer(s)
      modifies slots
      ensures slots[..] == Accepting(s).0.slots && acts == Accepting(s).1
      ensures answer < 0 ==> !closed && acts == [] && slots[..] == old(slots[..])
      ensures answer >= 0 && 0 !in old(slots[..]) ==> closed && acts == [] && slots[..] == old(slots[..])
      ensures answer >= 0 && 0 in old(slots[..]) ==>
                && !closed && acts == [AddFd(answer, CLIENT)]
                && exists k :: FirstFree(old(slots[..]), k) && slots[..] == old(slots[..])[k := answer]
    {
      if answer < 0 {
        return [], false;
      }
      var slot := Claim(answer);
      assert slot >= 0 ==> FirstFree(old(slots[..]), slot);
      if slot >= 0 {
        return [AddFd(answer, CLIENT)], false;
      } else {
        return [], true;
      }
    }

    /** handleClient; `received` is what recv returned, `closed` whether the descriptor is closed. */
    method HandleClient(fd: nat, received: int, ghost s: Server) returns (closed: bool)
      requires slots[..] == s.slots && received == s.weather.recv(fd)
      modifies slots
      ensures slots[..] == Receiving(s, fd).0.slots
      ensures received != 0 || fd !in old(slots[..]) ==> slots[..] == old(slots[..])
      ensures received == 0 && fd in old(slots[..]) ==>
                var k := FirstSlot(old(slots[..]), fd, 0); slots[..] == old(slots[..])[k := 0]
      ensures closed <==> received == 0
      ensures Receiving(s, fd).0.open == if closed then s.open - {fd} else s.open
    {
      if received > 0 {
        return false;
      } else if received == 0 {
        Release(fd);
        return true;
      } else {
        return false;
      }
    }
  }

  // ------------------------------------------------------------ invariant

  /**
   The open descriptors are the server's and the clients in the slots; registered are these and every descriptor that
   ever held a slot, each with its handler.
   */
  ghost predicate Inv(r: State, s: Server) {
    && Consistent(r)
    && |s.slots| == MAX_CLIENTS && SlotsDistinct(s.slots)
    && s.fd < MAX_FDS && s.fd !in s.once && 0 !in s.once
    && Clients(s.slots) <= s.once
    && s.open == {s.fd} + Clients(s.slots)
    && r.readFds == {s.fd} + s.once
    && r.handlers[s.fd] == ACCEPT
    && forall fd :: fd in s.once ==> fd < MAX_FDS && r.handlers[fd] == CLIENT
  }

  lemma AcceptKeeps(r: State, s: Server)
    requires Inv(r, s)
    ensures var (s', acts) := Accepting(s);
            && ActionsOk(acts) && Inv(ActAll(r, acts), s') && s.open <= s'.open && s'.fd == s.fd && s.once <= s'.once
            && ActAll(r, acts).running == r.running
  {
    var fd := Answer(s);
    if fd >= 0 && FirstSlot(s.slots, 0, 0) < |s.slots| {
      assert fd !in s.slots;
      ClaimSlot(s.slots, fd);
      var r' := Act(r, AddFd(fd, CLIENT));
      assert ActAll(r, [AddFd(fd, CLIENT)]) == r' by {
        assert [AddFd(fd, CLIENT)][1..] == [];
      }
      assert r'.readFds == {s.fd} + (s.once + {fd});
    }
  }

  lemma ReceiveKeeps(r: State, s: Server, fd: nat)
    requires Inv(r, s) && fd in s.once
    ensures var (s', acts) := Receiving(s, fd);
            && ActionsOk(acts) && Inv(ActAll(r, acts), s') && s'.fd == s.fd && s'.once == s.once
            && s'.open == if s.weather.recv(fd) == 0 then s.open - {fd} else s.open
  {
    if s.weather.recv(fd) == 0 {
      ReleaseSlot(s.slots, fd);
    }
  }

  /** One handler call of a round. */
  lemma CallKeeps(r: State, s: Server, fd: nat)
    requires Inv(r, s) && fd in r.readFds
    ensures r.handlers[fd] != Null
    ensures var (s', acts) := Handle(s, Call(fd, r.handlers[fd]));
            && ActionsOk(acts) && Inv(ActAll(r, acts), s') && s'.fd == s.fd && s.once <= s'.once
            && s'.weather == s.weather && ActAll(r, acts).running == r.running
            && s.open - {fd} <= s'.open
            && (fd != s.fd ==> s'.open == if s.weather.recv(fd) == 0 then s.open - {fd} else s.open)
  {
    if fd == s.fd {
      AcceptKeeps(r, s);
    } else {
      ReceiveKeeps(r, s, fd);
    }
  }

  lemma {:induction false} RoundKeeps(r: State, s: Server, ready: set<nat>, fd: nat)
    requires Inv(r, s) && BehaviourOk(Handle) && ready <= r.readFds
    ensures var (r', s', calls) := Round(r, s, ready, fd, Handle);
            && Inv(r', s') && s'.fd == s.fd && s.once <= s'.once && s'.weather == s.weather
            && r'.running == r.running
    decreases MAX_FDS - fd
  {
    if fd > r.maxFd {
    } else if fd in ready {
      CallKeeps(r, s, fd);
      var (s1, acts) := Handle(s, Call(fd, r.handlers[fd]));
      RoundKeeps(ActAll(r, acts), s1, ready, fd + 1);
    } else {
      RoundKeeps(r, s, ready, fd + 1);
    }
  }

  // ------------------------------------------------------------------ runs

  datatype Day = Day(weather: Weather, ready: set<nat>)

  /** select fails when a registered descriptor is not open, and the program exits. */
  predicate SelectFails(r: State, s: Server) {
    !(r.readFds <= s.open)
  }

  /** The server through a series of rounds, until a select fails. */
  ghost function Serve(r: State, s: Server, days: seq<Day>): (State, Server)
    requires Inv(r, s) && BehaviourOk(Handle)
    decreases |days|
  {
    if days == [] || SelectFails(r, s) then (r, s)
    else
      var s0 := s.(weather := days[0].weather);
      var (r1, s1, calls) := Round(r, s0, days[0].ready * r.readFds, 0, Handle);
      RoundKeeps(r, s0, days[0].ready * r.readFds, 0);
      Serve(r1, s1, days[1..])
  }

  /** The same rounds as the loop of the reactor sees them: a new day dawns while select waits. */
  ghost function Selections(r: State, s: Server, days: seq<Day>): (sel: seq<Selection<Server>>)
    requires Inv(r, s) && BehaviourOk(Handle)
    decreases |days|
  {
    if days == [] then []
    else if SelectFails(r, s) then [SelectError]
    else
      var s0 := s.(weather := days[0].weather);
      RoundKeeps(r, s0, days[0].ready * r.readFds, 0);
      var (r1, s1, calls) := Round(r, s0, days[0].ready * r.readFds, 0, Handle);
      [Ready(days[0].ready, (t: Server) => t.(weather := days[0].weather))] + Selections(r1, s1, days[1..])
  }

  /**
   Serving is what startReactor does with these handlers: no handler stops it, it fails exactly when a select does, and
   otherwise it goes on as long as select returns.
   */
  lemma {:induction false} ServeIsLoop(r: State, s: Server, days: seq<Day>)
    requires Inv(r, s) && BehaviourOk(Handle) && r.running
    ensures var t := Loop(r, s, Selections(r, s, days), Handle);
            && (t.r, t.st) == Serve(r, s, days) && t.r.running
            && (if t.outcome == Failed then SelectFails(t.r, t.st) && |t.rounds| < |days|
                else t.outcome == Blocked && |t.rounds| == |days|)
    decreases |days|
  {
    if days != [] && !SelectFails(r, s) {
      var s0 := s.(weather := days[0].weather);
      RoundKeeps(r, s0, days[0].ready * r.readFds, 0);
      var (r1, s1, calls) := Round(r, s0, days[0].ready * r.readFds, 0, Handle);
      var sel := Selections(r, s, days);
      assert sel[0].world(s) == s0 && sel[1..] == Selections(r1, s1, days[1..]);
      ServeIsLoop(r1, s1, days[1..]);
    }
  }

  /** main up to startReactor: an empty reactor with the listening socket registered. */
  function Opening(fd: nat, weather: Weather): (State, Server)
    requires fd < MAX_FDS
  {
    var r := State({}, -1, seq(MAX_FDS, _ => Null), true);
    (Act(r, AddFd(fd, ACCEPT)), Server(fd, seq(MAX_CLIENTS, _ => 0), {fd}, {}, weather))
  }

  lemma OpeningInv(fd: nat, weather: Weather)
    requires fd < MAX_FDS
    ensures Inv(Opening(fd, weather).0, Opening(fd, weather).1)
  {
    var (r, s) := Opening(fd, weather);
    assert Clients(s.slots) == {};
  }

  lemma {:induction false} ServeKeeps(r: State, s: Server, days: seq<Day>)
    requires Inv(r, s) && BehaviourOk(Handle)
    ensures var (r', s') := Serve(r, s, days); Inv(r', s') && s'.fd == s.fd
    decreases |days|
  {
    if days != [] && !SelectFails(r, s) {
      var s0 := s.(weather := days[0].weather);
      var (r1, s1, calls) := Round(r, s0, days[0].ready * r.readFds, 0, Handle);
      RoundKeeps(r, s0, days[0].ready * r.readFds, 0);
      ServeKeeps(r1, s1, days[1..]);
    }
  }

  /** The descriptors that once held a slot and no longer do. */
  function Departed(s: Server): set<nat> {
    s.once - Clients(s.slots)
  }

  /** The reactor and the server after a series of rounds from a fresh start. */
  ghost function ServerAfter(fd: nat, weather: Weather, days: seq<Day>): (State, Server)
    requires fd < MAX_FDS
  {
    HandleOk();
    OpeningInv(fd, weather);
    var (r, s) := Opening(fd, weather);
    Serve(r, s, days)
  }

  lemma ServerAfterInv(fd: nat, weather: Weather, days: seq<Day>)
    requires fd < MAX_FDS
    ensures var (r, s) := ServerAfter(fd, weather, days); Inv(r, s) && s.fd == fd
  {
    HandleOk();
    OpeningInv(fd, weather);
    var (r, s) := Opening(fd, weather);
    ServeKeeps(r, s, days);
  }

  /** The open clients are exactly the nonzero slots, which are distinct and at most ten. */
  lemma OpenClientsAreTheSlots(fd: nat, weather: Weather, days: seq<Day>)
    requires fd < MAX_FDS
    ensures var (r, s) := ServerAfter(fd, weather, days);
            SlotsDistinct(s.slots) && fd in s.open && s.open - {fd} == Clients(s.slots) && |Clients(s.slots)| <= 10
  {
    ServerAfterInv(fd, weather, days);
    var (r, s) := ServerAfter(fd, weather, days);
    ClientsBounded(s.slots);
  }

  /** Registered are the server, the clients and the departed, each with its handler, and max_fd is their maximum. */
  lemma RegisteredDescriptors(fd: nat, weather: Weather, days: seq<Day>)
    requires fd < MAX_FDS
    ensures var (r, s) := ServerAfter(fd, weather, days);
            && r.readFds == {fd} + Clients(s.slots) + Departed(s) && Departed(s) !! s.open
            && r.maxFd in r.readFds && WellFormed(r)
            && forall f :: f in r.readFds ==>
                 f <= r.maxFd && r.handlers[f] == if f == fd then ACCEPT else CLIENT
  {
    ServerAfterInv(fd, weather, days);
  }

  /** On every run the server gets past its next select exactly while no client has left for good. */
  lemma ServerLastsUntilADeparture(fd: nat, weather: Weather, days: seq<Day>)
    requires fd < MAX_FDS
    ensures var (r, s) := ServerAfter(fd, weather, days); SelectFails(r, s) <==> Departed(s) != {}
  {
    ServerAfterInv(fd, weather, days);
    var (r, s) := ServerAfter(fd, weather, days);
    SelectFailsIffDeparted(r, s);
  }

  /** The next select fails exactly when some client has left and its descriptor has not been taken by a new one. */
  lemma SelectFailsIffDeparted(r: State, s: Server)
    requires Inv(r, s)
    ensures SelectFails(r, s) <==> Departed(s) != {}
  {
    if Departed(s) != {} {
      var fd :| fd in Departed(s);
      assert fd in r.readFds && fd !in s.open;
    }
  }

  // ---------------------------------------------------- a client that arrives

  /** fd is a client: it holds a slot, is open, and is registered with the client handler. */
  predicate IsClient(r: State, s: Server, fd: int) {
    && 0 <= fd < |r.handlers|
    && fd in Clients(s.slots) && fd in s.open && fd in r.readFds && r.handlers[fd] == CLIENT
  }

  /** A descriptor that accept returns is a client right after the listener's call if and only if a slot was free. */
  lemma AcceptAdmitsIffFree(r: State, s: Server, guest: nat)
    requires Inv(r, s) && guest == s.weather.accept(s.open) && Possible(guest, s.open)
    ensures r.handlers[s.fd] == ACCEPT && ActionsOk(Handle(s, Call(s.fd, ACCEPT)).1)
    ensures var (s', acts) := Handle(s, Call(s.fd, ACCEPT));
            && (IsClient(ActAll(r, acts), s', guest) <==> 0 in s.slots)
            && (guest in s'.open <==> 0 in s.slots)
            && (0 !in s.slots ==> s' == s && acts == [])
  {
    CallKeeps(r, s, s.fd);
    if 0 in s.slots {
      assert guest !in s.slots;
      ClaimSlot(s.slots, guest);
      assert [AddFd(guest, CLIENT)][1..] == [];
    }
  }

  /** A client stays one through the rest of a round that does not call it. */
  lemma {:induction false} StaysClient(r: State, s: Server, ready: set<nat>, fd: nat, client: nat)
    requires Inv(r, s) && BehaviourOk(Handle) && ready <= r.readFds
    requires client in s.open && client != s.fd && (client in ready ==> client < fd)
    ensures var (r', s', calls) := Round(r, s, ready, fd, Handle); client in s'.open
    decreases MAX_FDS - fd
  {
    if fd > r.maxFd {
    } else if fd in ready {
      CallKeeps(r, s, fd);
      var (s1, acts) := Handle(s, Call(fd, r.handlers[fd]));
      StaysClient(ActAll(r, acts), s1, ready, fd + 1, client);
    } else {
      StaysClient(r, s, ready, fd + 1, client);
    }
  }

  lemma OpenIsClient(r: State, s: Server, fd: nat)
    requires Inv(r, s) && fd != s.fd
    ensures IsClient(r, s, fd) <==> fd in s.open
  {
  }

  /** The listener's call and what follows it in a round. */
  lemma ListenerCalled(r: State, s: Server, ready: set<nat>, guest: nat)
    requires Inv(r, s) && BehaviourOk(Handle) && ready <= r.readFds && s.fd in ready
    requires guest == s.weather.accept(s.open) && Possible(guest, s.open) && (guest in ready ==> guest < s.fd)
    ensures var (r', s', calls) := Round(r, s, ready, s.fd, Handle); guest in s'.open <==> 0 in s.slots
  {
    AcceptAdmitsIffFree(r, s, guest);
    CallKeeps(r, s, s.fd);
    var (s1, acts) := Handle(s, Call(s.fd, ACCEPT));
    var r1 := ActAll(r, acts);
    assert s.fd in r.readFds && s.fd <= r.maxFd;
    if 0 in s.slots {
      StaysClient(r1, s1, ready, s.fd + 1, guest);
    } else {
      StaysClosed(r1, s1, ready, s.fd + 1, guest);
    }
  }

  /**
   In a round in which the listening socket is ready and accept returns a descriptor that is not itself to be called
   later, the new descriptor is a client at the end of the round if and only if a slot was free when the listener was
   called, which is after the clients with smaller descriptors.
   */
  lemma RoundAdmitsIffFree(r: State, s: Server, ready: set<nat>)
    requires Inv(r, s) && ready <= r.readFds && s.fd in ready
    ensures BehaviourOk(Handle)
    ensures var (r1, s1, before) := Round(r, s, Below(ready, s.fd), 0, Handle);
            var guest := s.weather.accept(s1.open);
            var (r', s', calls) := Round(r, s, ready, 0, Handle);
            Possible(guest, s1.open) && (guest in ready ==> guest < s.fd) ==>
              (IsClient(r', s', guest) <==> 0 in s1.slots)
  {
    HandleOk();
    RoundSplit(r, s, ready, 0, s.fd, Handle);
    RoundKeeps(r, s, Below(ready, s.fd), 0);
    RoundKeeps(r, s, ready, 0);
    var (r1, s1, before) := Round(r, s, Below(ready, s.fd), 0, Handle);
    RoundEffect(r, s, Below(ready, s.fd), Handle);
    var guest := s.weather.accept(s1.open);
    if Possible(guest, s1.open) && (guest in ready ==> guest < s.fd) {
      ListenerCalled(r1, s1, ready, guest);
      var (r', s', calls) := Round(r, s, ready, 0, Handle);
      OpenIsClient(r', s', guest);
    }
  }

  /** The first client of a fresh server is admitted. */
  lemma FirstClientAdmitted(fd: nat, weather: Weather, day: Day)
    requires fd < MAX_FDS && fd in day.ready && Possible(day.weather.accept({fd}), {fd})
    ensures var (r, s) := ServerAfter(fd, weather, [day]);
            IsClient(r, s, day.weather.accept({fd}))
  {
    HandleOk();
    OpeningInv(fd, weather);
    var (r, s) := Opening(fd, weather);
    var s0 := s.(weather := day.weather);
    var ready := day.ready * r.readFds;
    assert ready == {fd} && Below(ready, fd) == {};
    NothingReady(r, s0, Below(ready, fd), 0, Handle);
    assert s0.slots[0] == 0;
    RoundAdmitsIffFree(r, s0, ready);
    ServerAfterInv(fd, weather, [day]);
    OneDay(r, s, day);
  }

  lemma OneDay(r: State, s: Server, day: Day)
    requires Inv(r, s) && BehaviourOk(Handle) && !SelectFails(r, s)
    ensures var e := Round(r, s.(weather := day.weather), day.ready * r.readFds, 0, Handle);
            Serve(r, s, [day]) == (e.0, e.1)
  {
    assert [day][1..] == [];
  }

  // ------------------------------------------------ a client that disconnects

  /** Past the listening socket no round accepts anything: what is closed stays closed. */
  lemma {:induction false} StaysClosed(r: State, s: Server, ready: set<nat>, fd: nat, gone: nat)
    requires Inv(r, s) && BehaviourOk(Handle) && ready <= r.readFds && fd > s.fd && gone !in s.open
    ensures gone !in Round(r, s, ready, fd, Handle).1.open
    decreases MAX_FDS - fd
  {
    if fd > r.maxFd {
    } else if fd in ready {
      CallKeeps(r, s, fd);
      var (s1, acts) := Handle(s, Call(fd, r.handlers[fd]));
      StaysClosed(ActAll(r, acts), s1, ready, fd + 1, gone);
    } else {
      StaysClosed(r, s, ready, fd + 1, gone);
    }
  }

  /** The call of a client that has disconnected and what follows it in a round. */
  lemma LeaverCalled(r: State, s: Server, ready: set<nat>, gone: nat)
    requires Inv(r, s) && BehaviourOk(Handle) && ready <= r.readFds
    requires s.fd < gone && gone in ready && s.weather.recv(gone) == 0
    ensures gone !in Round(r, s, ready, gone, Handle).1.open
  {
    CallKeeps(r, s, gone);
    var (s1, acts) := Handle(s, Call(gone, r.handlers[gone]));
    StaysClosed(ActAll(r, acts), s1, ready, gone + 1, gone);
  }

  lemma LeavesDuring(r: State, s: Server, ready: set<nat>, gone: nat)
    requires Inv(r, s) && BehaviourOk(Handle) && ready <= r.readFds
    requires s.fd < gone && gone in ready && s.weather.recv(gone) == 0
    ensures gone !in Round(r, s, ready, 0, Handle).1.open
  {
    assert gone in r.readFds && gone < MAX_FDS;
    RoundSplit(r, s, ready, 0, gone, Handle);
    RoundKeeps(r, s, Below(ready, gone), 0);
    RoundEffect(r, s, Below(ready, gone), Handle);
    var (r1, s1, before) := Round(r, s, Below(ready, gone), 0, Handle);
    LeaverCalled(r1, s1, ready, gone);
  }

  /**
   A client whose descriptor is above the listening socket's ends the server by disconnecting: its descriptor is closed
   but stays registered, so the next select fails.
   */
  lemma DisconnectEndsServer(r: State, s: Server, ready: set<nat>, gone: nat)
    requires Inv(r, s) && ready <= r.readFds
    requires gone in ready && gone in Clients(s.slots) && s.fd < gone && s.weather.recv(gone) == 0
    ensures BehaviourOk(Handle)
    ensures var (r', s', calls) := Round(r, s, ready, 0, Handle); gone in Departed(s') && SelectFails(r', s')
  {
    HandleOk();
    RoundKeeps(r, s, ready, 0);
    LeavesDuring(r, s, ready, gone);
    var (r', s', calls) := Round(r, s, ready, 0, Handle);
    SelectFailsIffDeparted(r', s');
  }
}
