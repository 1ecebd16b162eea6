/**
  The kernel's own form: one mutable world of counted tables, changed in place,
  and the caller's event buffer.  The searches of the tables live here, each a
  loop with an early exit.
 */
module LiveState {
  import opened KernelTypes
  import opened Lookup
  import opened GateRules

  /** The caller's buffer; calls may also be made without one. */
  class EventBuffer {
    var events: seq<Event>

    constructor ()
      ensures events == []
    {
      events := [];
    }
  }

  class WorldState {
    var tick: nat
    var actors: seq<Actor>
    var items: seq<Item>
    var locations: seq<Location>
    var exits: seq<Exit>
    var tracks: seq<Track>
    var encounters: seq<Encounter>
    var accessRevision: nat
    var gates: seq<Gate>
    var gateMethods: seq<GateMethod>
    var gatePredicates: seq<Predicate>
    var gateActorStates: seq<GateActorState>
    var claims: seq<Claim>
    var nextSeq: nat

    constructor (w: World, nextSeq: nat)
      ensures Now() == w && this.nextSeq == nextSeq
    {
      tick, actors, items, locations, exits := w.tick, w.actors, w.items, w.locations, w.exits;
      tracks, encounters, accessRevision := w.tracks, w.encounters, w.accessRevision;
      gates, gateMethods, gatePredicates := w.gates, w.gateMethods, w.gatePredicates;
      gateActorStates, claims := w.gateActorStates, w.claims;
      this.nextSeq := nextSeq;
    }

    /** The world as a value. */
    ghost function Now(): World
      reads this
    {
      World(tick, actors, items, locations, exits, tracks, encounters, accessRevision,
            gates, gateMethods, gatePredicates, gateActorStates, claims)
    }

    /** The event log as a value. */
    ghost function LogOf(out: EventBuffer?): Log
      reads this, out
    {
      Log(nextSeq, out != null, if out == null then [] else out.events)
    }

    /** What a finished handler has done: its status, the world and the log are
        those of the rule's outcome. */
    ghost predicate Did(before: Log, o: Outcome, status: Status, out: EventBuffer?)
      reads this, out
    {
      status == o.status && Now() == o.world && LogOf(out) == AppendAll(before, o.events)
    }

    lemma Conclude(before: Log, o: Outcome, status: Status, out: EventBuffer?)
      requires status == o.status && Now() == o.world && LogOf(out) == AppendAll(before, o.events)
      ensures Did(before, o, status, out)
    {}

    // ---------------------------------------------------------------- events

    method Emit(kind: EventKind, out: EventBuffer?)
      modifies this`nextSeq, out
      ensures LogOf(out) == AppendEvent(old(LogOf(out)), kind)
    {
      if out == null || |out.events| >= MAX_EVENTS {
        return;
      }
      out.events := out.events + [Event(nextSeq, kind)];
      nextSeq := Next64(nextSeq);
    }

    method Refuse(reason: Reason, out: EventBuffer?) returns (status: Status)
      modifies this`nextSeq, out
      ensures Did(old(LogOf(out)), Reject(old(Now()), reason), status, out)
    {
      Emit(RuleRejected(reason), out);
      status := ErrRule;
    }

    // -------------------------------------------------------------- searches

    method LocateActor(id: Id) returns (i: nat)
      ensures i == FindActor(actors, id)
    {
      i := 0;
      while i < |actors| && actors[i].id != id
        invariant i <= |actors| && forall j :: 0 <= j < i ==> actors[j].id != id
      {
        i := i + 1;
      }
    }

    method LocateLocation(id: Id) returns (i: nat)
      ensures i == FindLocation(locations, id)
    {
      i := 0;
      while i < |locations| && locations[i].id != id
        invariant i <= |locations| && forall j :: 0 <= j < i ==> locations[j].id != id
      {
        i := i + 1;
      }
    }

    method LocateExit(from: Id, to: Id) returns (i: nat)
      ensures i == FindExit(exits, from, to)
    {
      i := 0;
      while i < |exits| && !(exits[i].from == from && exits[i].to == to)
        invariant i <= |exits| && forall j :: 0 <= j < i ==> !(exits[j].from == from && exits[j].to == to)
      {
        i := i + 1;
      }
    }

    method LocateItem(id: Id) returns (i: nat)
      ensures i == FindItem(items, id)
    {
      i := 0;
      while i < |items| && items[i].id != id
        invariant i <= |items| && forall j :: 0 <= j < i ==> items[j].id != id
      {
        i := i + 1;
      }
    }

    method LocateGate(id: Id) returns (i: nat)
      ensures i == FindGate(gates, id)
    {
      i := 0;
      while i < |gates| && gates[i].id != id
        invariant i <= |gates| && forall j :: 0 <= j < i ==> gates[j].id != id
      {
        i := i + 1;
      }
    }

    method LocateExitGate(from: Id, to: Id) returns (i: nat)
      ensures i == FindExitGate(gates, from, to)
    {
      i := 0;
      while i < |gates| && !(gates[i].target == ExitTarget && gates[i].from == from && gates[i].to == to)
        invariant i <= |gates|
        invariant forall j :: 0 <= j < i ==>
                    !(gates[j].target == ExitTarget && gates[j].from == from && gates[j].to == to)
      {
        i := i + 1;
      }
    }

    method LocateActorState(gate: Id, actor: Id) returns (i: nat)
      ensures i == FindActorState(gateActorStates, gate, actor)
    {
      i := 0;
      while i < |gateActorStates| && !(gateActorStates[i].gate == gate && gateActorStates[i].actor == actor)
        invariant i <= |gateActorStates|
        invariant forall j :: 0 <= j < i ==> !(gateActorStates[j].gate == gate && gateActorStates[j].actor == actor)
      {
        i := i + 1;
      }
    }

    method LocateClaim(id: Id) returns (i: nat)
      ensures i == FindClaim(claims, id)
    {
      i := 0;
      while i < |claims| && claims[i].id != id
        invariant i <= |claims| && forall j :: 0 <= j < i ==> claims[j].id != id
      {
        i := i + 1;
      }
    }

    method LocateEncounter(id: Id) returns (i: nat)
      ensures i == FindEncounter(encounters, id)
    {
      i := 0;
      while i < |encounters| && encounters[i].id != id
        invariant i <= |encounters| && forall j :: 0 <= j < i ==> encounters[j].id != id
      {
        i := i + 1;
      }
    }

    /** The first active encounter with the actor unescaped in its list. */
    method LocateEngagement(actor: Id) returns (i: nat)
      ensures i == FindEngagement(encounters, actor)
    {
      i := 0;
      while i < |encounters|
        invariant i <= |encounters| && forall j :: 0 <= j < i ==> !Engages(encounters[j], actor)
      {
        var list, k := encounters[i].participants, 0;
        while encounters[i].status == Ongoing && k < |list|
          invariant k <= |list|
          invariant forall j :: 0 <= j < k ==> !(list[j].actor == actor && !list[j].escaped)
        {
          if list[k].actor == actor && !list[k].escaped {
            assert Engages(encounters[i], actor);
            return;
          }
          k := k + 1;
        }
        i := i + 1;
      }
    }

    /** The shared opening of most handlers: the acting actor, if it is active. */
    method RequireActive(id: Id, out: EventBuffer?) returns (status: Status, at: nat)
      modifies this`nextSeq, out
      ensures status == Success <==> IsActive(old(Now()), id)
      ensures status == Success ==> at == FindActor(actors, id) && LogOf(out) == old(LogOf(out))
      ensures status != Success ==> Did(old(LogOf(out)), RejectInactive(old(Now()), id), status, out)
    {
      at := LocateActor(id);
      if at == |actors| {
        status := Refuse(ActorNotFound, out);
      } else if actors[at].status != Active {
        status := Refuse(ActorInactive, out);
      } else {
        status := Success;
      }
    }
  }

  method LocateParticipant(participants: seq<Participant>, actor: Id) returns (i: nat)
    ensures i == FindParticipant(participants, actor)
  {
    i := 0;
    while i < |participants| && participants[i].actor != actor
      invariant i <= |participants| && forall j :: 0 <= j < i ==> participants[j].actor != actor
    {
      i := i + 1;
    }
  }

  method LocateFact(facts: seq<Fact>, subject: Id, fact: Id) returns (i: nat)
    ensures i == FindFact(facts, subject, fact)
  {
    i := 0;
    while i < |facts| && !(facts[i].subject == subject && facts[i].fact == fact)
      invariant i <= |facts| && forall j :: 0 <= j < i ==> !(facts[j].subject == subject && facts[j].fact == fact)
    {
      i := i + 1;
    }
  }

  // --------------------------------------------------------- appending events

  lemma AppendOne(log: Log, kind: EventKind)
    ensures AppendAll(log, [kind]) == AppendEvent(log, kind)
  {
    assert [kind][1..] == [];
  }

  lemma AppendPair(log: Log, first: EventKind, second: EventKind)
    ensures AppendAll(log, [first, second]) == AppendEvent(AppendEvent(log, first), second)
  {
    AppendOne(AppendEvent(log, first), second);
    assert [first, second][1..] == [second];
  }

  lemma {:induction false} AppendAllConcat(log: Log, first: seq<EventKind>, second: seq<EventKind>)
    ensures AppendAll(log, first + second) == AppendAll(AppendAll(log, first), second)
    decreases |first|
  {
    if first == [] {
      assert first + second == second;
    } else {
      assert (first + second)[0] == first[0] && (first + second)[1..] == first[1..] + second;
      AppendAllConcat(AppendEvent(log, first[0]), first[1..], second);
    }
  }
}
