/**
  Searching the counted tables.  Every `Find...` returns the first matching
  index, or the table's length when nothing matches; `Put...` replaces the
  record that a search by identifier finds.
 */
module Lookup {
  import opened KernelTypes

  /** The search from index `i` on. */
  function FirstFrom<T>(xs: seq<T>, p: T -> bool, i: nat): (k: nat)
    requires i <= |xs|
    ensures i <= k <= |xs|
    ensures k < |xs| ==> p(xs[k])
    ensures forall j :: i <= j < k ==> !p(xs[j])
    decreases |xs| - i
  {
    if i == |xs| || p(xs[i]) then i else FirstFrom(xs, p, i + 1)
  }

  function FirstIndex<T>(xs: seq<T>, p: T -> bool): (i: nat)
    ensures i <= |xs|
    ensures i < |xs| ==> p(xs[i])
    ensures forall j :: 0 <= j < i ==> !p(xs[j])
  {
    FirstFrom(xs, p, 0)
  }

  // ------------------------------------------------------------------ actors

  function FindActor(actors: seq<Actor>, id: Id): (i: nat)
    ensures i <= |actors|
    ensures i < |actors| ==> actors[i].id == id
    ensures forall j :: 0 <= j < i ==> actors[j].id != id
  {
    FirstIndex(actors, (a: Actor) => a.id == id)
  }

  predicate Known(w: World, id: Id) {
    FindActor(w.actors, id) < |w.actors|
  }

  function GetActor(w: World, id: Id): (a: Actor)
    requires Known(w, id)
    ensures a.id == id
  {
    w.actors[FindActor(w.actors, id)]
  }

  predicate IsActive(w: World, id: Id) {
    Known(w, id) && GetActor(w, id).status == Active
  }

  function PutActor(w: World, actor: Actor): (r: World)
    requires Known(w, actor.id)
    ensures r == w.(actors := r.actors)
    ensures |r.actors| == |w.actors|
    ensures forall id {:trigger FindActor(r.actors, id)} :: FindActor(r.actors, id) == FindActor(w.actors, id)
    ensures forall id {:trigger GetActor(r, id)} :: Known(w, id) ==>
              GetActor(r, id) == if id == actor.id then actor else GetActor(w, id)
  {
    var i := FindActor(w.actors, actor.id);
    var r := w.(actors := w.actors[i := actor]);
    assert forall id :: FindActor(r.actors, id) == FindActor(w.actors, id) by {
      forall id ensures FindActor(r.actors, id) == FindActor(w.actors, id) {
        SameActorIds(w.actors, r.actors, id);
      }
    }
    r
  }

  lemma SameActorIds(before: seq<Actor>, after: seq<Actor>, id: Id)
    requires |before| == |after|
    requires forall j :: 0 <= j < |before| ==> before[j].id == after[j].id
    ensures FindActor(before, id) == FindActor(after, id)
  {}

  lemma ActorPrefix(before: seq<Actor>, after: seq<Actor>, id: Id)
    requires |before| <= |after|
    requires forall j :: 0 <= j < |before| ==> before[j].id == after[j].id
    requires FindActor(before, id) < |before|
    ensures FindActor(before, id) == FindActor(after, id)
  {}

  // --------------------------------------------------------- locations, exits

  function FindLocation(locations: seq<Location>, id: Id): (i: nat)
    ensures i <= |locations|
    ensures i < |locations| ==> locations[i].id == id
    ensures forall j :: 0 <= j < i ==> locations[j].id != id
  {
    FirstIndex(locations, (l: Location) => l.id == id)
  }

  predicate LocationExists(w: World, id: Id) {
    FindLocation(w.locations, id) < |w.locations|
  }

  predicate AllowsCombat(w: World, id: Id) {
    var i := FindLocation(w.locations, id);
    i < |w.locations| && w.locations[i].allowCombat
  }

  function FindExit(exits: seq<Exit>, from: Id, to: Id): (i: nat)
    ensures i <= |exits|
    ensures i < |exits| ==> exits[i].from == from && exits[i].to == to
    ensures forall j :: 0 <= j < i ==> !(exits[j].from == from && exits[j].to == to)
  {
    FirstIndex(exits, (x: Exit) => x.from == from && x.to == to)
  }

  predicate ExitExists(w: World, from: Id, to: Id) {
    FindExit(w.exits, from, to) < |w.exits|
  }

  // ------------------------------------------------------------------- items

  function FindItem(items: seq<Item>, id: Id): (i: nat)
    ensures i <= |items|
    ensures i < |items| ==> items[i].id == id
    ensures forall j :: 0 <= j < i ==> items[j].id != id
  {
    FirstIndex(items, (x: Item) => x.id == id)
  }

  predicate HasItem(w: World, id: Id) {
    FindItem(w.items, id) < |w.items|
  }

  function GetItem(w: World, id: Id): (x: Item)
    requires HasItem(w, id)
    ensures x.id == id
  {
    w.items[FindItem(w.items, id)]
  }

  function PutItem(w: World, item: Item): (r: World)
    requires HasItem(w, item.id)
    ensures r == w.(items := r.items)
    ensures |r.items| == |w.items|
    ensures forall id {:trigger FindItem(r.items, id)} :: FindItem(r.items, id) == FindItem(w.items, id)
    ensures forall id {:trigger GetItem(r, id)} :: HasItem(w, id) ==>
              GetItem(r, id) == if id == item.id then item else GetItem(w, id)
  {
    var i := FindItem(w.items, item.id);
    var r := w.(items := w.items[i := item]);
    assert forall id :: FindItem(r.items, id) == FindItem(w.items, id) by {
      forall id ensures FindItem(r.items, id) == FindItem(w.items, id) {
        SameItemIds(w.items, r.items, id);
      }
    }
    r
  }

  lemma SameItemIds(before: seq<Item>, after: seq<Item>, id: Id)
    requires |before| == |after|
    requires forall j :: 0 <= j < |before| ==> before[j].id == after[j].id
    ensures FindItem(before, id) == FindItem(after, id)
  {}

  // ------------------------------------------------------------------- gates

  function FindGate(gates: seq<Gate>, id: Id): (i: nat)
    ensures i <= |gates|
    ensures i < |gates| ==> gates[i].id == id
    ensures forall j :: 0 <= j < i ==> gates[j].id != id
  {
    FirstIndex(gates, (g: Gate) => g.id == id)
  }

  function FindExitGate(gates: seq<Gate>, from: Id, to: Id): (i: nat)
    ensures i <= |gates|
    ensures i < |gates| ==> gates[i].target == ExitTarget && gates[i].from == from && gates[i].to == to
    ensures forall j :: 0 <= j < i ==> !(gates[j].target == ExitTarget && gates[j].from == from && gates[j].to == to)
  {
    FirstIndex(gates, (g: Gate) => g.target == ExitTarget && g.from == from && g.to == to)
  }

  function FindActorState(states: seq<GateActorState>, gate: Id, actor: Id): (i: nat)
    ensures i <= |states|
    ensures i < |states| ==> states[i].gate == gate && states[i].actor == actor
    ensures forall j :: 0 <= j < i ==> !(states[j].gate == gate && states[j].actor == actor)
  {
    FirstIndex(states, (s: GateActorState) => s.gate == gate && s.actor == actor)
  }

  function FindClaim(claims: seq<Claim>, id: Id): (i: nat)
    ensures i <= |claims|
    ensures i < |claims| ==> claims[i].id == id
    ensures forall j :: 0 <= j < i ==> claims[j].id != id
  {
    FirstIndex(claims, (c: Claim) => c.id == id)
  }

  function FindFact(facts: seq<Fact>, subject: Id, fact: Id): (i: nat)
    ensures i <= |facts|
    ensures i < |facts| ==> facts[i].subject == subject && facts[i].fact == fact
    ensures forall j :: 0 <= j < i ==> !(facts[j].subject == subject && facts[j].fact == fact)
  {
    FirstIndex(facts, (f: Fact) => f.subject == subject && f.fact == fact)
  }

  // ------------------------------------------------------------------ combat

  function FindEncounter(encounters: seq<Encounter>, id: Id): (i: nat)
    ensures i <= |encounters|
    ensures i < |encounters| ==> encounters[i].id == id
    ensures forall j :: 0 <= j < i ==> encounters[j].id != id
  {
    FirstIndex(encounters, (e: Encounter) => e.id == id)
  }

  function FindParticipant(participants: seq<Participant>, actor: Id): (i: nat)
    ensures i <= |participants|
    ensures i < |participants| ==> participants[i].actor == actor
    ensures forall j :: 0 <= j < i ==> participants[j].actor != actor
  {
    FirstIndex(participants, (p: Participant) => p.actor == actor)
  }

  /** The actor stands unescaped in the participant list. */
  predicate Fights(participants: seq<Participant>, actor: Id) {
    exists j :: 0 <= j < |participants| && participants[j].actor == actor && !participants[j].escaped
  }

  predicate Engages(e: Encounter, actor: Id) {
    e.status == Ongoing && Fights(e.participants, actor)
  }

  /** The first active encounter in which the actor stands unescaped. */
  function FindEngagement(encounters: seq<Encounter>, actor: Id): (i: nat)
    ensures i <= |encounters|
    ensures i < |encounters| ==> Engages(encounters[i], actor)
    ensures forall j :: 0 <= j < i ==> !Engages(encounters[j], actor)
  {
    FirstIndex(encounters, (e: Encounter) => Engages(e, actor))
  }

  predicate Engaged(w: World, actor: Id) {
    FindEngagement(w.encounters, actor) < |w.encounters|
  }
}
