/**
  The quick pre-check of what an actor may do next: option flags computed from
  the tables alone, without trying any rule.
 */
module Offers {
  import opened KernelTypes
  import opened Lookup
  import opened Carrying
  import opened GateRules
  import opened ItemRules
  import opened CombatRules

  datatype Offer =
    | OfferChat | OfferCheck | OfferMove | OfferPickUp | OfferUseItem | OfferAttack
    | OfferDefend | OfferGiveItem | OfferFlee | OfferDropItem | OfferSearch | OfferCraft | OfferTradeItem

  datatype Offers = UnknownActor | Offering(options: set<Offer>)

  /** The exit lets the actor through with no external facts and no particular
      method in mind. */
  predicate CanCrossUnaided(w: World, actor: Id, exit: Exit) {
    var g := FindExitGate(w.gates, exit.from, exit.to);
    if g == |w.gates| then !exit.locked
    else
      && !(exit.locked && !w.gates[g].recordedLock)
      && var e := Evaluate(w, w.gates[g].id, actor, [], 0);
         e.Decided? && e.decision.allowed
  }

  function FindOpenExit(w: World, actor: Actor): (i: nat)
    ensures i <= |w.exits|
    ensures i < |w.exits| ==> w.exits[i].from == actor.location && CanCrossUnaided(w, actor.id, w.exits[i])
    ensures forall j :: 0 <= j < i ==> !(w.exits[j].from == actor.location && CanCrossUnaided(w, actor.id, w.exits[j]))
  {
    FirstIndex(w.exits, (x: Exit) => x.from == actor.location && CanCrossUnaided(w, actor.id, x))
  }

  predicate HasOpenExit(w: World, actor: Actor) {
    FindOpenExit(w, actor) < |w.exits|
  }

  /** The first active encounter whose list holds the actor, able to act. */
  function FindFight(w: World, id: Id): (i: nat)
    ensures i <= |w.encounters|
    ensures i < |w.encounters| ==> FightsAbly(w, w.encounters[i], id)
    ensures forall j :: 0 <= j < i ==> !FightsAbly(w, w.encounters[j], id)
  {
    FirstIndex(w.encounters, (e: Encounter) => FightsAbly(w, e, id))
  }

  predicate FightsAbly(w: World, e: Encounter, id: Id) {
    && e.status == Ongoing
    && var j := FindParticipant(e.participants, id);
       j < |e.participants| && CanAct(w, e.participants[j])
  }

  predicate IsCompanion(other: Actor, actor: Actor) {
    other.id != actor.id && other.location == actor.location && other.status == Active
  }

  /** The first other active actor at the same place. */
  function FindCompanion(w: World, actor: Actor): (i: nat)
    ensures i <= |w.actors|
    ensures i < |w.actors| ==> IsCompanion(w.actors[i], actor)
    ensures forall j :: 0 <= j < i ==> !IsCompanion(w.actors[j], actor)
  {
    FirstIndex(w.actors, (other: Actor) => IsCompanion(other, actor))
  }

  function FindLoose(w: World, location: Id): (i: nat)
    ensures i <= |w.items|
    ensures i < |w.items| ==> LiesLoose(w.items[i], location)
    ensures forall j :: 0 <= j < i ==> !LiesLoose(w.items[j], location)
  {
    FirstIndex(w.items, (x: Item) => LiesLoose(x, location))
  }

  function FindHidden(w: World): (i: nat)
    ensures i <= |w.items|
    ensures i < |w.items| ==> IsHidden(w.items[i])
    ensures forall j :: 0 <= j < i ==> !IsHidden(w.items[j])
  {
    FirstIndex(w.items, (x: Item) => IsHidden(x))
  }

  /** Something loose here can be picked up, outright or against a held item. */
  predicate SomethingToPickUp(w: World, actor: Actor) {
    exists i :: 0 <= i < |w.items| && LiesLoose(w.items[i], actor.location) && CanPickUp(w, actor, i)
  }

  predicate Holding(w: World, actor: Actor) {
    exists i :: 0 <= i < |w.items| && w.items[i].holder == actor.id
  }

  predicate CompanionHolds(w: World, actor: Actor, item: Item) {
    item.holder != 0 && item.holder != actor.id && IsActive(w, item.holder)
    && GetActor(w, item.holder).location == actor.location
  }

  function CombatOptions(w: World, e: Encounter, actor: Actor): set<Offer> {
    if CurrentActor(e) != actor.id then {}
    else {OfferAttack, OfferDefend} + if HasOpenExit(w, actor) then {OfferFlee} else {}
  }

  function CombatantOptions(w: World, actor: Actor): set<Offer> {
    if AllowsCombat(w, actor.location) && FindCompanion(w, actor) < |w.actors|
    then {OfferAttack, OfferDefend} + if HasOpenExit(w, actor) then {OfferFlee} else {}
    else {}
  }

  function ItemOptions(w: World, actor: Actor): set<Offer> {
    var loose := FindLoose(w, actor.location) < |w.items|;
    var holding := Holding(w, actor);
    (if SomethingToPickUp(w, actor) then {OfferPickUp} else {})
    + (if exists i :: 0 <= i < |w.items| && w.items[i].holder == actor.id && w.items[i].charges > 0
                      && (w.items[i].kind == POTION || w.items[i].role == ROLE_SPELL)
       then {OfferUseItem} else {})
    + (if holding && FindCompanion(w, actor) < |w.actors| then {OfferGiveItem} else {})
    + (if holding && !loose then {OfferDropItem} else {})
    + (if !loose && FindHidden(w) < |w.items| then {OfferSearch} else {})
    + (if holding && loose then {OfferCraft} else {})
    + (if holding && exists i :: 0 <= i < |w.items| && CompanionHolds(w, actor, w.items[i])
       then {OfferTradeItem} else {})
  }

  function GetOffers(w: World, id: Id): Offers {
    if !Known(w, id) then UnknownActor
    else if !IsActive(w, id) then Offering({})
    else
      var actor, fight := GetActor(w, id), FindFight(w, id);
      if fight < |w.encounters| then Offering(CombatOptions(w, w.encounters[fight], actor))
      else Offering({OfferChat, OfferCheck} + CombatantOptions(w, actor)
                    + (if HasOpenExit(w, actor) then {OfferMove} else {}) + ItemOptions(w, actor))
  }

  predicate IsOffered(w: World, id: Id, offer: Offer) {
    GetOffers(w, id).Offering? && offer in GetOffers(w, id).options
  }
}
