/**
  The offers in place: the loops over exits, encounters, actors and items that
  set the option flags.
 */
module LiveOffers {
  import opened KernelTypes
  import opened Lookup
  import opened Carrying
  import opened GateRules
  import opened ItemRules
  import opened CombatRules
  import opened Offers
  import opened LiveState
  import opened LiveItems
  import opened LiveGates
  import opened LiveCombat

  method CheckUnaided(m: WorldState, actor: Id, exit: Exit) returns (open: bool)
    ensures open == CanCrossUnaided(m.Now(), actor, exit)
  {
    hide Evaluate;
    var g := m.LocateExitGate(exit.from, exit.to);
    if g == |m.gates| {
      return !exit.locked;
    }
    if exit.locked && !m.gates[g].recordedLock {
      return false;
    }
    var e := EvaluateGate(m, m.gates[g].id, actor, [], 0);
    open := e.Decided? && e.decision.allowed;
  }

  method CheckExits(m: WorldState, actor: Actor) returns (open: bool)
    ensures open == HasOpenExit(m.Now(), actor)
  {
    hide CanCrossUnaided;
    var i := 0;
    while i < |m.exits|
      invariant i <= |m.exits|
      invariant forall j :: 0 <= j < i ==>
                  !(m.exits[j].from == actor.location && CanCrossUnaided(m.Now(), actor.id, m.exits[j]))
    {
      if m.exits[i].from == actor.location {
        open := CheckUnaided(m, actor.id, m.exits[i]);
        if open {
          return;
        }
      }
      i := i + 1;
    }
    open := false;
  }

  /** The first active encounter in which the actor is listed and able. */
  method LocateFight(m: WorldState, id: Id) returns (i: nat)
    ensures i == FindFight(m.Now(), id)
  {
    hide CanAct;
    i := 0;
    while i < |m.encounters|
      invariant i <= |m.encounters| && forall j :: 0 <= j < i ==> !FightsAbly(m.Now(), m.encounters[j], id)
    {
      var e := m.encounters[i];
      if e.status == Ongoing {
        var j := LocateParticipant(e.participants, id);
        var able := false;
        if j < |e.participants| {
          able := CheckAble(m, e.participants[j]);
        }
        if able {
          return;
        }
      }
      i := i + 1;
    }
  }

  method LocateCompanion(m: WorldState, actor: Actor) returns (i: nat)
    ensures i == FindCompanion(m.Now(), actor)
  {
    i := 0;
    while i < |m.actors| && !IsCompanion(m.actors[i], actor)
      invariant i <= |m.actors| && forall j :: 0 <= j < i ==> !IsCompanion(m.actors[j], actor)
    {
      i := i + 1;
    }
  }

  method CheckPickUps(m: WorldState, actor: Actor, incoming: nat) returns (fits: bool)
    ensures fits == CanPickUp(m.Now(), actor, incoming)
  {
    hide CanExchange;
    fits := CheckExchange(m, actor, |m.items|, incoming);
    if fits {
      return;
    }
    var i := 0;
    while i < |m.items|
      invariant i <= |m.items|
      invariant forall out :: 0 <= out < i ==>
                  !(m.items[out].holder == actor.id && CanExchange(m.Now(), actor, out, incoming))
    {
      if m.items[i].holder == actor.id {
        fits := CheckExchange(m, actor, i, incoming);
        if fits {
          return;
        }
      }
      i := i + 1;
    }
  }

  method CheckCompanionHolds(m: WorldState, actor: Actor, item: Item) returns (held: bool)
    ensures held == CompanionHolds(m.Now(), actor, item)
  {
    held := false;
    if item.holder != 0 && item.holder != actor.id {
      var j := m.LocateActor(item.holder);
      held := j < |m.actors| && m.actors[j].status == Active && m.actors[j].location == actor.location;
    }
  }

  predicate Usable(item: Item, actor: Actor) {
    item.holder == actor.id && item.charges > 0 && (item.kind == POTION || item.role == ROLE_SPELL)
  }

  datatype Sightings = Sightings(loose: bool, takeable: bool, hidden: bool, usable: bool, holding: bool, theirs: bool)

  /** What the first `n` items show of the floor. */
  predicate FloorSeen(w: World, actor: Actor, s: Sightings, n: nat)
    requires n <= |w.items|
  {
    && (s.loose <==> exists i :: 0 <= i < n && LiesLoose(w.items[i], actor.location))
    && (s.takeable <==> exists i :: 0 <= i < n && LiesLoose(w.items[i], actor.location) && CanPickUp(w, actor, i))
    && (s.hidden <==> exists i :: 0 <= i < n && IsHidden(w.items[i]))
  }

  /** What the first `n` items show in hands. */
  predicate HandsSeen(w: World, actor: Actor, s: Sightings, n: nat)
    requires n <= |w.items|
  {
    && (s.usable <==> exists i :: 0 <= i < n && Usable(w.items[i], actor))
    && (s.holding <==> exists i :: 0 <= i < n && w.items[i].holder == actor.id)
    && (s.theirs <==> exists i :: 0 <= i < n && CompanionHolds(w, actor, w.items[i]))
  }

  method LookAtFloor(m: WorldState, actor: Actor, i: nat, before: Sightings) returns (s: Sightings)
    requires i < |m.items| && FloorSeen(m.Now(), actor, before, i)
    ensures FloorSeen(m.Now(), actor, s, i + 1)
    ensures s == before.(loose := s.loose, takeable := s.takeable, hidden := s.hidden)
  {
    hide LiesLoose;
    hide IsHidden;
    hide CanPickUp;
    var item := m.items[i];
    s := before;
    if LiesLoose(item, actor.location) {
      s := s.(loose := true);
      var fits := CheckPickUps(m, actor, i);
      if fits {
        s := s.(takeable := true);
      }
    }
    if IsHidden(item) {
      s := s.(hidden := true);
    }
  }

  method LookAtHands(m: WorldState, actor: Actor, i: nat, before: Sightings) returns (s: Sightings)
    requires i < |m.items| && HandsSeen(m.Now(), actor, before, i)
    ensures HandsSeen(m.Now(), actor, s, i + 1)
    ensures s == before.(usable := s.usable, holding := s.holding, theirs := s.theirs)
  {
    hide Usable;
    hide CompanionHolds;
    var item := m.items[i];
    s := before;
    if Usable(item, actor) {
      s := s.(usable := true);
    }
    if item.holder == actor.id {
      s := s.(holding := true);
    }
    var held := CheckCompanionHolds(m, actor, item);
    if held {
      s := s.(theirs := true);
    }
  }

  lemma HandsDoNotSeeTheFloor(w: World, actor: Actor, s: Sightings, t: Sightings, n: nat)
    requires n <= |w.items|
    ensures s == t.(usable := s.usable, holding := s.holding, theirs := s.theirs) ==>
              FloorSeen(w, actor, s, n) == FloorSeen(w, actor, t, n)
    ensures s == t.(loose := s.loose, takeable := s.takeable, hidden := s.hidden) ==>
              HandsSeen(w, actor, s, n) == HandsSeen(w, actor, t, n)
  {}

  /** The one pass over the items. */
  method LookAround(m: WorldState, actor: Actor) returns (s: Sightings)
    ensures FloorSeen(m.Now(), actor, s, |m.items|) && HandsSeen(m.Now(), actor, s, |m.items|)
  {
    s := Sightings(false, false, false, false, false, false);
    var i := 0;
    while i < |m.items|
      invariant i <= |m.items| && FloorSeen(m.Now(), actor, s, i) && HandsSeen(m.Now(), actor, s, i)
    {
      hide FloorSeen;
      hide HandsSeen;
      var floor := LookAtFloor(m, actor, i, s);
      HandsDoNotSeeTheFloor(m.Now(), actor, floor, s, i);
      s := LookAtHands(m, actor, i, floor);
      HandsDoNotSeeTheFloor(m.Now(), actor, s, floor, i + 1);
      i := i + 1;
    }
  }

  function OptionsOf(s: Sightings, companion: bool): set<Offer> {
    (if s.takeable then {OfferPickUp} else {})
    + (if s.usable then {OfferUseItem} else {})
    + (if s.holding && companion then {OfferGiveItem} else {})
    + (if s.holding && !s.loose then {OfferDropItem} else {})
    + (if !s.loose && s.hidden then {OfferSearch} else {})
    + (if s.holding && s.loose then {OfferCraft} else {})
    + (if s.holding && s.theirs then {OfferTradeItem} else {})
  }

  lemma SightingsDecide(w: World, actor: Actor, s: Sightings)
    requires FloorSeen(w, actor, s, |w.items|) && HandsSeen(w, actor, s, |w.items|)
    ensures ItemOptions(w, actor) == OptionsOf(s, FindCompanion(w, actor) < |w.actors|)
  {
    assert s.loose == (FindLoose(w, actor.location) < |w.items|);
    assert s.hidden == (FindHidden(w) < |w.items|);
    assert s.takeable == SomethingToPickUp(w, actor);
    assert s.holding == Holding(w, actor);
    hide LiesLoose;
    hide IsHidden;
    hide FindLoose;
    hide FindHidden;
    hide SomethingToPickUp;
    hide Holding;
    hide CompanionHolds;
    hide FindCompanion;
  }

  method ListOffers(m: WorldState, id: Id) returns (o: Offers)
    ensures o == GetOffers(m.Now(), id)
  {
    hide FindFight, HasOpenExit, FindCompanion, ItemOptions, FindActor, FindLocation;
    var at := m.LocateActor(id);
    if at == |m.actors| {
      return UnknownActor;
    }
    var actor := m.actors[at];
    if actor.status != Active {
      return Offering({});
    }
    var fight := LocateFight(m, id);
    var open := CheckExits(m, actor);
    if fight < |m.encounters| {
      var options := {};
      if CurrentActor(m.encounters[fight]) == id {
        options := {OfferAttack, OfferDefend};
        if open {
          options := options + {OfferFlee};
        }
      }
      return Offering(options);
    }
    var options := {OfferChat, OfferCheck};
    var l := m.LocateLocation(actor.location);
    var c := LocateCompanion(m, actor);
    if l < |m.locations| && m.locations[l].allowCombat && c < |m.actors| {
      options := options + {OfferAttack, OfferDefend};
      if open {
        options := options + {OfferFlee};
      }
    }
    if open {
      options := options + {OfferMove};
    }
    var s := LookAround(m, actor);
    SightingsDecide(m.Now(), actor, s);
    hide OptionsOf;
    o := Offering(options + OptionsOf(s, c < |m.actors|));
  }
}
