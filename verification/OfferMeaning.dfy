/**
  What the quick pre-check offers, flag by flag and told over the tables: nothing
  to an inactive actor, a fighter's options to whoever is able in a fight, and to
  everybody else exactly what the things and people around allow.
 */
module OfferMeaning {
  import opened KernelTypes
  import opened Lookup
  import opened Carrying
  import opened GateRules
  import opened ItemRules
  import opened CombatRules
  import opened Offers
  import opened CombatMeaning
  import opened EncounterMeaning
  import opened ItemMeaning

  // --------------------------------------------------------------- what is near

  /** An exit lets the actor through as things stand: it is unlocked or, if a gate is
      bound to it, the gate evaluates to allowed and answers for the lock. */
  predicate LetsThrough(w: World, id: Id, x: Exit) {
    if forall g :: 0 <= g < |w.gates| ==> !(w.gates[g].target == ExitTarget && w.gates[g].from == x.from && w.gates[g].to == x.to)
    then !x.locked
    else exists g :: 0 <= g < |w.gates| && w.gates[g].target == ExitTarget && w.gates[g].from == x.from && w.gates[g].to == x.to
           && (forall j :: 0 <= j < g ==> !(w.gates[j].target == ExitTarget && w.gates[j].from == x.from && w.gates[j].to == x.to))
           && (x.locked ==> w.gates[g].recordedLock)
           && Evaluate(w, w.gates[g].id, id, [], 0).Decided? && Evaluate(w, w.gates[g].id, id, [], 0).decision.allowed
  }

  predicate WayOut(w: World, x: Actor) {
    exists i :: 0 <= i < |w.exits| && w.exits[i].from == x.location && LetsThrough(w, x.id, w.exits[i])
  }

  predicate Company(w: World, x: Actor) {
    exists i :: 0 <= i < |w.actors| && w.actors[i].id != x.id && w.actors[i].location == x.location && w.actors[i].status == Active
  }

  predicate Lying(w: World, x: Actor, i: nat)
    requires i < |w.items|
  {
    w.items[i].holder == 0 && w.items[i].location == x.location && w.items[i].zone == WorldZone
  }

  predicate SomethingLies(w: World, x: Actor) {
    exists i :: 0 <= i < |w.items| && Lying(w, x, i)
  }

  predicate HasSomething(w: World, x: Actor) {
    exists i :: 0 <= i < |w.items| && w.items[i].holder == x.id
  }

  predicate SomethingHides(w: World) {
    exists i :: 0 <= i < |w.items| && w.items[i].holder == 0 && w.items[i].location == 0 && w.items[i].charges != 0
  }

  /** Something lying here fits, on its own or in exchange for something held. */
  predicate SomethingFits(w: World, x: Actor) {
    exists i :: 0 <= i < |w.items| && Lying(w, x, i)
      && (|| CanExchange(w, x, |w.items|, i)
          || exists j :: 0 <= j < |w.items| && w.items[j].holder == x.id && CanExchange(w, x, j, i))
  }

  predicate SomethingUsable(w: World, x: Actor) {
    exists i :: 0 <= i < |w.items| && w.items[i].holder == x.id && w.items[i].charges > 0 && (w.items[i].kind == 1 || w.items[i].role == 4)
  }

  /** Somebody else active here holds something. */
  predicate SomethingToTradeFor(w: World, x: Actor) {
    exists i :: 0 <= i < |w.items| && w.items[i].holder != 0 && w.items[i].holder != x.id && ActiveActor(w, w.items[i].holder)
                && w.actors[FindActor(w.actors, w.items[i].holder)].location == x.location
  }

  lemma WayOutMeans(w: World, x: Actor)
    ensures HasOpenExit(w, x) <==> WayOut(w, x)
  {
    forall e: Exit ensures CanCrossUnaided(w, x.id, e) <==> LetsThrough(w, x.id, e) {
      LettingThroughMeans(w, x.id, e);
    }
    hide CanCrossUnaided, LetsThrough, FirstIndex;
    var i := FindOpenExit(w, x);
    if i < |w.exits| {
      assert LetsThrough(w, x.id, w.exits[i]);
    }
  }

  lemma LettingThroughMeans(w: World, id: Id, x: Exit)
    ensures CanCrossUnaided(w, id, x) <==> LetsThrough(w, id, x)
  {
    hide Evaluate, FirstIndex;
    var g := FindExitGate(w.gates, x.from, x.to);
    if LetsThrough(w, id, x) && g < |w.gates| {
      var k :| 0 <= k < |w.gates| && w.gates[k].target == ExitTarget && w.gates[k].from == x.from && w.gates[k].to == x.to
           && (forall j :: 0 <= j < k ==> !(w.gates[j].target == ExitTarget && w.gates[j].from == x.from && w.gates[j].to == x.to))
           && (x.locked ==> w.gates[k].recordedLock)
           && Evaluate(w, w.gates[k].id, id, [], 0).Decided? && Evaluate(w, w.gates[k].id, id, [], 0).decision.allowed;
      assert k == g;
    }
  }

  lemma SurroundingsMean(w: World, x: Actor)
    ensures FindCompanion(w, x) < |w.actors| <==> Company(w, x)
    ensures FindLoose(w, x.location) < |w.items| <==> SomethingLies(w, x)
    ensures FindHidden(w) < |w.items| <==> SomethingHides(w)
    ensures Holding(w, x) <==> HasSomething(w, x)
    ensures AllowsCombat(w, x.location) <==> FightingAllowed(w, x.location)
  {
    hide FirstIndex;
    var i, j, k := FindCompanion(w, x), FindLoose(w, x.location), FindHidden(w);
    if i < |w.actors| {
      assert IsCompanion(w.actors[i], x);
    }
    if j < |w.items| {
      assert Lying(w, x, j);
    }
    if k < |w.items| {
      assert IsHidden(w.items[k]);
    }
  }

  lemma FittingMeans(w: World, x: Actor)
    ensures SomethingToPickUp(w, x) <==> SomethingFits(w, x)
  {
    hide CanExchange;
    if SomethingToPickUp(w, x) {
      var i :| 0 <= i < |w.items| && LiesLoose(w.items[i], x.location) && CanPickUp(w, x, i);
      assert Lying(w, x, i);
    }
    if SomethingFits(w, x) {
      var i :| 0 <= i < |w.items| && Lying(w, x, i)
        && (|| CanExchange(w, x, |w.items|, i)
            || exists j :: 0 <= j < |w.items| && w.items[j].holder == x.id && CanExchange(w, x, j, i));
      assert LiesLoose(w.items[i], x.location) && CanPickUp(w, x, i);
    }
  }

  lemma TradingPartnerMeans(w: World, x: Actor)
    ensures (exists i :: 0 <= i < |w.items| && CompanionHolds(w, x, w.items[i])) <==> SomethingToTradeFor(w, x)
  {
    hide FirstIndex;
    if exists i :: 0 <= i < |w.items| && CompanionHolds(w, x, w.items[i]) {
      var i :| 0 <= i < |w.items| && CompanionHolds(w, x, w.items[i]);
      assert w.items[i].holder != 0;
    }
    if SomethingToTradeFor(w, x) {
      var i :| 0 <= i < |w.items| && w.items[i].holder != 0 && w.items[i].holder != x.id && ActiveActor(w, w.items[i].holder)
                && w.actors[FindActor(w.actors, w.items[i].holder)].location == x.location;
      assert CompanionHolds(w, x, w.items[i]);
    }
  }

  // ----------------------------------------------------------------- the flags

  /** The options of an actor who is in no fight. */
  predicate QuietFlags(w: World, x: Actor, options: set<Offer>) {
    var fightable := FightingAllowed(w, x.location) && Company(w, x);
    && OfferChat in options && OfferCheck in options
    && (OfferMove in options <==> WayOut(w, x))
    && (OfferAttack in options <==> fightable) && (OfferDefend in options <==> fightable)
    && (OfferFlee in options <==> fightable && WayOut(w, x))
    && (OfferPickUp in options <==> SomethingFits(w, x))
    && (OfferUseItem in options <==> SomethingUsable(w, x))
    && (OfferGiveItem in options <==> HasSomething(w, x) && Company(w, x))
    && (OfferDropItem in options <==> HasSomething(w, x) && !SomethingLies(w, x))
    && (OfferSearch in options <==> !SomethingLies(w, x) && SomethingHides(w))
    && (OfferCraft in options <==> HasSomething(w, x) && SomethingLies(w, x))
    && (OfferTradeItem in options <==> HasSomething(w, x) && SomethingToTradeFor(w, x))
  }

  /** The options of an able fighter: to attack and to defend on its turn, and to
      flee if there is a way out; nothing else. */
  predicate FightFlags(w: World, x: Actor, e: Encounter, options: set<Offer>) {
    var turn := x.id == if e.current < |e.participants| then e.participants[e.current].actor else 0;
    forall o :: o in options <==> turn && (o == OfferAttack || o == OfferDefend || (o == OfferFlee && WayOut(w, x)))
  }

  /** The encounter is active and the actor an able participant of it. */
  predicate AblyIn(w: World, e: Encounter, id: Id) {
    e.status == Ongoing && AbleAt(w, e, FindParticipant(e.participants, id))
  }

  /** Flags of one item option, from the tables. */
  lemma ItemFlagsMean(w: World, x: Actor)
    ensures var options := ItemOptions(w, x);
            && (OfferPickUp in options <==> SomethingFits(w, x))
            && (OfferUseItem in options <==> SomethingUsable(w, x))
            && (OfferGiveItem in options <==> HasSomething(w, x) && Company(w, x))
            && (OfferDropItem in options <==> HasSomething(w, x) && !SomethingLies(w, x))
            && (OfferSearch in options <==> !SomethingLies(w, x) && SomethingHides(w))
            && (OfferCraft in options <==> HasSomething(w, x) && SomethingLies(w, x))
            && (OfferTradeItem in options <==> HasSomething(w, x) && SomethingToTradeFor(w, x))
            && forall o :: o in options ==>
                 o in {OfferPickUp, OfferUseItem, OfferGiveItem, OfferDropItem, OfferSearch, OfferCraft, OfferTradeItem}
  {
    SurroundingsMean(w, x);
    FittingMeans(w, x);
    TradingPartnerMeans(w, x);
    hide SomethingToPickUp, SomethingFits, HasSomething, Holding, SomethingLies, SomethingHides, Company, SomethingToTradeFor,
         CompanionHolds, FindLoose, FindHidden, FindCompanion, AllowsCombat, FightingAllowed;
  }

  lemma CombatantFlagsMean(w: World, x: Actor)
    ensures var options, fightable := CombatantOptions(w, x), FightingAllowed(w, x.location) && Company(w, x);
            forall o :: o in options <==>
              fightable && (o == OfferAttack || o == OfferDefend || (o == OfferFlee && WayOut(w, x)))
  {
    SurroundingsMean(w, x);
    WayOutMeans(w, x);
    hide HasOpenExit, WayOut, Holding, HasSomething, SomethingLies, SomethingHides, Company, FindLoose, FindHidden, FindCompanion,
         AllowsCombat, FightingAllowed;
  }

  lemma QuietFlagsMean(w: World, x: Actor)
    ensures QuietFlags(w, x, {OfferChat, OfferCheck} + CombatantOptions(w, x)
                             + (if HasOpenExit(w, x) then {OfferMove} else {}) + ItemOptions(w, x))
  {
    ItemFlagsMean(w, x);
    CombatantFlagsMean(w, x);
    WayOutMeans(w, x);
    hide ItemOptions, CombatantOptions, HasOpenExit, WayOut, SomethingFits, SomethingUsable, HasSomething, SomethingLies,
         SomethingHides, Company, SomethingToTradeFor, FightingAllowed;
  }

  lemma FightFlagsMean(w: World, x: Actor, e: Encounter)
    ensures FightFlags(w, x, e, CombatOptions(w, e, x))
  {
    WayOutMeans(w, x);
    hide HasOpenExit, WayOut;
  }

  /** Main result: the exact offer. */
  lemma OffersMean(w: World, id: Id)
    ensures var i, offers := FindActor(w.actors, id), GetOffers(w, id);
            && (i == |w.actors| ==> offers == UnknownActor)
            && (i < |w.actors| && w.actors[i].status != Active ==> offers == Offering({}))
            && (ActiveActor(w, id) && (forall k :: 0 <= k < |w.encounters| ==> !AblyIn(w, w.encounters[k], id)) ==>
                  offers.Offering? && QuietFlags(w, w.actors[i], offers.options))
            && (ActiveActor(w, id) && (exists k :: 0 <= k < |w.encounters| && AblyIn(w, w.encounters[k], id)) ==>
                  offers.Offering?
                  && exists k :: 0 <= k < |w.encounters| && AblyIn(w, w.encounters[k], id)
                       && (forall j :: 0 <= j < k ==> !AblyIn(w, w.encounters[j], id))
                       && FightFlags(w, w.actors[i], w.encounters[k], offers.options))
  {
    forall e: Encounter ensures FightsAbly(w, e, id) <==> AblyIn(w, e, id) {
      FightingAblyMeans(w, e, id);
    }
    hide FightsAbly, AblyIn, QuietFlags, FightFlags, CombatOptions, CombatantOptions, ItemOptions, HasOpenExit, FirstIndex;
    if ActiveActor(w, id) {
      var x, k := GetActor(w, id), FindFight(w, id);
      QuietFlagsMean(w, x);
      if k < |w.encounters| {
        FightFlagsMean(w, x, w.encounters[k]);
      }
    }
  }

  lemma FightingAblyMeans(w: World, e: Encounter, id: Id)
    ensures FightsAbly(w, e, id) <==> AblyIn(w, e, id)
  {
    hide FirstIndex;
  }

  /** What is given, traded, drunk or cast outside a fight was on offer; the pre-check
      takes the holder zero for nobody, so a trade with an actor of that identifier is
      the exception. */
  lemma HandlingWasOffered(w: World, a: Action)
    requires forall k :: 0 <= k < |w.encounters| ==> !AblyIn(w, w.encounters[k], a.actor)
    ensures ApplyGive(w, a).status == Success ==> IsOffered(w, a.actor, OfferGiveItem)
    ensures ApplyTrade(w, a).status == Success ==> IsOffered(w, a.actor, OfferTradeItem) || a.target == 0
    ensures ApplyUseItem(w, a).status == Success || ApplyMagic(w, a).status == Success ==> IsOffered(w, a.actor, OfferUseItem)
  {
    GivingMeans(w, a);
    TradingMeans(w, a);
    UsingMeans(w, a);
    CastingMeans(w, a);
    OffersMean(w, a.actor);
    hide ApplyGive, ApplyTrade, ApplyUseItem, ApplyMagic, GetOffers, CanExchange, WayOut, SomethingFits, SomethingLies, SomethingHides,
         FightingAllowed, AblyIn, PlacedAs, PlacedTwiceAs, FirstIndex;
  }
}
