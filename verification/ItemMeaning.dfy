/**
  What the item rules do, told without their own helpers: who may pick up, drop,
  give, trade, find, use, cast, steal and rest, what becomes of each item, and
  whom a placement lets evolve.
 */
module ItemMeaning {
  import opened KernelTypes
  import opened Lookup
  import opened Carrying
  import opened GateRules
  import opened ItemRules
  import opened CombatMeaning

  /** What weighs and what carries: ten for an item without a weight, the capacity of
      an equipped container outside any other, and 150 for each point of strength. */
  lemma BurdenMeans(x: Item, actor: Actor)
    ensures WeightOf(x) == if x.weight == 0 then 10 else x.weight
    ensures CapacityOf(x)
         == if x.role == 5 && x.zone == Equipped && x.container == 0 then x.containerCapacity else 0
    ensures BaseCapacity(actor) == if actor.stats.strength <= 1 then 150 else 150 * actor.stats.strength
  {}

  // ---------------------------------------------------------------- evolution

  predicate RequirementIsMet(items: seq<Item>, r: Requirement) {
    var i := FindItem(items, r.item);
    && i < |items|
    && match r
       case InHand(_, actor) => items[i].holder == actor && items[i].location == 0
       case OnFloor(_, location) => items[i].holder == 0 && items[i].location == location
  }

  /** A track is complete when it asks for something and all it asks for is in place. */
  predicate Complete(items: seq<Item>, t: Track) {
    |t.requirements| > 0 && forall k :: 0 <= k < |t.requirements| ==> RequirementIsMet(items, t.requirements[k])
  }

  /** Some track from index `n` on is complete and is the track of the actor at `i`. */
  predicate Due(w: World, n: nat, i: nat) {
    exists k :: n <= k < |w.tracks| && FindActor(w.actors, w.tracks[k].actor) == i && Complete(w.items, w.tracks[k])
  }

  /** An active actor not evolved yet, whose track is complete, rises to level two
      and gains two hit points; everybody else is as before. */
  predicate EvolvedFrom(w: World, n: nat, after: seq<Actor>) {
    && |after| == |w.actors|
    && forall i :: 0 <= i < |w.actors| ==>
         var x := w.actors[i];
         after[i] == if x.status == Active && x.stats.level < 2 && Due(w, n, i)
                     then x.(stats := x.stats.(level := 2, hpBase := ToI16(x.stats.hpBase + 2))) else x
  }

  lemma ReadyMeans(w: World, t: Track)
    ensures ReadyToEvolve(w, t) <==>
              var i := FindActor(w.actors, t.actor);
              i < |w.actors| && w.actors[i].status == Active && w.actors[i].stats.level < 2 && Complete(w.items, t)
  {
    hide FirstIndex;
    forall r: Requirement ensures RequirementMet(w, r) <==> RequirementIsMet(w.items, r) {}
    hide RequirementMet, RequirementIsMet;
  }

  lemma DueSplits(w: World, n: nat, i: nat)
    requires n < |w.tracks|
    ensures Due(w, n, i) <==>
              (FindActor(w.actors, w.tracks[n].actor) == i && Complete(w.items, w.tracks[n])) || Due(w, n + 1, i)
  {
    hide Complete, FirstIndex;
  }

  lemma DueStays(w: World, v: World, n: nat)
    requires v == w.(actors := v.actors) && forall id :: FindActor(v.actors, id) == FindActor(w.actors, id)
    ensures forall i: nat :: Due(v, n, i) <==> Due(w, n, i)
  {
    hide Complete, FirstIndex;
  }

  /** Main result: whom the pass over the tracks evolves. */
  lemma {:induction false} EvolvingMeans(w: World, n: nat)
    requires n <= |w.tracks|
    ensures Evolve(w, n).world == w.(actors := Evolve(w, n).world.actors)
    ensures EvolvedFrom(w, n, Evolve(w, n).world.actors)
    decreases |w.tracks| - n
  {
    hide FirstIndex, Due, Complete, ToI16;
    if n == |w.tracks| {
      forall i ensures !Due(w, n, i) { NothingIsDue(w, n, i); }
    } else {
      forall i: nat ensures Due(w, n, i) <==>
          (FindActor(w.actors, w.tracks[n].actor) == i && Complete(w.items, w.tracks[n])) || Due(w, n + 1, i)
      {
        DueSplits(w, n, i);
      }
      ReadyMeans(w, w.tracks[n]);
      if ReadyToEvolve(w, w.tracks[n]) {
        var v := PutActor(w, Evolved(GetActor(w, w.tracks[n].actor)));
        EvolvingMeans(v, n + 1);
        DueStays(w, v, n + 1);
      } else {
        EvolvingMeans(w, n + 1);
      }
      hide ReadyToEvolve;
    }
  }

  lemma NothingIsDue(w: World, n: nat, i: nat)
    requires n == |w.tracks|
    ensures !Due(w, n, i)
  {}

  /** And the pass tells of exactly those it evolves. */
  lemma {:induction false} EvolvingIsTold(w: World, n: nat, i: nat)
    requires n <= |w.tracks| && i < |w.actors| && FindActor(w.actors, w.actors[i].id) == i
    ensures AvatarEvolved(w.actors[i].id) in Evolve(w, n).events
       <==> w.actors[i].status == Active && w.actors[i].stats.level < 2 && Due(w, n, i)
    decreases |w.tracks| - n
  {
    hide FirstIndex, Due, Complete, ToI16;
    if n == |w.tracks| {
      NothingIsDue(w, n, i);
    } else {
      DueSplits(w, n, i);
      ReadyMeans(w, w.tracks[n]);
      if ReadyToEvolve(w, w.tracks[n]) {
        var v := PutActor(w, Evolved(GetActor(w, w.tracks[n].actor)));
        EvolvingIsTold(v, n + 1, i);
        DueStays(w, v, n + 1);
      } else {
        EvolvingIsTold(w, n + 1, i);
      }
      hide ReadyToEvolve;
    }
  }

  // ------------------------------------------------------------ moving an item

  /** The item in the actor's hand since this tick. */
  function Taken(x: Item, id: Id, tick: nat): Item {
    Item(x.id, x.kind, x.charges, x.maxCharges, x.weight, x.containerCapacity, x.sizeClass, x.role, Carried, x.flags,
         x.restRecovery, x.recoveryZone, 0, id, 0, tick)
  }

  /** The item loose on the floor of a place. */
  function Laid(x: Item, place: Id): Item {
    Item(x.id, x.kind, x.charges, x.maxCharges, x.weight, x.containerCapacity, x.sizeClass, x.role, WorldZone, x.flags,
         x.restRecovery, x.recoveryZone, place, 0, 0, 0)
  }

  /** The outcome of a placement: the items as given, then evolution, then its events. */
  predicate PlacedAs(w: World, o: Outcome, items: seq<Item>, events: seq<EventKind>) {
    var e := Evolve(w.(items := items), 0);
    o == Outcome(Success, e.world, events + e.events)
  }

  /** The same with a second pass over the tracks. */
  predicate PlacedTwiceAs(w: World, o: Outcome, items: seq<Item>, events: seq<EventKind>) {
    var e := Evolve(w.(items := items), 0);
    var f := Evolve(e.world, 0);
    o == Outcome(Success, f.world, events + e.events + f.events)
  }

  /** The item named is in the table and with this holder. */
  predicate HeldBy(w: World, item: Id, holder: Id) {
    var i := FindItem(w.items, item);
    i < |w.items| && w.items[i].holder == holder
  }

  /** Loose where the actor stands. */
  predicate LooseHere(w: World, a: Action)
    requires ActiveActor(w, a.actor)
  {
    var i := FindItem(w.items, a.item);
    && i < |w.items| && w.items[i].holder == 0 && w.items[i].zone == WorldZone
    && w.items[i].location == w.actors[FindActor(w.actors, a.actor)].location
  }

  /** Main result: picking up.  The item must lie loose here and fit, on its own or
      in exchange for the held item named; it is then in hand, and the other one, if
      it was needed, lies here. */
  lemma PickingUpMeans(w: World, a: Action)
    ensures var o, i, j := ApplyPickUp(w, a), FindItem(w.items, a.item), FindItem(w.items, a.targetItem);
            var k := FindActor(w.actors, a.actor);
            && (o.status == Success <==>
                  && ActiveActor(w, a.actor) && LooseHere(w, a)
                  && (|| CanExchange(w, w.actors[k], |w.items|, i)
                      || (a.targetItem != 0 && HeldBy(w, a.targetItem, a.actor) && CanExchange(w, w.actors[k], j, i))))
            && (o.status == Success && a.actor != 0 ==>
                  if CanExchange(w, w.actors[k], |w.items|, i)
                  then PlacedAs(w, o, w.items[i := Taken(w.items[i], a.actor, w.tick)], [ItemPickedUp])
                  else PlacedAs(w, o, w.items[j := Laid(w.items[j], w.actors[k].location)]
                                             [i := Taken(w.items[i], a.actor, w.tick)], [ItemDropped, ItemPickedUp]))
  {
    hide CanExchange, Evolve, FirstIndex;
  }

  /** Dropping: the item must be held, and what stays behind must still be borne; it
      then lies here. */
  lemma DroppingMeans(w: World, a: Action)
    ensures var o, i, k := ApplyDrop(w, a), FindItem(w.items, a.item), FindActor(w.actors, a.actor);
            && (o.status == Success <==>
                  && ActiveActor(w, a.actor) && HeldBy(w, a.item, a.actor) && CanExchange(w, w.actors[k], i, |w.items|))
            && (o.status == Success ==>
                  PlacedAs(w, o, w.items[i := Laid(w.items[i], w.actors[k].location)], [ItemDropped]))
  {
    hide CanExchange, Evolve, FirstIndex;
  }

  /** Two different active actors at one place. */
  predicate Meet(w: World, a: Action) {
    && ActiveActor(w, a.actor) && ActiveActor(w, a.target) && a.actor != a.target
    && w.actors[FindActor(w.actors, a.actor)].location == w.actors[FindActor(w.actors, a.target)].location
  }

  /** Giving, with or without something in return: each party holds what it gives up
      and can bear the exchange; the items then change hands. */
  lemma GivingMeans(w: World, a: Action)
    ensures var o, i := ApplyGive(w, a), FindItem(w.items, a.item);
            var j := if a.targetItem == 0 then |w.items| else FindItem(w.items, a.targetItem);
            && (o.status == Success <==>
                  && Meet(w, a) && HeldBy(w, a.item, a.actor) && (a.targetItem != 0 ==> HeldBy(w, a.targetItem, a.target))
                  && CanExchange(w, w.actors[FindActor(w.actors, a.actor)], i, j)
                  && CanExchange(w, w.actors[FindActor(w.actors, a.target)], j, i))
            && (o.status == Success ==>
                  var given := w.items[i := Taken(w.items[i], a.target, w.tick)];
                  PlacedAs(w, o, if a.targetItem == 0 then given else given[j := Taken(w.items[j], a.actor, w.tick)], [ItemGiven]))
  {
    hide CanExchange, Evolve, FirstIndex;
  }

  /** Trading: two different items, each held by its own party, change hands. */
  lemma TradingMeans(w: World, a: Action)
    ensures var o, i, j := ApplyTrade(w, a), FindItem(w.items, a.item), FindItem(w.items, a.targetItem);
            && (o.status == Success <==>
                  && a.item != 0 && a.targetItem != 0 && a.item != a.targetItem && Meet(w, a)
                  && HeldBy(w, a.item, a.actor) && HeldBy(w, a.targetItem, a.target)
                  && CanExchange(w, w.actors[FindActor(w.actors, a.actor)], i, j)
                  && CanExchange(w, w.actors[FindActor(w.actors, a.target)], j, i))
            && (o.status == Success ==>
                  PlacedTwiceAs(w, o, w.items[i := Taken(w.items[i], a.target, w.tick)][j := Taken(w.items[j], a.actor, w.tick)],
                                [ItemTraded]))
  {
    hide CanExchange, Evolve, FirstIndex;
  }

  /** Nowhere and with nobody, but with charges: what a search can find. */
  predicate Hidden(w: World, item: Id) {
    var i := FindItem(w.items, item);
    i < |w.items| && w.items[i].holder == 0 && w.items[i].location == 0 && w.items[i].charges != 0
  }

  /** Searching finds a hidden item where the actor stands, a place that exists. */
  lemma SearchingMeans(w: World, a: Action)
    ensures var o, i, k := ApplySearch(w, a), FindItem(w.items, a.item), FindActor(w.actors, a.actor);
            && (o.status == Success <==>
                  && ActiveActor(w, a.actor) && (a.location == 0 || a.location == w.actors[k].location)
                  && FindLocation(w.locations, w.actors[k].location) < |w.locations| && Hidden(w, a.item))
            && (o.status == Success ==>
                  PlacedAs(w, o, w.items[i := Laid(w.items[i], w.actors[k].location)], [ItemFound]))
  {
    hide Evolve, FirstIndex;
  }

  /** Revealing lays a hidden item at a place where nothing lies loose, for anybody. */
  lemma RevealingMeans(w: World, a: Action)
    ensures var o, i := ApplyReveal(w, a), FindItem(w.items, a.item);
            && (o.status == Success <==>
                  && FindLocation(w.locations, a.location) < |w.locations| && Hidden(w, a.item)
                  && forall j :: 0 <= j < |w.items| ==>
                       !(w.items[j].holder == 0 && w.items[j].location == a.location && w.items[j].zone == WorldZone))
            && (o.status == Success ==>
                  o == Outcome(Success, w.(items := w.items[i := Laid(w.items[i], a.location)]), [ItemRevealed]))
  {
    hide FirstIndex;
  }

  // ------------------------------------------------------------- using an item

  /** One charge fewer; the last one exhausts the item, which remembers its zone. */
  function Spent(x: Item): Item
    requires x.charges > 0
  {
    if x.charges > 1 then x.(charges := x.charges - 1)
    else x.(charges := 0, zone := Exhausted,
            recoveryZone := if x.zone == NoZone || x.zone == Exhausted then x.recoveryZone else x.zone)
  }

  /** Ten points of damage fewer, none below zero; somebody knocked out who then has
      hit points stands up. */
  function Treated(x: Actor): Actor {
    var better := x.(damage := if x.damage <= 10 then 0 else x.damage - 10);
    if x.status == KnockedOut && HitPointsLeft(better) > 0
    then better.(status := Active, conditions := better.conditions.(unconscious := false)) else better
  }

  /** The held item named has a charge left. */
  predicate Charged(w: World, a: Action) {
    HeldBy(w, a.item, a.actor) && w.items[FindItem(w.items, a.item)].charges > 0
  }

  /** Whom an action is meant for: its own actor if it names nobody. */
  function MeantFor(w: World, a: Action): nat {
    FindActor(w.actors, if a.target == 0 then a.actor else a.target)
  }

  /** Main result: a charged potion in hand heals somebody here who is hurt or not
      active, and loses the charge. */
  lemma UsingMeans(w: World, a: Action)
    ensures var o, i, k, t := ApplyUseItem(w, a), FindItem(w.items, a.item), FindActor(w.actors, a.actor), MeantFor(w, a);
            && (o.status == Success <==>
                  && ActiveActor(w, a.actor) && Charged(w, a) && w.items[i].kind == 1
                  && t < |w.actors| && w.actors[t].location == w.actors[k].location
                  && (w.actors[t].status != Active || w.actors[t].damage > 0))
            && (o.status == Success ==>
                  o == Outcome(Success, w.(actors := w.actors[t := Treated(w.actors[t])],
                                           items := w.items[i := Spent(w.items[i])]), [ItemUsed]))
  {
    hide ToI16, FirstIndex;
  }

  /** Utilising needs a charged item in hand and changes nothing. */
  lemma UtilisingMeans(w: World, a: Action)
    ensures var o := ApplyUtilize(w, a);
            && (o.status == Success <==> ActiveActor(w, a.actor) && Charged(w, a))
            && (o.status == Success ==> o == Outcome(Success, w, [ItemUsed]))
  {
    hide FirstIndex;
  }

  /** A spell must be charged and in the deck, and aimed at somebody active here; it
      loses a charge. */
  lemma CastingMeans(w: World, a: Action)
    ensures var o, i, k, t := ApplyMagic(w, a), FindItem(w.items, a.item), FindActor(w.actors, a.actor), MeantFor(w, a);
            && (o.status == Success <==>
                  && ActiveActor(w, a.actor) && Charged(w, a) && w.items[i].role == 4 && w.items[i].zone == SpellDeck
                  && t < |w.actors| && w.actors[t].status == Active && w.actors[t].location == w.actors[k].location)
            && (o.status == Success ==> o == Outcome(Success, w.(items := w.items[i := Spent(w.items[i])]), [SpellCast]))
  {
    hide FirstIndex;
  }

  /** A theft is tried on somebody active here who holds the item, not in escrow,
      when the thief could bear it; it succeeds when a die and dexterity reach the
      difficulty, twelve if none is given. */
  lemma StealingMeans(w: World, a: Action, seed: Seed)
    ensures var o, i, k := ApplyTheft(w, a, seed), FindItem(w.items, a.item), FindActor(w.actors, a.actor);
            && (o.status == Success <==>
                  && Meet(w, a) && HeldBy(w, a.item, a.target) && w.items[i].zone != Escrow
                  && CanExchange(w, w.actors[k], |w.items|, i))
            && (o.status == Success ==>
                  if ToI16(if a.dc == 0 then 12 else a.dc)
                     <= ToI16(RollD20(seed, 1, 0) + AbilityModifier(w.actors[k].stats.dexterity))
                  then o == Outcome(Success, w.(items := w.items[i := Taken(w.items[i], a.actor, w.tick)]),
                                    [TheftAttempt, ItemStolen])
                  else o == Outcome(Success, w, [TheftAttempt]))
  {
    hide CanExchange, ToI16, RollD20, AbilityModifier, FirstIndex;
  }
}
