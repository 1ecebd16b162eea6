/**
  Carrying capacity.  Picking up, with or without an exchange, and dropping
  always leave the actor within capacity.  After giving, trading and stealing a
  party is within capacity exactly when it had room without the capacity of what
  it received and of what it lost: the check credits an equipped container that
  the transfer then unequips, and a theft does not check its victim at all.
 */
module CapacityLaws {
  import opened KernelTypes
  import opened Lookup
  import opened Carrying
  import opened ItemRules
  import opened Effects

  function Load(items: seq<Item>, actor: Id): int {
    HeldWeight(items, actor, |items|) - HeldCapacity(items, actor, |items|)
  }

  function Share(item: Item, actor: Id): int {
    Contribution(item, actor) - CapacityContribution(item, actor)
  }

  lemma WithinMeansLoad(w: World, id: Id)
    requires Known(w, id)
    ensures WithinCapacity(w, id) <==> Load(w.items, id) <= BaseCapacity(GetActor(w, id))
  {}

  /** Rewriting a found item changes a load by the change of that item's share. */
  lemma PutChangesLoad(w: World, x: Item, actor: Id)
    requires HasItem(w, x.id)
    ensures Load(PutItem(w, x).items, actor)
         == Load(w.items, actor) - Share(GetItem(w, x.id), actor) + Share(x, actor)
  {
    ReplaceChangesShare(w.items, FindItem(w.items, x.id), x, actor, |w.items|, |w.items|);
  }

  /** The transfer check, in terms of loads and shares. */
  lemma ExchangeMeansLoad(w: World, actor: Actor, removed: nat, added: nat)
    ensures CanExchange(w, actor, removed, added) <==>
              Load(w.items, actor.id)
              - (if removed < |w.items| then Share(w.items[removed], actor.id) else 0)
              + (if added < |w.items| && added != removed
                 then WeightOf(w.items[added]) - CapacityOf(w.items[added]) else 0)
              <= BaseCapacity(actor)
  {
    SkipRemovesShare(w.items, removed, actor.id, |w.items|, |w.items|);
  }

  lemma PlacementKeepsBase(w: World, events: seq<EventKind>, id: Id)
    requires Known(w, id)
    ensures var r := Placed(w, events).world;
            Known(r, id) && r.items == w.items && BaseCapacity(GetActor(r, id)) == BaseCapacity(GetActor(w, id))
    ensures var r := PlacedTwice(w, events).world;
            Known(r, id) && r.items == w.items && BaseCapacity(GetActor(r, id)) == BaseCapacity(GetActor(w, id))
  {
    PlacementIsSteady(w, events);
    ActorPrefix(w.actors, Placed(w, events).world.actors, id);
    ActorPrefix(w.actors, PlacedTwice(w, events).world.actors, id);
    hide Placed;
    hide PlacedTwice;
  }

  // -------------------------------------------------------- pick up and drop

  lemma CommitPickUpLoad(w: World, a: Action, id: Id)
    requires Known(w, a.actor) && PickUpRefusal(w, a) == NoReason && id != 0
    ensures Load(CommitPickUp(w, a).items, id)
         == Load(w.items, id)
            + (if id == a.actor then WeightOf(GetItem(w, a.item)) else 0)
            - (if NeedsExchange(w, a) then Share(GetItem(w, a.targetItem), id) else 0)
            - Share(GetItem(w, a.item), id)
  {
    var dropped := DropForExchange(w, a);
    if NeedsExchange(w, a) {
      PutChangesLoad(w, OnFloorAt(GetItem(w, a.targetItem), GetActor(w, a.actor).location), id);
    }
    hide CanExchange;
    PutChangesLoad(dropped, InHandOf(GetItem(dropped, a.item), a.actor, w.tick), id);
    hide PutItem;
    hide HeldWeight;
    hide HeldCapacity;
  }

  /** After a pickup the actor is within capacity, whatever it carried before,
      and nobody else carries more. */
  lemma PickUpFits(w: World, a: Action, id: Id)
    requires ApplyPickUp(w, a).status == Success && a.actor != 0 && id != 0
    requires Known(w, id) && (id == a.actor || WithinCapacity(w, id))
    ensures Known(ApplyPickUp(w, a).world, id) && WithinCapacity(ApplyPickUp(w, a).world, id)
  {
    assert IsActive(w, a.actor) && PickUpRefusal(w, a) == NoReason;
    var actor := GetActor(w, a.actor);
    var none, i := |w.items|, FindItem(w.items, a.item);
    var r := CommitPickUp(w, a);
    CommitPickUpLoad(w, a, id);
    ExchangeMeansLoad(w, actor, none, i);
    if NeedsExchange(w, a) {
      ExchangeMeansLoad(w, actor, FindItem(w.items, a.targetItem), i);
    }
    hide CanExchange;
    WithinMeansLoad(w, id);
    PlacementKeepsBase(r, if NeedsExchange(w, a) then [ItemDropped, ItemPickedUp] else [ItemPickedUp], id);
    WithinMeansLoad(ApplyPickUp(w, a).world, id);
    hide Placed;
    hide HeldWeight;
    hide HeldCapacity;
    hide CommitPickUp;
    hide WithinCapacity;
  }

  lemma DropFits(w: World, a: Action, id: Id)
    requires ApplyDrop(w, a).status == Success && a.actor != 0 && id != 0
    requires Known(w, id) && (id == a.actor || WithinCapacity(w, id))
    ensures Known(ApplyDrop(w, a).world, id) && WithinCapacity(ApplyDrop(w, a).world, id)
  {
    assert IsActive(w, a.actor) && DropRefusal(w, a) == NoReason;
    var actor := GetActor(w, a.actor);
    var r := CommitDrop(w, a);
    PutChangesLoad(w, OnFloorAt(GetItem(w, a.item), actor.location), id);
    ExchangeMeansLoad(w, actor, FindItem(w.items, a.item), |w.items|);
    hide CanExchange;
    WithinMeansLoad(w, id);
    PlacementKeepsBase(r, [ItemDropped], id);
    WithinMeansLoad(ApplyDrop(w, a).world, id);
    hide Placed;
    hide HeldWeight;
    hide HeldCapacity;
    hide WithinCapacity;
  }

  // ------------------------------------------------- give, trade and theft

  /** The transfer check without credit for the received item's own capacity. */
  predicate HasRoomFor(w: World, actor: Actor, removed: nat, added: nat) {
    HeldWeight(w.items, actor.id, removed) + (if added < |w.items| then WeightOf(w.items[added]) else 0)
    <= BaseCapacity(actor) + HeldCapacity(w.items, actor.id, removed)
  }

  lemma RoomMeansLoad(w: World, actor: Actor, removed: nat, added: nat)
    ensures HasRoomFor(w, actor, removed, added) <==>
              Load(w.items, actor.id)
              - (if removed < |w.items| then Share(w.items[removed], actor.id) else 0)
              + (if added < |w.items| then WeightOf(w.items[added]) else 0)
              <= BaseCapacity(actor)
  {
    SkipRemovesShare(w.items, removed, actor.id, |w.items|, |w.items|);
  }

  /** The index of an item named by an optional identifier. */
  function IndexOf(w: World, id: Id): nat {
    if id != 0 then FindItem(w.items, id) else |w.items|
  }

  lemma ExchangeLoad(w: World, item: Id, receiver: Id, back: Id, giver: Id, id: Id)
    requires HasItem(w, item) && (back != 0 ==> HasItem(w, back) && back != item) && id != 0
    ensures Load(Exchange(w, item, receiver, back, giver).items, id)
         == Load(w.items, id) - Share(GetItem(w, item), id)
            + (if id == receiver then WeightOf(GetItem(w, item)) else 0)
            - (if back != 0 then Share(GetItem(w, back), id) else 0)
            + (if back != 0 && id == giver then WeightOf(GetItem(w, back)) else 0)
  {
    var one := PutItem(w, InHandOf(GetItem(w, item), receiver, w.tick));
    PutChangesLoad(w, InHandOf(GetItem(w, item), receiver, w.tick), id);
    if back != 0 {
      PutChangesLoad(one, InHandOf(GetItem(one, back), giver, w.tick), id);
    }
    hide PutItem;
    hide HeldWeight;
    hide HeldCapacity;
  }

  /** Both parties of a completed exchange, against the caller's own check. */
  lemma ExchangeFitsIff(w: World, item: Id, receiver: Id, back: Id, giver: Id, events: seq<EventKind>, r: World, id: Id)
    requires HasItem(w, item) && GetItem(w, item).holder == giver
    requires back != 0 ==> HasItem(w, back) && GetItem(w, back).holder == receiver
    requires giver != receiver && giver != 0 && receiver != 0 && id != 0 && Known(w, id)
    requires r == Placed(Exchange(w, item, receiver, back, giver), events).world
          || r == PlacedTwice(Exchange(w, item, receiver, back, giver), events).world
    ensures Known(r, id)
    ensures WithinCapacity(r, id) <==>
              if id == giver then HasRoomFor(w, GetActor(w, id), FindItem(w.items, item), IndexOf(w, back))
              else if id == receiver then HasRoomFor(w, GetActor(w, id), IndexOf(w, back), FindItem(w.items, item))
              else WithinCapacity(w, id)
  {
    ExchangeLoad(w, item, receiver, back, giver, id);
    RoomMeansLoad(w, GetActor(w, id), FindItem(w.items, item), IndexOf(w, back));
    RoomMeansLoad(w, GetActor(w, id), IndexOf(w, back), FindItem(w.items, item));
    PlacementKeepsBase(Exchange(w, item, receiver, back, giver), events, id);
    WithinMeansLoad(w, id);
    WithinMeansLoad(r, id);
    hide Exchange;
    hide Placed;
    hide PlacedTwice;
    hide HeldWeight;
    hide HeldCapacity;
    hide HasRoomFor;
    hide WithinCapacity;
  }

  /** A completed gift leaves each party within capacity exactly when that party
      had room for what it received, and leaves everybody else as they were. */
  lemma GiveFitsIff(w: World, a: Action, id: Id)
    requires ApplyGive(w, a).status == Success && a.actor != 0 && a.target != 0 && id != 0 && Known(w, id)
    ensures var r := ApplyGive(w, a).world;
            && Known(r, id)
            && (WithinCapacity(r, id) <==>
                  if id == a.actor then HasRoomFor(w, GetActor(w, id), FindItem(w.items, a.item), IndexOf(w, a.targetItem))
                  else if id == a.target then
                    HasRoomFor(w, GetActor(w, id), IndexOf(w, a.targetItem), FindItem(w.items, a.item))
                  else WithinCapacity(w, id))
  {
    assert IsActive(w, a.actor) && GiveRefusal(w, a) == NoReason;
    hide CanExchange;
    hide WithinCapacity;
    hide HasRoomFor;
    ExchangeFitsIff(w, a.item, a.target, a.targetItem, a.actor, [ItemGiven], ApplyGive(w, a).world, id);
    hide Placed;
    hide Exchange;
  }

  lemma TradeFitsIff(w: World, a: Action, id: Id)
    requires ApplyTrade(w, a).status == Success && a.actor != 0 && a.target != 0 && id != 0 && Known(w, id)
    ensures var r := ApplyTrade(w, a).world;
            var offered, requested := FindItem(w.items, a.item), FindItem(w.items, a.targetItem);
            && Known(r, id)
            && (WithinCapacity(r, id) <==>
                  if id == a.actor then HasRoomFor(w, GetActor(w, id), offered, requested)
                  else if id == a.target then HasRoomFor(w, GetActor(w, id), requested, offered)
                  else WithinCapacity(w, id))
  {
    assert IsActive(w, a.actor) && TradeRefusal(w, a) == NoReason;
    hide CanExchange;
    hide WithinCapacity;
    hide HasRoomFor;
    ExchangeFitsIff(w, a.item, a.target, a.targetItem, a.actor, [ItemTraded], ApplyTrade(w, a).world, id);
    hide PlacedTwice;
    hide Exchange;
  }

  /** After a theft the thief is within capacity exactly when it had room for what
      it took, the victim exactly when it had room without what it lost, and
      everybody else as before; an attempt that fails its roll moves nothing. */
  lemma TheftFitsIff(w: World, a: Action, seed: Seed, id: Id)
    requires ApplyTheft(w, a, seed).status == Success && a.actor != 0 && a.target != 0 && id != 0 && Known(w, id)
    ensures var r := ApplyTheft(w, a, seed).world;
            && Known(r, id)
            && (WithinCapacity(r, id) <==>
                  if !TheftSucceeds(GetActor(w, a.actor), a, seed) then WithinCapacity(w, id)
                  else if id == a.actor then HasRoomFor(w, GetActor(w, id), |w.items|, FindItem(w.items, a.item))
                  else if id == a.target then HasRoomFor(w, GetActor(w, id), FindItem(w.items, a.item), |w.items|)
                  else WithinCapacity(w, id))
  {
    assert IsActive(w, a.actor) && TheftRefusal(w, a) == NoReason;
    hide CanExchange;
    PutChangesLoad(w, InHandOf(GetItem(w, a.item), a.actor, w.tick), id);
    RoomMeansLoad(w, GetActor(w, id), |w.items|, FindItem(w.items, a.item));
    RoomMeansLoad(w, GetActor(w, id), FindItem(w.items, a.item), |w.items|);
    WithinMeansLoad(w, id);
    WithinMeansLoad(ApplyTheft(w, a, seed).world, id);
    hide HeldWeight, HeldCapacity, HasRoomFor, WithinCapacity, TheftSucceeds;
  }

  /** When nothing received is an equipped container, the kernel's own check is
      that condition, so the transfer keeps both parties within capacity. */
  lemma CheckSufficesWithoutContainers(w: World, actor: Actor, removed: nat, added: nat)
    requires CanExchange(w, actor, removed, added) && added != removed
    requires added < |w.items| ==> CapacityOf(w.items[added]) == 0
    ensures HasRoomFor(w, actor, removed, added)
  {}

  // -------------------------------------------------------- counterexamples

  function Bearer(id: Id): Actor {
    Actor(id, Human, Active, 1, Stats(1, 10, 10, 10, 10, 10, 10, 1), 0, NO_CONDITIONS)
  }

  /** An equipped container of weight 200 that carries 200, held by actor 1. */
  const CHEST := Item(9, 3, 1, 1, 200, 200, SIZE_LARGE, ROLE_CONTAINER, Equipped, 0, false, NoZone, 0, 1, 0, 0)

  const GIFT_WORLD := World(1, [Bearer(1), Bearer(2)], [CHEST], [Location(1, false)], [], [], [], 1,
                            [], [], [], [], [])

  lemma LoneItem(items: seq<Item>, actor: Id, skip: nat)
    requires |items| == 1
    ensures HeldWeight(items, actor, skip) == if skip != 0 then Contribution(items[0], actor) else 0
    ensures HeldCapacity(items, actor, skip) == if skip != 0 then CapacityContribution(items[0], actor) else 0
  {
    assert WeightUpTo(items, actor, skip, 0) == 0 && CapacityUpTo(items, actor, skip, 0) == 0;
    assert WeightUpTo(items, actor, skip, 1) == HeldWeight(items, actor, skip);
    assert CapacityUpTo(items, actor, skip, 1) == HeldCapacity(items, actor, skip);
  }

  /** The gift is accepted, both were within capacity, and the receiver is not. */
  lemma GiftOfAnEquippedContainerOverloads()
    ensures var a := PlainAction(GiveItem, 1).(target := 2, item := 9);
            var r := ApplyGive(GIFT_WORLD, a).world;
            && ApplyGive(GIFT_WORLD, a).status == Success
            && Known(GIFT_WORLD, 2) && WithinCapacity(GIFT_WORLD, 2)
            && Known(r, 2) && !WithinCapacity(r, 2)
  {
    var w, a := GIFT_WORLD, PlainAction(GiveItem, 1).(target := 2, item := 9);
    assert w.actors[0].id == 1 && w.actors[1].id == 2 && w.items[0].id == 9;
    assert FindActor(w.actors, 1) == 0 && FindActor(w.actors, 2) == 1 && FindItem(w.items, 9) == 0;
    LoneItem(w.items, 1, 0);
    LoneItem(w.items, 2, 0);
    LoneItem(w.items, 2, 1);
    assert GiveRefusal(w, a) == NoReason;
    GiveFitsIff(w, a, 2);
    hide ApplyGive;
    assert !HasRoomFor(w, GetActor(w, 2), IndexOf(w, 0), 0);
  }

  lemma PairOfItems(items: seq<Item>, actor: Id, skip: nat)
    requires |items| == 2
    ensures HeldWeight(items, actor, skip)
         == (if skip != 0 then Contribution(items[0], actor) else 0) + (if skip != 1 then Contribution(items[1], actor) else 0)
    ensures HeldCapacity(items, actor, skip)
         == (if skip != 0 then CapacityContribution(items[0], actor) else 0)
            + (if skip != 1 then CapacityContribution(items[1], actor) else 0)
  {
    assert WeightUpTo(items, actor, skip, 0) == 0 && CapacityUpTo(items, actor, skip, 0) == 0;
    assert WeightUpTo(items, actor, skip, 2) == HeldWeight(items, actor, skip);
    assert CapacityUpTo(items, actor, skip, 2) == HeldCapacity(items, actor, skip);
  }

  const TRINKET := CHEST.(id := 8, weight := 1, containerCapacity := 0, role := ROLE_GENERIC, zone := Carried, holder := 2)

  const TRADE_WORLD := GIFT_WORLD.(items := [CHEST, TRINKET])

  /** The chest for a trinket: the trade is accepted, and overloads whoever gets the chest. */
  lemma TradeOfAnEquippedContainerOverloads()
    ensures var a := PlainAction(TradeItem, 1).(target := 2, item := 9, targetItem := 8);
            var r := ApplyTrade(TRADE_WORLD, a).world;
            && ApplyTrade(TRADE_WORLD, a).status == Success
            && Known(TRADE_WORLD, 2) && WithinCapacity(TRADE_WORLD, 2)
            && Known(r, 2) && !WithinCapacity(r, 2)
  {
    var w, a := TRADE_WORLD, PlainAction(TradeItem, 1).(target := 2, item := 9, targetItem := 8);
    assert w.actors[0].id == 1 && w.actors[1].id == 2 && w.items[0].id == 9 && w.items[1].id == 8;
    assert FindActor(w.actors, 1) == 0 && FindActor(w.actors, 2) == 1;
    assert FindItem(w.items, 9) == 0 && FindItem(w.items, 8) == 1;
    PairOfItems(w.items, 1, 0);
    PairOfItems(w.items, 2, 1);
    PairOfItems(w.items, 2, 2);
    hide HeldWeight, HeldCapacity;
    assert TradeRefusal(w, a) == NoReason;
    TradeFitsIff(w, a, 2);
    hide ApplyTrade;
    assert !HasRoomFor(w, GetActor(w, 2), 1, 0);
  }

  /** A light equipped container that carries 200, and the load it makes bearable. */
  const PACK := CHEST.(weight := 10, holder := 2)
  const LOAD := TRINKET.(weight := 300)

  const THEFT_WORLD := GIFT_WORLD.(items := [PACK, LOAD])

  /** Stealing the container overloads its victim, whom nothing checks; the thief
      stays within capacity. */
  lemma TheftOfAnEquippedContainerOverloadsTheVictim()
    ensures var a := PlainAction(Theft, 1).(target := 2, item := 9);
            var o := ApplyTheft(THEFT_WORLD, a, Seed((_, _) => 19, (_, _) => 0));
            && o.status == Success
            && Known(THEFT_WORLD, 2) && WithinCapacity(THEFT_WORLD, 2)
            && Known(o.world, 1) && WithinCapacity(o.world, 1) && Known(o.world, 2) && !WithinCapacity(o.world, 2)
  {
    var w, a, seed := THEFT_WORLD, PlainAction(Theft, 1).(target := 2, item := 9), Seed((_, _) => 19, (_, _) => 0);
    assert w.actors[0].id == 1 && w.actors[1].id == 2 && w.items[0].id == 9;
    assert FindActor(w.actors, 1) == 0 && FindActor(w.actors, 2) == 1 && FindItem(w.items, 9) == 0;
    PairOfItems(w.items, 1, 2);
    PairOfItems(w.items, 2, 0);
    PairOfItems(w.items, 2, 2);
    hide HeldWeight, HeldCapacity;
    assert TheftRefusal(w, a) == NoReason && TheftSucceeds(GetActor(w, 1), a, seed);
    TheftFitsIff(w, a, seed, 1);
    TheftFitsIff(w, a, seed, 2);
    hide ApplyTheft;
    assert HasRoomFor(w, GetActor(w, 1), 2, 0) && !HasRoomFor(w, GetActor(w, 2), 0, 2);
  }
}
