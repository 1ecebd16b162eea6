/**
  Loads over every kind of call.  Each call changes what an actor bears by an
  amount that can be told beforehand, and an actor is within capacity afterwards
  exactly when it can bear that change.  Nothing checks an actor whose equipped
  container is stolen, consumed, exhausted or installed in a gate; and only calls
  that name an equipped container can push anybody over capacity.
 */
module LoadLaws {
  import opened KernelTypes
  import opened Lookup
  import opened Carrying
  import opened GateRules
  import opened ItemRules
  import opened ActorRules
  import opened Dispatcher
  import opened Effects
  import opened Atomicity
  import opened CapacityLaws
  import opened ItemLaws

  // ------------------------------------------------------- items by identifier

  function Weighs(w: World, item: Id): nat {
    if HasItem(w, item) then WeightOf(GetItem(w, item)) else 0
  }

  function ShareIn(w: World, item: Id, id: Id): int {
    if HasItem(w, item) then Share(GetItem(w, item), id) else 0
  }

  /** What the item lets `id` carry. */
  function CarriesFor(w: World, item: Id, id: Id): nat {
    if HasItem(w, item) then CapacityContribution(GetItem(w, item), id) else 0
  }

  /** The actor would be within capacity after this change of its load. */
  predicate CanBear(w: World, id: Id, change: int)
    requires Known(w, id)
  {
    Load(w.items, id) + change <= BaseCapacity(GetActor(w, id))
  }

  /** Same base capacity, so only the load decides. */
  lemma BearingDecides(w: World, r: World, id: Id, change: int)
    requires Known(w, id) && KeepsActors(w.actors, r.actors)
    requires Load(r.items, id) == Load(w.items, id) + change
    ensures Known(r, id) && (WithinCapacity(r, id) <==> CanBear(w, id, change))
  {
    ActorPrefix(w.actors, r.actors, id);
    WithinMeansLoad(r, id);
    hide WithinCapacity, Load;
  }

  lemma SteadyKeeps(before: seq<Actor>, after: seq<Actor>)
    requires SteadyActors(before, after)
    ensures KeepsActors(before, after)
  {}

  // -------------------------------------------------------------------- craft

  lemma {:induction false} RemovalUpTo(items: seq<Item>, i: nat, actor: Id, none: nat, n: nat)
    requires i < |items| <= none && n < |items|
    ensures var r, m := items[..i] + items[i + 1..], if n <= i then n else n + 1;
            && WeightUpTo(r, actor, none, n)
               == WeightUpTo(items, actor, none, m) - (if n <= i then 0 else Contribution(items[i], actor))
            && CapacityUpTo(r, actor, none, n)
               == CapacityUpTo(items, actor, none, m) - (if n <= i then 0 else CapacityContribution(items[i], actor))
  {
    if n != 0 {
      RemovalUpTo(items, i, actor, none, n - 1);
      hide WeightOf, CapacityOf;
      assert (items[..i] + items[i + 1..])[n - 1] == items[if n <= i then n - 1 else n];
    }
  }

  /** Closing the gap of a removed record takes exactly its share. */
  lemma RemovalLoad(items: seq<Item>, i: nat, id: Id)
    requires i < |items|
    ensures Load(items[..i] + items[i + 1..], id) == Load(items, id) - Share(items[i], id)
  {
    var r, n := items[..i] + items[i + 1..], |items| - 1;
    assert |r| == n;
    RemovalUpTo(items, i, id, |items|, n);
    SkipRemovesShare(r, n, id, |items|, n);
    if n == i {
      assert WeightUpTo(items, id, |items|, n + 1) == WeightUpTo(items, id, |items|, n) + Contribution(items[i], id);
      assert CapacityUpTo(items, id, |items|, n + 1) == CapacityUpTo(items, id, |items|, n) + CapacityContribution(items[i], id);
    }
    hide WeightUpTo, CapacityUpTo, Contribution, CapacityContribution;
  }

  lemma AppendLoad(items: seq<Item>, x: Item, id: Id)
    ensures Load(items + [x], id) == Load(items, id) + Share(x, id)
  {
    RemovalLoad(items + [x], |items|, id);
    assert (items + [x])[..|items|] + (items + [x])[|items| + 1..] == items;
    hide Load, Share;
  }

  /** What an input's disposal adds to the load of `id`. */
  function InputChange(w: World, item: Id, disposition: nat, id: Id): int {
    if item == 0 then 0
    else if Removes(disposition) then -ShareIn(w, item, id)
    else if disposition == EXHAUSTS then CarriesFor(w, item, id)
    else 0
  }

  lemma ExhaustionLoad(w: World, x: Item, id: Id)
    requires HasItem(w, x.id) && x == GetItem(w, x.id).(charges := x.charges)
    ensures Load(PutItem(w, ExhaustItem(x)).items, id) == Load(w.items, id) + CarriesFor(w, x.id, id)
    ensures Load(PutItem(w, x).items, id) == Load(w.items, id)
  {
    PutChangesLoad(w, ExhaustItem(x), id);
    PutChangesLoad(w, x, id);
    hide PutItem, Load;
  }

  lemma DisposalLoad(w: World, actor: Id, item: Id, disposition: nat, id: Id)
    requires HasItem(w, item) && item != 0 && disposition <= TRANSFORMED && id != 0
    requires disposition == EXHAUSTS ==> GetItem(w, item).holder == actor || GetItem(w, item).holder == 0
    ensures Load(DisposeInput(w, actor, item, disposition).items, id)
         == Load(w.items, id) + InputChange(w, item, disposition, id)
  {
    ExhaustionLoad(w, GetItem(w, item).(charges := 0), id);
    RemovalLoad(w.items, FindItem(w.items, item), id);
    hide PutItem, Load, FindItem;
  }

  lemma DisposalSparesOthers(w: World, actor: Id, item: Id, disposition: nat, other: Id)
    requires HasItem(w, item) && HasItem(w, other) && other != item && disposition <= TRANSFORMED
    ensures var r := DisposeInput(w, actor, item, disposition);
            HasItem(r, other) && GetItem(r, other) == GetItem(w, other)
  {
    hide FirstIndex;
    if Removes(disposition) {
      var i, k, after := FindItem(w.items, item), FindItem(w.items, other), RemoveItem(w, item).items;
      var j := if k < i then k else k - 1;
      assert after[j] == w.items[k];
      forall m | 0 <= m < j ensures after[m].id != other {
        assert after[m] == w.items[if m < i then m else m + 1];
      }
      assert FindItem(after, other) == j;
    }
  }

  function InputsChange(w: World, a: Action, id: Id): int {
    InputChange(w, a.item, a.itemDisposition, id) + InputChange(w, a.targetItem, a.targetDisposition, id)
  }

  lemma CraftInputs(w: World, a: Action)
    requires Known(w, a.actor) && CraftRefusal(w, a) == NoReason
    ensures a.itemDisposition <= TRANSFORMED && a.targetDisposition <= TRANSFORMED
    ensures a.item != 0 ==> HasItem(w, a.item) && (a.itemDisposition != PERSISTS || a.targetDisposition != PERSISTS ==>
              GetItem(w, a.item).holder == a.actor || GetItem(w, a.item).holder == 0)
    ensures a.targetItem != 0 ==> HasItem(w, a.targetItem) && a.targetItem != a.item
    ensures a.targetItem != 0 && (a.itemDisposition != PERSISTS || a.targetDisposition != PERSISTS) ==>
              GetItem(w, a.targetItem).holder == a.actor || GetItem(w, a.targetItem).holder == 0
  {}

  lemma ConsumptionLoad(w: World, a: Action, id: Id)
    requires Known(w, a.actor) && CraftRefusal(w, a) == NoReason && id != 0
    ensures Load(ConsumeInputs(w, a).items, id) == Load(w.items, id) + InputsChange(w, a, id)
  {
    CraftInputs(w, a);
    hide CraftRefusal;
    var one := if a.item != 0 then DisposeInput(w, a.actor, a.item, a.itemDisposition) else w;
    if a.item != 0 {
      DisposalLoad(w, a.actor, a.item, a.itemDisposition, id);
      if a.targetItem != 0 {
        DisposalSparesOthers(w, a.actor, a.item, a.itemDisposition, a.targetItem);
      }
    }
    if a.targetItem != 0 {
      DisposalLoad(one, a.actor, a.targetItem, a.targetDisposition, id);
    }
    hide DisposeInput, Load;
  }

  function OutputChange(a: Action, id: Id): int {
    if a.output != 0 && a.outputTargetKind == ACTOR_HAND && id == a.outputTarget then OutputWeight(a) else 0
  }

  lemma CraftLoad(w: World, a: Action, id: Id)
    requires ApplyCraft(w, a).status == Success && id != 0
    ensures Load(ApplyCraft(w, a).world.items, id) == Load(w.items, id) + InputsChange(w, a, id) + OutputChange(a, id)
  {
    var used, events := ConsumeInputs(w, a), [ItemCrafted] + InputEvents(a);
    ConsumptionLoad(w, a, id);
    AppendLoad(used.items, OutputItem(a, used.tick), id);
    PlacementKeepsItems(used, events);
    PlacementKeepsItems(used.(items := used.items + [OutputItem(a, used.tick)]), events + [ItemCreated]);
    hide ConsumeInputs, CraftRefusal, CheckOutputSlot, InputsChange, Load, Placed, PlacedTwice;
  }

  /** After a craft an actor is within capacity exactly when it can bear the
      output it receives, without the weight of the inputs removed and without
      what the inputs removed or exhausted let it carry.  The kernel checks less:
      whoever receives nothing is not checked, and an input that is only
      exhausted still counts. */
  lemma CraftFitsIff(w: World, a: Action, id: Id)
    requires ApplyCraft(w, a).status == Success && id != 0 && Known(w, id)
    ensures var r := ApplyCraft(w, a).world;
            Known(r, id) && (WithinCapacity(r, id) <==> CanBear(w, id, InputsChange(w, a, id) + OutputChange(a, id)))
  {
    CraftLoad(w, a, id);
    CraftEffect(w, a);
    SteadyKeeps(w.actors, ApplyCraft(w, a).world.actors);
    BearingDecides(w, ApplyCraft(w, a).world, id, InputsChange(w, a, id) + OutputChange(a, id));
    hide ApplyCraft, InputsChange, OutputChange, CanBear, WithinCapacity, Load;
  }

  // ---------------------------------------------------------- gate transition

  /** What a transition's item movement adds to the load of `id`. */
  function MovementChange(w: World, a: Action, id: Id): int {
    var t := a.threshold.transition;
    if t == TRANSITION_INSTALL then -ShareIn(w, a.item, id)
    else if t == TRANSITION_REMOVE then (if id == a.actor then Weighs(w, a.item) else 0) - ShareIn(w, a.item, id)
    else if t == TRANSITION_EXHAUST then CarriesFor(w, a.item, id)
    else 0
  }

  lemma MovementLoad(w: World, a: Action, id: Id)
    requires Known(w, a.actor) && id != 0
    ensures Load(MoveTransitionItem(w, a).items, id) == Load(w.items, id) + MovementChange(w, a, id)
  {
    hide Load, Inert;
    if HasItem(w, a.item) {
      var x, t := GetItem(w, a.item), a.threshold.transition;
      if t == TRANSITION_INSTALL {
        PutChangesLoad(w, x.(holder := 0, location := GetActor(w, a.actor).location, heldSince := 0,
                             zone := Installed, container := 0), id);
      } else if t == TRANSITION_REMOVE {
        PutChangesLoad(w, x.(holder := a.actor, location := 0, heldSince := w.tick, zone := Carried, container := 0), id);
      } else if t == TRANSITION_EXHAUST {
        ExhaustionLoad(w, x.(charges := 0), id);
      } else {
        PutChangesLoad(w, x.(charges := 0, flags := if Inert(x) then x.flags else x.flags + 1), id);
      }
      hide PutItem;
    }
  }

  /** The transition is new, and no failed check stands in for it. */
  predicate Settles(w: World, a: Action, seed: Seed)
    requires Known(w, a.actor)
  {
    && FindClaim(w.claims, a.threshold.claim) == |w.claims|
    && !(a.threshold.resolution == RESOLUTION_SRD_CHECK && CheckTotal(GetActor(w, a.actor), a, seed) < a.dc)
  }

  lemma SettlementLoad(w: World, a: Action, before: seq<EventKind>, id: Id)
    requires Known(w, a.actor) && FindGate(w.gates, a.threshold.gate) < |w.gates| && id != 0
    requires SettleTransition(w, a, before).status == Success
    ensures Load(SettleTransition(w, a, before).world.items, id) == Load(w.items, id) + MovementChange(w, a, id)
  {
    var g, state := FindGate(w.gates, a.threshold.gate), ResultingState(a.threshold.transition);
    var claimed := w.(claims := w.claims + [NewClaim(a, false)]);
    var moved := SetState(claimed, g, a.actor, state);
    assert moved.items == w.items && moved.actors == w.actors;
    MovementLoad(moved, a, id);
    hide SettlementRefusal, SetState, SetStateStatus, MoveTransitionItem, Load;
  }

  lemma TransitionLoad(w: World, a: Action, seed: Seed, id: Id)
    requires ApplyGateTransition(w, a, seed).status == Success && id != 0
    ensures Known(w, a.actor)
    ensures Load(ApplyGateTransition(w, a, seed).world.items, id)
         == Load(w.items, id) + if Settles(w, a, seed) then MovementChange(w, a, id) else 0
  {
    hide TransitionRefusal, CheckTotal, MatchesClaim, SettleTransition, Load, MovementChange;
    if SettleTransition(w, a, []).status == Success {
      SettlementLoad(w, a, [], id);
    }
    var rolled := [AbilityCheckRolled(CheckTotal(GetActor(w, a.actor), a, seed) >= a.dc)];
    if SettleTransition(w, a, rolled).status == Success {
      SettlementLoad(w, a, rolled, id);
    }
  }

  /** After a transition an actor is within capacity exactly when it can bear what
      the transition moves: an item taken out of a gate is checked, an equipped
      container put into one or exhausted is not. */
  lemma TransitionFitsIff(w: World, a: Action, seed: Seed, id: Id)
    requires ApplyGateTransition(w, a, seed).status == Success && id != 0 && Known(w, id)
    ensures var r := ApplyGateTransition(w, a, seed).world;
            && Known(w, a.actor) && Known(r, id)
            && (WithinCapacity(r, id) <==>
                  CanBear(w, id, if Settles(w, a, seed) then MovementChange(w, a, id) else 0))
  {
    TransitionLoad(w, a, seed, id);
    GateTransitionEffect(w, a, seed);
    BearingDecides(w, ApplyGateTransition(w, a, seed).world, id,
                   if Settles(w, a, seed) then MovementChange(w, a, id) else 0);
    hide ApplyGateTransition, Settles, MovementChange, CanBear, WithinCapacity, Load;
  }

  // ------------------------------------------------------------ other rules

  /** Using up the last charge exhausts an item. */
  function UseChange(w: World, item: Id, id: Id): int {
    if HasItem(w, item) && GetItem(w, item).charges == 1 then CarriesFor(w, item, id) else 0
  }

  lemma SpendingLoad(w: World, item: Id, id: Id)
    requires HasItem(w, item) && GetItem(w, item).charges > 0
    ensures Load(PutItem(w, SpendCharge(GetItem(w, item))).items, id) == Load(w.items, id) + UseChange(w, item, id)
  {
    ExhaustionLoad(w, GetItem(w, item).(charges := GetItem(w, item).charges - 1), id);
    hide PutItem, Load;
  }

  lemma UseLoad(w: World, a: Action, id: Id)
    ensures ApplyUseItem(w, a).status == Success ==>
              Load(ApplyUseItem(w, a).world.items, id) == Load(w.items, id) + UseChange(w, a.item, id)
    ensures ApplyMagic(w, a).status == Success ==>
              Load(ApplyMagic(w, a).world.items, id) == Load(w.items, id) + UseChange(w, a.item, id)
  {
    if HasItem(w, a.item) && GetItem(w, a.item).charges > 0 {
      SpendingLoad(w, a.item, id);
      if Known(w, Aim(a)) {
        SpendingLoad(PutActor(w, Healed(GetActor(w, Aim(a)))), a.item, id);
      }
    }
    hide PutItem, PutActor, Load, UseChange, SpendCharge, Healed;
  }

  /** After a use anybody is within capacity exactly when they can bear the loss of
      what the item let them carry, which its last charge takes along. */
  lemma UseFitsIff(w: World, a: Action, id: Id)
    requires ApplyUseItem(w, a).status == Success && Known(w, id)
    ensures var r := ApplyUseItem(w, a).world;
            Known(r, id) && (WithinCapacity(r, id) <==> CanBear(w, id, UseChange(w, a.item, id)))
  {
    UseLoad(w, a, id);
    UseEffect(w, a);
    SteadyKeeps(w.actors, ApplyUseItem(w, a).world.actors);
    BearingDecides(w, ApplyUseItem(w, a).world, id, UseChange(w, a.item, id));
    hide ApplyUseItem, UseChange, CanBear, WithinCapacity, Load;
  }

  lemma RescueLoad(w: World, a: Action, seed: Seed, id: Id)
    ensures ApplyCompleteRescue(w, a).status == Success ==>
              Load(ApplyCompleteRescue(w, a).world.items, id) == Load(w.items, id) + UseChange(w, a.item, id)
    ensures ApplyReplaceRescuer(w, a, seed).status == Success ==>
              Load(ApplyReplaceRescuer(w, a, seed).world.items, id) == Load(w.items, id) + CarriesFor(w, a.item, id)
  {
    if RescueRefusal(w, a) == NoReason {
      SpendingLoad(RevivePair(w, a), a.item, id);
    }
    if ReplaceRefusal(w, a) == NoReason {
      ExhaustionLoad(ReplaceActors(w, a, seed), GetItem(w, a.item).(charges := 0), id);
    }
    hide PutItem, Load, UseChange, SpendCharge, RevivePair, ReplaceActors, ExhaustItem;
  }

  lemma FoundLoad(w: World, a: Action, id: Id)
    requires id != 0
    ensures Load(ApplySearch(w, a).world.items, id) == Load(w.items, id)
    ensures Load(ApplyReveal(w, a).world.items, id) == Load(w.items, id)
  {
    if HasItem(w, a.item) && IsHidden(GetItem(w, a.item)) {
      PutChangesLoad(w, OnFloorAt(GetItem(w, a.item), a.location), id);
      if Known(w, a.actor) {
        var place := GetActor(w, a.actor).location;
        PutChangesLoad(w, OnFloorAt(GetItem(w, a.item), place), id);
        PlacementKeepsItems(PutItem(w, OnFloorAt(GetItem(w, a.item), place)), [ItemFound]);
      }
    }
    hide PutItem, Load, Placed;
  }

  lemma {:induction false} RefreshLoad(items: seq<Item>, indices: seq<nat>, actor: Id, grade: nat, id: Id)
    requires forall k :: 0 <= k < |indices| ==> indices[k] < |items| && items[indices[k]].role != ROLE_CONTAINER
    ensures Load(RefreshAll(items, indices), id) == Load(items, id)
    decreases |indices|
  {
    if indices != [] {
      var i := indices[0];
      var once := items[i := Refresh(items[i])];
      ReplaceChangesShare(items, i, Refresh(items[i]), id, |items|, |items|);
      RefreshLoad(once, indices[1..], actor, grade, id);
    }
  }

  lemma RestLoad(w: World, a: Action, buffered: bool, id: Id)
    ensures Load(ApplyRest(w, a, buffered).world.items, id) == Load(w.items, id)
  {
    var s := SelectRefresh(w.items, a.actor, a.restRequested, RestCount(w, a), 0);
    if s.Selected? {
      RefreshLoad(w.items, s.indices, a.actor, a.restRequested, id);
    }
    hide RestCount, SelectRefresh, RefreshAll, Load;
  }

  // ------------------------------------------------------------ any transfer

  /** Taking one item into hand and, if it does not fit, leaving another behind. */
  function PickUpChange(w: World, a: Action, id: Id): int {
    (if id == a.actor then Weighs(w, a.item) else 0)
    - (if Known(w, a.actor) && NeedsExchange(w, a) then ShareIn(w, a.targetItem, id) else 0)
  }

  lemma PickUpLoad(w: World, a: Action, id: Id)
    requires ApplyPickUp(w, a).status == Success && id != 0
    ensures Load(ApplyPickUp(w, a).world.items, id) == Load(w.items, id) + PickUpChange(w, a, id)
  {
    CommitPickUpLoad(w, a, id);
    PlacementKeepsItems(CommitPickUp(w, a), if NeedsExchange(w, a) then [ItemDropped, ItemPickedUp] else [ItemPickedUp]);
    hide CommitPickUp, CanExchange, Load, Placed;
  }

  /** One item to `receiver` and, when `back` names one, another to `giver`. */
  function ExchangeChange(w: World, item: Id, receiver: Id, back: Id, giver: Id, id: Id): int {
    (if id == receiver then Weighs(w, item) else 0) - ShareIn(w, item, id)
    + if back == 0 then 0 else (if id == giver then Weighs(w, back) else 0) - ShareIn(w, back, id)
  }

  lemma GiveLoad(w: World, a: Action, id: Id)
    requires ApplyGive(w, a).status == Success && id != 0
    ensures Load(ApplyGive(w, a).world.items, id)
         == Load(w.items, id) + ExchangeChange(w, a.item, a.target, a.targetItem, a.actor, id)
  {
    hide CanExchange, Load;
    ExchangeLoad(w, a.item, a.target, a.targetItem, a.actor, id);
    PlacementKeepsItems(CommitGive(w, a), [ItemGiven]);
    hide Exchange, Placed;
  }

  lemma TradeLoad(w: World, a: Action, id: Id)
    requires ApplyTrade(w, a).status == Success && id != 0
    ensures Load(ApplyTrade(w, a).world.items, id)
         == Load(w.items, id) + ExchangeChange(w, a.item, a.target, a.targetItem, a.actor, id)
  {
    hide CanExchange, Load;
    ExchangeLoad(w, a.item, a.target, a.targetItem, a.actor, id);
    PlacementKeepsItems(CommitTrade(w, a), [ItemTraded]);
    hide Exchange, PlacedTwice;
  }

  lemma DropLoad(w: World, a: Action, id: Id)
    requires ApplyDrop(w, a).status == Success && id != 0
    ensures Load(ApplyDrop(w, a).world.items, id) == Load(w.items, id) - ShareIn(w, a.item, id)
  {
    PutChangesLoad(w, OnFloorAt(GetItem(w, a.item), GetActor(w, a.actor).location), id);
    PlacementKeepsItems(CommitDrop(w, a), [ItemDropped]);
    hide PutItem, CanExchange, Load, Placed;
  }

  function TheftChange(w: World, a: Action, seed: Seed, id: Id): int {
    if Known(w, a.actor) && TheftSucceeds(GetActor(w, a.actor), a, seed)
    then (if id == a.actor then Weighs(w, a.item) else 0) - ShareIn(w, a.item, id)
    else 0
  }

  lemma TheftLoad(w: World, a: Action, seed: Seed, id: Id)
    requires ApplyTheft(w, a, seed).status == Success && id != 0
    ensures Load(ApplyTheft(w, a, seed).world.items, id) == Load(w.items, id) + TheftChange(w, a, seed, id)
  {
    PutChangesLoad(w, InHandOf(GetItem(w, a.item), a.actor, w.tick), id);
    hide PutItem, CanExchange, Load, TheftSucceeds;
  }

  // ---------------------------------------------------------------- any call

  /** What a successful call adds to the load of `id`. */
  function LoadChange(w: World, c: Call, id: Id): int {
    var a := c.action;
    match a.kind
    case PickUpItem => PickUpChange(w, a, id)
    case DropItem => -ShareIn(w, a.item, id)
    case GiveItem => ExchangeChange(w, a.item, a.target, a.targetItem, a.actor, id)
    case TradeItem => ExchangeChange(w, a.item, a.target, a.targetItem, a.actor, id)
    case Theft => TheftChange(w, a, c.seed, id)
    case Craft => InputsChange(w, a, id) + OutputChange(a, id)
    case UseItem => UseChange(w, a.item, id)
    case RulesMagic => UseChange(w, a.item, id)
    case CompleteAvatarRescue => UseChange(w, a.item, id)
    case ReplaceAvatarRescuer => CarriesFor(w, a.item, id)
    case GateTransition => if Known(w, a.actor) && Settles(w, a, c.seed) then MovementChange(w, a, id) else 0
    case _ => 0
  }

  lemma ItemRuleLoad(w: World, c: Call, id: Id)
    requires IsItemRule(c.action.kind) && ApplyItemRule(w, c).status == Success && id != 0
    ensures Load(ApplyItemRule(w, c).world.items, id) == Load(w.items, id) + LoadChange(w, c, id)
  {
    var a := c.action;
    hide Load, PickUpChange, ShareIn, ExchangeChange, TheftChange, InputsChange, OutputChange, UseChange;
    hide ApplyPickUp, ApplyDrop, ApplyGive, ApplyTrade, ApplySearch, ApplyReveal, ApplyCraft, ApplyTheft, ApplyRest,
         ApplyUseItem, ApplyMagic;
    match a.kind
    case PickUpItem => PickUpLoad(w, a, id);
    case DropItem => DropLoad(w, a, id);
    case GiveItem => GiveLoad(w, a, id);
    case TradeItem => TradeLoad(w, a, id);
    case Search => FoundLoad(w, a, id);
    case RevealItem => FoundLoad(w, a, id);
    case Craft => CraftLoad(w, a, id);
    case Theft => TheftLoad(w, a, c.seed, id);
    case Rest => RestLoad(w, a, c.buffered, id);
    case RulesUtilizeItem =>
    case UseItem => UseLoad(w, a, id);
    case RulesMagic => UseLoad(w, a, id);
  }

  lemma ActorRuleLoad(w: World, c: Call, id: Id)
    requires IsActorRule(c.action.kind) && ApplyActorRule(w, c).status == Success
    ensures Load(ApplyActorRule(w, c).world.items, id) == Load(w.items, id) + LoadChange(w, c, id)
  {
    var a := c.action;
    hide Load, UseChange, CarriesFor, ApplyCompleteRescue, ApplyReplaceRescuer, MoveRefusal, FleeRefusal, AttackRefusal,
         ResolveAttack, UnlockRefusal, NewActor;
    match a.kind
    case CompleteAvatarRescue => RescueLoad(w, a, c.seed, id);
    case ReplaceAvatarRescuer => RescueLoad(w, a, c.seed, id);
    case _ =>
  }

  lemma RuleLoad(w: World, c: Call, id: Id)
    requires ApplyRule(w, c).status == Success && id != 0
    ensures Load(ApplyRule(w, c).world.items, id) == Load(w.items, id) + LoadChange(w, c, id)
  {
    hide ApplyItemRule, ApplyCombatRule, ApplyActorRule, ApplyGateTransition, ApplyReport, Load, Settles, MovementChange;
    if IsItemRule(c.action.kind) {
      ItemRuleLoad(w, c, id);
      hide LoadChange;
    } else if IsCombatRule(c.action.kind) {
      CombatRuleEffect(w, c);
    } else if c.action.kind == GateTransition {
      TransitionLoad(w, c.action, c.seed, id);
    } else if IsActorRule(c.action.kind) {
      ActorRuleLoad(w, c, id);
      hide LoadChange;
    }
  }

  lemma ClockSparesLoads(w: World, c: Call, id: Id)
    ensures LoadChange(Clocked(w, c), c, id) == LoadChange(w, c, id)
  {
    hide CheckTotal, TheftSucceeds, Share, CapacityContribution, WeightOf, CapacityOf, HeldWeight, HeldCapacity,
         BaseCapacity, FindActor, FindItem, FindClaim, OutputWeight, Removes;
  }

  /** Every call moves every load by exactly the change told beforehand, and a
      call that fails moves none. */
  lemma StepMovesLoad(w: World, c: Call, id: Id)
    requires id != 0
    ensures Load(Step(w, c).world.items, id)
         == Load(w.items, id) + if Step(w, c).status == Success then LoadChange(w, c, id) else 0
  {
    FailureAtomicity(w, c);
    hide ApplyRule, BarredByCombat, Load, FindClaim;
    if Step(w, c).status == Success {
      if NamesRecordedClaim(w.claims, c.action) {
        assert LoadChange(w, c, id) == 0;
      } else {
        RuleLoad(Clocked(w, c), c, id);
        ClockSparesLoads(w, c, id);
      }
    }
    hide LoadChange;
  }

  /** So an actor is within capacity after a call exactly when it can bear that change. */
  lemma StepFitsIff(w: World, c: Call, id: Id)
    requires id != 0 && Known(w, id)
    ensures var s := Step(w, c);
            && Known(s.world, id)
            && (WithinCapacity(s.world, id) <==> CanBear(w, id, if s.status == Success then LoadChange(w, c, id) else 0))
  {
    StepMovesLoad(w, c, id);
    StepFrame(w, c);
    BearingDecides(w, Step(w, c).world, id, if Step(w, c).status == Success then LoadChange(w, c, id) else 0);
    hide Step, LoadChange, CanBear, WithinCapacity, Load;
  }

  // ----------------------------------------------- what can overload anybody

  /** No item the call names lets anybody carry anything. */
  predicate MovesNoContainer(w: World, a: Action) {
    && (HasItem(w, a.item) ==> CapacityOf(GetItem(w, a.item)) == 0)
    && (HasItem(w, a.targetItem) ==> CapacityOf(GetItem(w, a.targetItem)) == 0)
  }

  lemma PickUpIsBorne(w: World, a: Action, id: Id)
    requires ApplyPickUp(w, a).status == Success && id != 0 && Known(w, id) && CanBear(w, id, 0)
    ensures CanBear(w, id, PickUpChange(w, a, id))
  {
    var i := FindItem(w.items, a.item);
    ExchangeMeansLoad(w, GetActor(w, a.actor), |w.items|, i);
    if NeedsExchange(w, a) {
      ExchangeMeansLoad(w, GetActor(w, a.actor), FindItem(w.items, a.targetItem), i);
    }
    hide CanExchange, Load, BaseCapacity, WeightOf;
  }

  lemma DropIsBorne(w: World, a: Action, id: Id)
    requires ApplyDrop(w, a).status == Success && id != 0 && Known(w, id) && CanBear(w, id, 0)
    ensures CanBear(w, id, -ShareIn(w, a.item, id))
  {
    ExchangeMeansLoad(w, GetActor(w, a.actor), FindItem(w.items, a.item), |w.items|);
    hide CanExchange, Load, BaseCapacity, WeightOf, CapacityOf;
  }

  lemma GiveIsBorne(w: World, a: Action, id: Id)
    requires ApplyGive(w, a).status == Success && id != 0 && Known(w, id) && CanBear(w, id, 0) && MovesNoContainer(w, a)
    ensures CanBear(w, id, ExchangeChange(w, a.item, a.target, a.targetItem, a.actor, id))
  {
    var given, returned := FindItem(w.items, a.item), IndexOf(w, a.targetItem);
    ExchangeMeansLoad(w, GetActor(w, a.actor), given, returned);
    ExchangeMeansLoad(w, GetActor(w, a.target), returned, given);
    hide CanExchange, Load, BaseCapacity, WeightOf, CapacityOf;
  }

  lemma TradeIsBorne(w: World, a: Action, id: Id)
    requires ApplyTrade(w, a).status == Success && id != 0 && Known(w, id) && CanBear(w, id, 0) && MovesNoContainer(w, a)
    ensures CanBear(w, id, ExchangeChange(w, a.item, a.target, a.targetItem, a.actor, id))
  {
    var offered, requested := FindItem(w.items, a.item), FindItem(w.items, a.targetItem);
    ExchangeMeansLoad(w, GetActor(w, a.actor), offered, requested);
    ExchangeMeansLoad(w, GetActor(w, a.target), requested, offered);
    hide CanExchange, Load, BaseCapacity, WeightOf, CapacityOf;
  }

  lemma TheftIsBorne(w: World, a: Action, seed: Seed, id: Id)
    requires ApplyTheft(w, a, seed).status == Success && id != 0 && Known(w, id) && CanBear(w, id, 0)
    requires MovesNoContainer(w, a)
    ensures CanBear(w, id, TheftChange(w, a, seed, id))
  {
    ExchangeMeansLoad(w, GetActor(w, a.actor), |w.items|, FindItem(w.items, a.item));
    hide CanExchange, Load, BaseCapacity, WeightOf, CapacityOf, TheftSucceeds;
  }

  lemma TransitionIsBorne(w: World, a: Action, seed: Seed, id: Id)
    requires ApplyGateTransition(w, a, seed).status == Success && id != 0 && Known(w, id) && CanBear(w, id, 0)
    requires MovesNoContainer(w, a) && Known(w, a.actor) && Settles(w, a, seed)
    ensures CanBear(w, id, MovementChange(w, a, id))
  {
    if a.threshold.transition == TRANSITION_REMOVE && HasItem(w, a.item) {
      RemovalIsChecked(w, a, seed);
      ExchangeMeansLoad(w, GetActor(w, a.actor), |w.items|, FindItem(w.items, a.item));
    }
    hide ApplyGateTransition, Settles, CanExchange, Load, BaseCapacity, WeightOf, CapacityOf;
  }

  lemma RemovalIsChecked(w: World, a: Action, seed: Seed)
    requires ApplyGateTransition(w, a, seed).status == Success && Known(w, a.actor) && Settles(w, a, seed)
    requires a.threshold.transition == TRANSITION_REMOVE && HasItem(w, a.item)
    ensures CanExchange(w, GetActor(w, a.actor), |w.items|, FindItem(w.items, a.item))
    ensures GetItem(w, a.item).holder == 0 && GetItem(w, a.item).zone == Installed
  {
    hide TransitionRefusal, CheckTotal, MatchesClaim, CanExchange, SetState, SetStateStatus, MoveTransitionItem;
  }

  /** The weight and the capacity a removed input takes along, if it stands before `n`. */
  function GoneWeight(items: seq<Item>, actor: Id, item: Id, disposition: nat, n: nat): nat {
    var i := FindItem(items, item);
    if i < |items| && i < n && Removes(disposition) then Contribution(items[i], actor) else 0
  }

  function GoneCapacity(items: seq<Item>, actor: Id, item: Id, disposition: nat, n: nat): nat {
    var i := FindItem(items, item);
    if i < |items| && i < n && Removes(disposition) then CapacityContribution(items[i], actor) else 0
  }

  /** The craft's own sums leave out exactly the inputs it removes. */
  lemma {:induction false} KeptIsTheRest(items: seq<Item>, a: Action, n: nat)
    requires DistinctIds(items) && n <= |items|
    requires Removes(a.targetDisposition) ==> a.item != a.targetItem
    ensures KeptWeight(items, a, n)
         == WeightUpTo(items, a.actor, |items|, n) - GoneWeight(items, a.actor, a.item, a.itemDisposition, n)
            - GoneWeight(items, a.actor, a.targetItem, a.targetDisposition, n)
    ensures KeptCapacity(items, a, n)
         == CapacityUpTo(items, a.actor, |items|, n) - GoneCapacity(items, a.actor, a.item, a.itemDisposition, n)
            - GoneCapacity(items, a.actor, a.targetItem, a.targetDisposition, n)
  {
    hide FirstIndex, WeightOf, CapacityOf;
    if n != 0 {
      KeptIsTheRest(items, a, n - 1);
      var x, i, j := items[n - 1], FindItem(items, a.item), FindItem(items, a.targetItem);
      assert x.id == a.item <==> i == n - 1;
      assert x.id == a.targetItem <==> j == n - 1;
    }
  }

  lemma OutputIsChecked(w: World, a: Action)
    requires ApplyCraft(w, a).status == Success && a.output != 0 && a.outputTargetKind == ACTOR_HAND
    ensures Known(w, a.outputTarget) && OutputFits(w, a)
  {
    hide CraftRefusal, ConsumeInputs, CommitCraft, OutputFits;
  }

  lemma CraftIsBorne(w: World, a: Action, id: Id)
    requires ApplyCraft(w, a).status == Success && id != 0 && Known(w, id) && CanBear(w, id, 0)
    requires MovesNoContainer(w, a) && DistinctIds(w.items)
    ensures CanBear(w, id, InputsChange(w, a, id) + OutputChange(a, id))
  {
    InputsLighten(w, a, id);
    if OutputChange(a, id) != 0 {
      OutputIsChecked(w, a);
      if id == a.actor {
        KeptLoad(w, a);
      }
    }
    hide ApplyCraft, InputsChange, KeptWeight, KeptCapacity, BaseCapacity;
  }

  lemma InputsLighten(w: World, a: Action, id: Id)
    requires MovesNoContainer(w, a)
    ensures InputsChange(w, a, id) <= 0
  {}

  lemma KeptLoad(w: World, a: Action)
    requires ApplyCraft(w, a).status == Success && MovesNoContainer(w, a) && DistinctIds(w.items)
    ensures KeptWeight(w.items, a, |w.items|) - KeptCapacity(w.items, a, |w.items|)
         == Load(w.items, a.actor) + InputsChange(w, a, a.actor)
  {
    assert CraftRefusal(w, a) == NoReason;
    CraftInputs(w, a);
    assert a.item == 0 ==> !Removes(a.itemDisposition);
    assert a.targetItem == 0 ==> !Removes(a.targetDisposition);
    KeptIsTheRest(w.items, a, |w.items|);
    hide ApplyCraft, CraftRefusal, KeptWeight, KeptCapacity, WeightUpTo, CapacityUpTo, WeightOf, CapacityOf;
  }

  /** Pick-ups and drops aside, the call names no item that lets anybody carry anything. */
  predicate SparesContainers(w: World, a: Action) {
    a.kind == PickUpItem || a.kind == DropItem || MovesNoContainer(w, a)
  }

  lemma ItemRuleIsBorne(w: World, c: Call, id: Id)
    requires IsItemRule(c.action.kind) && ApplyItemRule(w, c).status == Success && id != 0
    requires Known(w, id) && CanBear(w, id, 0) && SparesContainers(w, c.action) && DistinctIds(w.items)
    ensures CanBear(w, id, LoadChange(w, c, id))
  {
    var a := c.action;
    match a.kind
    case PickUpItem => PickUpIsBorne(w, a, id);
    case DropItem => DropIsBorne(w, a, id);
    case GiveItem => GiveIsBorne(w, a, id);
    case TradeItem => TradeIsBorne(w, a, id);
    case Theft => TheftIsBorne(w, a, c.seed, id);
    case Craft => CraftIsBorne(w, a, id);
    case _ =>
      hide CanBear, PickUpChange, ShareIn, ExchangeChange, TheftChange, InputsChange, OutputChange, ApplyItemRule;
  }

  lemma RuleIsBorne(w: World, c: Call, id: Id)
    requires ApplyRule(w, c).status == Success && id != 0
    requires Known(w, id) && CanBear(w, id, 0) && SparesContainers(w, c.action) && DistinctIds(w.items)
    ensures CanBear(w, id, LoadChange(w, c, id))
  {
    hide ApplyItemRule, ApplyCombatRule, ApplyActorRule, ApplyGateTransition, ApplyReport, CanBear;
    if IsItemRule(c.action.kind) {
      ItemRuleIsBorne(w, c, id);
      hide LoadChange;
    } else if c.action.kind == GateTransition && Known(w, c.action.actor) && Settles(w, c.action, c.seed) {
      TransitionIsBorne(w, c.action, c.seed, id);
      hide MovementChange;
    }
  }

  lemma ChangeIsBorne(w: World, c: Call, id: Id)
    requires Step(w, c).status == Success && id != 0
    requires Known(w, id) && CanBear(w, id, 0) && SparesContainers(w, c.action) && DistinctIds(w.items)
    ensures CanBear(w, id, LoadChange(w, c, id))
  {
    var v := Clocked(w, c);
    hide ApplyRule, BarredByCombat, Load, FindClaim, FindActor, FindItem, CapacityOf, BaseCapacity, DistinctIds;
    if NamesRecordedClaim(w.claims, c.action) {
      assert LoadChange(w, c, id) == 0;
    } else {
      hide LoadChange;
      RuleIsBorne(v, c, id);
      ClockSparesLoads(w, c, id);
    }
  }

  /** No call pushes anybody over capacity unless an item it names is an equipped
      container; picking up and dropping never do. */
  lemma OnlyContainersOverload(w: World, c: Call, id: Id)
    requires id != 0 && Known(w, id) && WithinCapacity(w, id)
    requires SparesContainers(w, c.action) && DistinctIds(w.items)
    ensures Known(Step(w, c).world, id) && WithinCapacity(Step(w, c).world, id)
  {
    hide Step, LoadChange, SparesContainers, DistinctIds;
    StepFitsIff(w, c, id);
    WithinMeansLoad(w, id);
    hide WithinCapacity, Load;
    if Step(w, c).status == Success {
      ChangeIsBorne(w, c, id);
    }
  }

  // ------------------------------------------------------------- whole runs

  /** No call of the run, where it stands, names an equipped container. */
  ghost predicate RunSparesContainers(k: Kernel, calls: seq<Call>)
    decreases |calls|
  {
    calls == [] || (SparesContainers(k.world, calls[0].action) && RunSparesContainers(Advance(k, calls[0]), calls[1..]))
  }

  /** Over any such run nobody who is within capacity leaves it. */
  lemma {:induction false} RunStaysWithinCapacity(k: Kernel, calls: seq<Call>, id: Id)
    requires id != 0 && Known(k.world, id) && WithinCapacity(k.world, id)
    requires RunSparesContainers(k, calls) && DistinctIds(k.world.items)
    ensures Known(Run(k, calls).world, id) && WithinCapacity(Run(k, calls).world, id)
    decreases |calls|
  {
    hide Step, WithinCapacity, SparesContainers, DistinctIds;
    if calls != [] {
      OnlyContainersOverload(k.world, calls[0], id);
      StepAccountsForItems(k.world, calls[0]);
      RunStaysWithinCapacity(Advance(k, calls[0]), calls[1..], id);
    }
  }

  // ------------------------------------------------------- counterexamples

  /** The bearer of a light equipped container, and of the load it makes bearable. */
  const CRAFT_WORLD := GIFT_WORLD.(items := [PACK.(holder := 1), LOAD.(holder := 1)])

  const EXHAUSTING_CRAFT := PlainAction(Craft, 1).(content := 1, item := 9, itemDisposition := EXHAUSTS)

  /** Exhausting an equipped container in a craft overloads the crafter, whom nothing checks. */
  lemma CraftOfAnEquippedContainerOverloads()
    ensures var o := ApplyCraft(CRAFT_WORLD, EXHAUSTING_CRAFT);
            && o.status == Success
            && Known(CRAFT_WORLD, 1) && WithinCapacity(CRAFT_WORLD, 1)
            && Known(o.world, 1) && !WithinCapacity(o.world, 1)
  {
    var w, a := CRAFT_WORLD, EXHAUSTING_CRAFT;
    assert w.actors[0].id == 1 && w.items[0].id == 9;
    assert FindActor(w.actors, 1) == 0 && FindItem(w.items, 9) == 0;
    PairOfItems(w.items, 1, 2);
    hide HeldWeight, HeldCapacity;
    assert CraftRefusal(w, a) == NoReason;
    CraftFitsIff(w, a, 1);
    hide ApplyCraft;
    assert InputsChange(w, a, 1) == 200;
  }

  /** The same bearer beside a closed gate, with one method that asks for nothing. */
  const GATE_WORLD := CRAFT_WORLD.(
    gates := [Gate(1, 1, 1, ContainerTarget, WorldScope, Closed, false, 0, 0, 9, 0, 1)],
    gateMethods := [GateMethod(1, 0, 0)])

  /** The installation that an evaluation with this digest offers. */
  function Installation(digest: nat): Action {
    PlainAction(GateTransition, 1).(
      item := 9,
      threshold := Threshold(1, 1, 1, 1, GATE_WORLD.accessRevision, digest, [], TRANSITION_INSTALL, 0))
  }

  lemma GateOffersItself()
    ensures var e := Evaluate(GATE_WORLD, 1, 1, [], 1);
            && e.Decided? && e.decision.allowed && e.decision.methodId == 1
            && e.decision.gateVersion == 1 && e.decision.accessRevision == GATE_WORLD.accessRevision
  {
    hide Mix, BaseDigest, MixPredicate;
    var w := GATE_WORLD;
    assert FindGate(w.gates, 1) == 0 && FindActor(w.actors, 1) == 0;
    assert EffectiveState(w, w.gates[0], 1) == Closed;
    assert MethodAllows(w, w.gateMethods[0], 1, []);
  }

  /** Installing an equipped container overloads its bearer, whom nothing checks. */
  lemma InstallationOfAnEquippedContainerOverloads()
    ensures var a := Installation(Evaluate(GATE_WORLD, 1, 1, [], 1).decision.digest);
            var o := ApplyGateTransition(GATE_WORLD, a, Seed((_, _) => 19, (_, _) => 0));
            && o.status == Success
            && Known(GATE_WORLD, 1) && WithinCapacity(GATE_WORLD, 1)
            && Known(o.world, 1) && !WithinCapacity(o.world, 1)
  {
    GateOffersItself();
    hide Evaluate, CheckTotal;
    var w, a := GATE_WORLD, Installation(Evaluate(GATE_WORLD, 1, 1, [], 1).decision.digest);
    var seed := Seed((_, _) => 19, (_, _) => 0);
    assert w.actors[0].id == 1 && w.items[0].id == 9 && w.gates[0].id == 1;
    assert FindActor(w.actors, 1) == 0 && FindItem(w.items, 9) == 0 && FindGate(w.gates, 1) == 0;
    PairOfItems(w.items, 1, 2);
    hide HeldWeight, HeldCapacity;
    assert TransitionRefusal(w, a) == NoReason && SettlementRefusal(w, a) == NoReason;
    assert ApplyGateTransition(w, a, seed).status == Success;
    TransitionFitsIff(w, a, seed, 1);
    hide ApplyGateTransition;
    assert Settles(w, a, seed) && MovementChange(w, a, 1) == 190;
  }

  /** A wounded bearer whose container is a draught. */
  const DRAUGHT_WORLD := CRAFT_WORLD.(
    actors := [Bearer(1).(damage := 1)],
    items := [PACK.(kind := POTION, holder := 1), LOAD.(holder := 1)])

  /** Spending the last charge of an equipped container overloads its bearer. */
  lemma LastChargeOverloads()
    ensures var o := ApplyUseItem(DRAUGHT_WORLD, PlainAction(UseItem, 1).(item := 9));
            && o.status == Success
            && Known(DRAUGHT_WORLD, 1) && WithinCapacity(DRAUGHT_WORLD, 1)
            && Known(o.world, 1) && !WithinCapacity(o.world, 1)
  {
    var w, a := DRAUGHT_WORLD, PlainAction(UseItem, 1).(item := 9);
    assert w.actors[0].id == 1 && w.items[0].id == 9;
    assert FindActor(w.actors, 1) == 0 && FindItem(w.items, 9) == 0;
    PairOfItems(w.items, 1, 2);
    hide HeldWeight, HeldCapacity;
    assert UseRefusal(w, a) == NoReason;
    UseFitsIff(w, a, 1);
    hide ApplyUseItem;
    assert UseChange(w, a.item, 1) == 200;
  }
}
