/**
  Conservation of items.  Identifiers stay distinct under every rule, including
  craft's compaction; no item is ever both held and placed; charges never pass
  their maximum; and only a successful craft changes which items exist, by
  exactly its consumed inputs and its output.
 */
module ItemLaws {
  import opened KernelTypes
  import opened Lookup
  import opened Carrying
  import opened GateRules
  import opened ItemRules
  import opened ActorRules
  import opened Dispatcher
  import opened Effects
  import opened Atomicity

  predicate ItemOk(x: Item) {
    && (x.holder == 0 || x.location == 0)
    && x.charges <= x.maxCharges
  }

  predicate EachOk(items: seq<Item>) {
    forall i :: 0 <= i < |items| ==> ItemOk(items[i])
  }

  predicate DistinctIds(items: seq<Item>) {
    forall i, j :: 0 <= i < j < |items| ==> items[i].id != items[j].id
  }

  predicate NonzeroIds(items: seq<Item>) {
    forall i :: 0 <= i < |items| ==> items[i].id != 0
  }

  predicate ItemsOk(items: seq<Item>) {
    EachOk(items) && DistinctIds(items)
  }

  function Ids(items: seq<Item>): set<Id> {
    set i | 0 <= i < |items| :: items[i].id
  }

  lemma SameIdsMeansSameSet(before: seq<Item>, after: seq<Item>)
    requires SameIds(before, after)
    ensures Ids(before) == Ids(after)
    ensures DistinctIds(before) ==> DistinctIds(after)
  {
    forall id | id in Ids(before) ensures id in Ids(after) {
      var i :| 0 <= i < |before| && before[i].id == id;
      assert after[i].id == id;
    }
    forall id | id in Ids(after) ensures id in Ids(before) {
      var i :| 0 <= i < |after| && after[i].id == id;
      assert before[i].id == id;
    }
  }

  lemma FoundIffMember(items: seq<Item>, id: Id)
    ensures FindItem(items, id) < |items| <==> id in Ids(items)
  {
    hide FirstIndex;
    if FindItem(items, id) < |items| {
      assert items[FindItem(items, id)].id == id;
    }
  }

  // --------------------------------------------------- rules keep items well

  lemma PlacementKeepsItems(w: World, events: seq<EventKind>)
    ensures Placed(w, events).world.items == w.items
    ensures PlacedTwice(w, events).world.items == w.items
  {
    PlacementIsSteady(w, events);
  }

  lemma ExchangeKeepsItems(w: World, item: Id, receiver: Id, back: Id, giver: Id)
    requires HasItem(w, item) && (back != 0 ==> HasItem(w, back)) && EachOk(w.items)
    ensures EachOk(Exchange(w, item, receiver, back, giver).items)
  {}

  lemma TransfersKeepItems(w: World, a: Action)
    requires EachOk(w.items)
    ensures EachOk(ApplyGive(w, a).world.items)
    ensures EachOk(ApplyTrade(w, a).world.items)
  {
    if IsActive(w, a.actor) && GiveRefusal(w, a) == NoReason {
      PlacementKeepsItems(CommitGive(w, a), [ItemGiven]);
      ExchangeKeepsItems(w, a.item, a.target, a.targetItem, a.actor);
    }
    if IsActive(w, a.actor) && TradeRefusal(w, a) == NoReason {
      PlacementKeepsItems(CommitTrade(w, a), [ItemTraded]);
      ExchangeKeepsItems(w, a.item, a.target, a.targetItem, a.actor);
    }
    hide GiveRefusal;
    hide TradeRefusal;
    hide Exchange;
    hide Placed;
    hide PlacedTwice;
  }

  lemma PickUpKeepsItems(w: World, a: Action)
    requires EachOk(w.items)
    ensures EachOk(ApplyPickUp(w, a).world.items)
  {
    hide PickUpRefusal;
    hide Placed;
    if IsActive(w, a.actor) && PickUpRefusal(w, a) == NoReason {
      PlacementKeepsItems(CommitPickUp(w, a), if NeedsExchange(w, a) then [ItemDropped, ItemPickedUp] else [ItemPickedUp]);
    }
  }

  lemma DropKeepsItems(w: World, a: Action)
    requires EachOk(w.items)
    ensures EachOk(ApplyDrop(w, a).world.items)
  {
    hide Placed;
    hide CanExchange;
    hide FirstIndex;
    if IsActive(w, a.actor) && DropRefusal(w, a) == NoReason {
      PlacementKeepsItems(CommitDrop(w, a), [ItemDropped]);
    }
  }

  lemma FloorRulesKeepItems(w: World, a: Action)
    requires EachOk(w.items)
    ensures EachOk(ApplySearch(w, a).world.items)
    ensures EachOk(ApplyReveal(w, a).world.items)
  {
    hide Placed;
    hide FirstIndex;
    if IsActive(w, a.actor) && SearchRefusal(w, a) == NoReason {
      PlacementKeepsItems(CommitSearch(w, a), [ItemFound]);
    }
  }

  lemma ChargeRulesKeepItems(w: World, a: Action, seed: Seed)
    requires EachOk(w.items)
    ensures EachOk(ApplyUseItem(w, a).world.items)
    ensures EachOk(ApplyMagic(w, a).world.items)
    ensures EachOk(ApplyTheft(w, a, seed).world.items)
  {
    hide Healed;
    hide TheftSucceeds;
  }

  lemma {:induction false} RefreshKeepsItems(items: seq<Item>, indices: seq<nat>)
    requires forall k :: 0 <= k < |indices| ==> indices[k] < |items|
    requires EachOk(items)
    ensures EachOk(RefreshAll(items, indices))
    decreases |indices|
  {
    if indices != [] {
      RefreshKeepsItems(items[indices[0] := Refresh(items[indices[0]])], indices[1..]);
    }
  }

  lemma RestKeepsItems(w: World, a: Action, buffered: bool)
    requires EachOk(w.items)
    ensures EachOk(ApplyRest(w, a, buffered).world.items)
  {
    var s := SelectRefresh(w.items, a.actor, a.restRequested, RestCount(w, a), 0);
    if s.Selected? {
      RefreshKeepsItems(w.items, s.indices);
    }
    hide RestCount;
    hide SelectRefresh;
    hide RefreshAll;
  }

  lemma DisposalKeepsItems(w: World, actor: Id, id: Id, disposition: nat)
    requires EachOk(w.items)
    ensures EachOk(DisposeInput(w, actor, id, disposition).items)
  {}

  lemma ConsumptionKeepsItems(w: World, a: Action)
    requires EachOk(w.items)
    ensures EachOk(ConsumeInputs(w, a).items)
  {
    var one := if a.item != 0 then DisposeInput(w, a.actor, a.item, a.itemDisposition) else w;
    DisposalKeepsItems(w, a.actor, a.item, a.itemDisposition);
    DisposalKeepsItems(one, a.actor, a.targetItem, a.targetDisposition);
    hide DisposeInput, EachOk;
  }

  lemma CreationKeepsItems(used: World, a: Action, events: seq<EventKind>)
    requires EachOk(used.items)
    ensures EachOk(CommitCraft(used, a, events).world.items)
  {
    PlacementKeepsItems(used, events);
    PlacementKeepsItems(used.(items := used.items + [OutputItem(a, used.tick)]), events + [ItemCreated]);
    hide Placed, PlacedTwice, CreateStatus;
  }

  lemma CraftKeepsItems(w: World, a: Action)
    requires EachOk(w.items)
    ensures EachOk(ApplyCraft(w, a).world.items)
  {
    ConsumptionKeepsItems(w, a);
    CreationKeepsItems(ConsumeInputs(w, a), a, [ItemCrafted] + InputEvents(a));
    hide ConsumeInputs, CraftRefusal, CheckOutputSlot, CommitCraft, EachOk;
  }

  lemma ItemRuleKeepsItems(w: World, c: Call)
    requires IsItemRule(c.action.kind) && EachOk(w.items)
    ensures EachOk(ApplyItemRule(w, c).world.items)
  {
    var a := c.action;
    match a.kind
    case PickUpItem => PickUpKeepsItems(w, a);
    case DropItem => DropKeepsItems(w, a);
    case GiveItem => TransfersKeepItems(w, a);
    case TradeItem => TransfersKeepItems(w, a);
    case Search => FloorRulesKeepItems(w, a);
    case RevealItem => FloorRulesKeepItems(w, a);
    case Craft => CraftKeepsItems(w, a);
    case Rest => RestKeepsItems(w, a, c.buffered);
    case RulesUtilizeItem =>
    case _ => ChargeRulesKeepItems(w, a, c.seed);
  }

  lemma RescueKeepsItems(w: World, a: Action, seed: Seed)
    requires EachOk(w.items)
    ensures EachOk(ApplyCompleteRescue(w, a).world.items)
    ensures EachOk(ApplyReplaceRescuer(w, a, seed).world.items)
  {
    hide ReplaceActors;
    hide RevivePair;
  }

  lemma TransitionKeepsItems(w: World, a: Action, seed: Seed)
    requires EachOk(w.items)
    ensures EachOk(ApplyGateTransition(w, a, seed).world.items)
  {
    hide TransitionRefusal, CheckTotal, MatchesClaim, SettleTransition, EachOk;
    if Known(w, a.actor) && FindGate(w.gates, a.threshold.gate) < |w.gates| {
      SettlementKeepsItems(w, a, []);
      SettlementKeepsItems(w, a, [AbilityCheckRolled(CheckTotal(GetActor(w, a.actor), a, seed) >= a.dc)]);
    }
  }

  lemma SettlementKeepsItems(w: World, a: Action, before: seq<EventKind>)
    requires Known(w, a.actor) && FindGate(w.gates, a.threshold.gate) < |w.gates| && EachOk(w.items)
    ensures EachOk(SettleTransition(w, a, before).world.items)
  {
    hide SettlementRefusal;
    var claimed := w.(claims := w.claims + [NewClaim(a, false)]);
    SetStateEffect(claimed, FindGate(w.gates, a.threshold.gate), a.actor, ResultingState(a.threshold.transition));
    assert SetState(claimed, FindGate(w.gates, a.threshold.gate), a.actor,
                    ResultingState(a.threshold.transition)).items == w.items;
    hide SetState;
  }

  lemma ActorRuleKeepsItems(w: World, c: Call)
    requires IsActorRule(c.action.kind) && EachOk(w.items)
    ensures EachOk(ApplyActorRule(w, c).world.items)
  {
    hide ApplyCompleteRescue, ApplyReplaceRescuer, FleeRefusal, MoveRefusal, UnlockRefusal, AttackRefusal, ResolveAttack,
         NewActor, FirstIndex;
    match c.action.kind
    case CompleteAvatarRescue => RescueKeepsItems(w, c.action, c.seed);
    case ReplaceAvatarRescuer => RescueKeepsItems(w, c.action, c.seed);
    case _ => hide EachOk;
  }

  lemma RuleKeepsItems(w: World, c: Call)
    requires EachOk(w.items)
    ensures EachOk(ApplyRule(w, c).world.items)
  {
    hide ApplyItemRule;
    hide ApplyCombatRule;
    hide ApplyActorRule;
    hide ApplyGateTransition;
    hide ApplyReport;
    if IsItemRule(c.action.kind) {
      ItemRuleKeepsItems(w, c);
    } else if IsCombatRule(c.action.kind) {
      CombatRuleEffect(w, c);
    } else if c.action.kind == GateTransition {
      TransitionKeepsItems(w, c.action, c.seed);
    } else if IsActorRule(c.action.kind) {
      ActorRuleKeepsItems(w, c);
    }
  }

  // ------------------------------------------------------- which items exist

  /** The identifiers a craft's inputs give up. */
  function Spent(a: Action): set<Id> {
    (if Removes(a.itemDisposition) then {a.item} else {})
    + (if a.targetItem != 0 && Removes(a.targetDisposition) then {a.targetItem} else {})
  }

  function Made(a: Action): set<Id> {
    if a.output != 0 then {a.output} else {}
  }

  lemma RemovalTakesOneId(w: World, id: Id)
    requires DistinctIds(w.items)
    ensures DistinctIds(RemoveItem(w, id).items)
    ensures Ids(RemoveItem(w, id).items) == Ids(w.items) - {id}
  {
    hide FirstIndex;
    var before, after, i := w.items, RemoveItem(w, id).items, FindItem(w.items, id);
    if i < |before| {
      forall other | other in Ids(before) - {id} ensures other in Ids(after) {
        var k :| 0 <= k < |before| && before[k].id == other;
        assert after[if k < i then k else k - 1] == before[k];
      }
      forall k | 0 <= k < |after| ensures after[k].id in Ids(before) - {id} {
        assert after[k] == before[if k < i then k else k + 1];
      }
    } else {
      FoundIffMember(before, id);
    }
  }

  lemma DisposalTakesItsId(w: World, actor: Id, id: Id, disposition: nat)
    requires DistinctIds(w.items) && disposition <= TRANSFORMED
    ensures var r := DisposeInput(w, actor, id, disposition);
            DistinctIds(r.items) && Ids(r.items) == Ids(w.items) - if Removes(disposition) then {id} else {}
  {
    if Removes(disposition) {
      RemovalTakesOneId(w, id);
    } else {
      SameIdsMeansSameSet(w.items, DisposeInput(w, actor, id, disposition).items);
    }
  }

  lemma AppendAddsItsId(items: seq<Item>, x: Item)
    requires DistinctIds(items) && FindItem(items, x.id) == |items|
    ensures DistinctIds(items + [x]) && Ids(items + [x]) == Ids(items) + {x.id}
  {
    var longer := items + [x];
    assert forall j :: 0 <= j < |items| ==> longer[j] == items[j];
    assert longer[|items|] == x;
    forall id | id in Ids(items) ensures id in Ids(longer) {
      var i :| 0 <= i < |items| && items[i].id == id;
      assert longer[i].id == id;
    }
  }

  lemma InputsAreSpent(w: World, a: Action)
    requires Known(w, a.actor) && CraftRefusal(w, a) == NoReason && DistinctIds(w.items)
    ensures DistinctIds(ConsumeInputs(w, a).items)
    ensures Ids(ConsumeInputs(w, a).items) == Ids(w.items) - Spent(a)
  {
    var one := if a.item != 0 then DisposeInput(w, a.actor, a.item, a.itemDisposition) else w;
    assert a.item == 0 ==> !Removes(a.itemDisposition);
    assert a.itemDisposition <= TRANSFORMED && a.targetDisposition <= TRANSFORMED;
    hide CraftRefusal;
    DisposalTakesItsId(w, a.actor, a.item, a.itemDisposition);
    DisposalTakesItsId(one, a.actor, a.targetItem, a.targetDisposition);
    hide DisposeInput;
  }

  lemma CreationAddsOutput(used: World, a: Action, events: seq<EventKind>)
    requires DistinctIds(used.items) && CommitCraft(used, a, events).status == Success
    ensures var r := CommitCraft(used, a, events).world;
            DistinctIds(r.items) && Ids(r.items) == Ids(used.items) + Made(a)
  {
    if a.output != 0 {
      AppendAddsItsId(used.items, OutputItem(a, used.tick));
    }
    hide DistinctIds, Ids;
    PlacementKeepsItems(used, events);
    PlacementKeepsItems(used.(items := used.items + [OutputItem(a, used.tick)]), events + [ItemCreated]);
    hide Placed, PlacedTwice;
  }

  /** A successful craft leaves exactly the old items, less its consumed or
      transformed inputs, plus its output, all still distinct. */
  lemma CraftAccounts(w: World, a: Action)
    requires DistinctIds(w.items) && ApplyCraft(w, a).status == Success
    ensures DistinctIds(ApplyCraft(w, a).world.items)
    ensures Ids(ApplyCraft(w, a).world.items) == Ids(w.items) - Spent(a) + Made(a)
    ensures a.output != 0 ==> a.output !in Ids(w.items)
  {
    hide ConsumeInputs, CraftRefusal, CommitCraft, DistinctIds, Ids, Spent, Made;
    InputsAreSpent(w, a);
    FoundIffMember(w.items, a.output);
    CreationAddsOutput(ConsumeInputs(w, a), a, [ItemCrafted] + InputEvents(a));
  }

  lemma RuleKeepsIds(w: World, c: Call)
    requires c.action.kind != Craft
    ensures SameIds(w.items, ApplyRule(w, c).world.items)
  {
    hide ApplyItemRule;
    hide ApplyCombatRule;
    hide ApplyGateTransition;
    hide ApplyReport;
    hide ApplyActorRule;
    if IsItemRule(c.action.kind) {
      ItemRuleEffect(w, c);
    } else if IsCombatRule(c.action.kind) {
      CombatRuleEffect(w, c);
    } else if c.action.kind == GateTransition {
      GateTransitionEffect(w, c.action, c.seed);
    } else if IsActorRule(c.action.kind) {
      ActorRuleEffect(w, c);
    }
  }

  // --------------------------------------------------------------- any call

  predicate Crafts(w: World, c: Call) {
    c.action.kind == Craft && Step(w, c).status == Success
  }

  lemma StepAccountsForItems(w: World, c: Call)
    requires DistinctIds(w.items)
    ensures DistinctIds(Step(w, c).world.items)
    ensures Ids(Step(w, c).world.items)
         == if Crafts(w, c) then Ids(w.items) - Spent(c.action) + Made(c.action) else Ids(w.items)
  {
    FailureAtomicity(w, c);
    var v := Clocked(w, c);
    hide ApplyCraft;
    hide BarredByCombat;
    if c.action.kind == Craft {
      assert ApplyRule(v, c) == ApplyCraft(v, c.action);
      if ApplyCraft(v, c.action).status == Success {
        CraftAccounts(v, c.action);
      }
    } else {
      RuleKeepsIds(v, c);
      SameIdsMeansSameSet(v.items, ApplyRule(v, c).world.items);
    }
    hide ApplyRule;
  }

  lemma StepKeepsItemsOk(w: World, c: Call)
    requires ItemsOk(w.items)
    ensures ItemsOk(Step(w, c).world.items)
  {
    StepAccountsForItems(w, c);
    RuleKeepsItems(Clocked(w, c), c);
    hide ApplyRule;
  }

  // ------------------------------------------------------------- whole runs

  lemma {:induction false} RunKeepsItemsOk(k: Kernel, calls: seq<Call>)
    requires ItemsOk(k.world.items)
    ensures ItemsOk(Run(k, calls).world.items)
    decreases |calls|
  {
    hide Step;
    if calls != [] {
      StepKeepsItemsOk(k.world, calls[0]);
      RunKeepsItemsOk(Advance(k, calls[0]), calls[1..]);
    }
  }

  /** Some craft in the run, successful where it stands, involves `id`. */
  ghost predicate SomeCraft(k: Kernel, calls: seq<Call>, id: Id, makes: bool)
    decreases |calls|
  {
    calls != [] &&
    (|| (Crafts(k.world, calls[0]) && id in if makes then Made(calls[0].action) else Spent(calls[0].action))
     || SomeCraft(Advance(k, calls[0]), calls[1..], id, makes))
  }

  /** Over any run an item disappears only into a craft that consumed it, and
      appears only out of a craft that made it. */
  lemma {:induction false} ItemsComeAndGoByCraft(k: Kernel, calls: seq<Call>, id: Id)
    requires DistinctIds(k.world.items)
    ensures id in Ids(k.world.items) && id !in Ids(Run(k, calls).world.items) ==> SomeCraft(k, calls, id, false)
    ensures id !in Ids(k.world.items) && id in Ids(Run(k, calls).world.items) ==> SomeCraft(k, calls, id, true)
    decreases |calls|
  {
    hide Step;
    if calls != [] {
      StepAccountsForItems(k.world, calls[0]);
      ItemsComeAndGoByCraft(Advance(k, calls[0]), calls[1..], id);
    }
  }
}
