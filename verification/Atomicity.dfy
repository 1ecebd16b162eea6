/**
  Failure atomicity: a call that does not succeed leaves the world as it was,
  clock included.  Two rules earn it: craft, whose creation step runs after its
  inputs are gone, and the gate transition, whose state write runs after its
  claim is in the ledger.
 */
module Atomicity {
  import opened KernelTypes
  import opened Lookup
  import opened GateRules
  import opened ItemRules
  import opened ActorRules
  import opened Dispatcher

  /** Removing one record leaves every other identifier found, or not, as before. */
  lemma RemoveItemFindsOthers(w: World, id: Id, other: Id)
    requires other != id
    ensures HasItem(RemoveItem(w, id), other) == HasItem(w, other)
    ensures |RemoveItem(w, id).items| == if HasItem(w, id) then |w.items| - 1 else |w.items|
  {
    hide FirstIndex;
    var i := FindItem(w.items, id);
    var before, after := w.items, RemoveItem(w, id).items;
    if i < |before| {
      if HasItem(w, other) {
        var k := FindItem(before, other);
        assert after[if k < i then k else k - 1] == before[k];
      } else {
        forall j | 0 <= j < |after| ensures after[j].id != other {
          assert after[j] == before[if j < i then j else j + 1];
        }
      }
    }
  }

  /** Disposing of an input never makes an absent identifier appear, and shrinks
      the table by exactly one record when the disposition removes it. */
  lemma DisposeInputCounts(w: World, actor: Id, id: Id, disposition: nat, other: Id)
    requires disposition <= TRANSFORMED && HasItem(w, id) && other != id
    ensures HasItem(DisposeInput(w, actor, id, disposition), other) == HasItem(w, other)
    ensures |DisposeInput(w, actor, id, disposition).items| == |w.items| - if Removes(disposition) then 1 else 0
    ensures DisposeInput(w, actor, id, disposition) == w.(items := DisposeInput(w, actor, id, disposition).items)
  {
    RemoveItemFindsOthers(w, id, other);
  }

  /** After a craft has passed its checks, its creation step cannot fail. */
  lemma CraftCreationCannotFail(w: World, a: Action)
    requires Known(w, a.actor) && CraftRefusal(w, a) == NoReason
    requires a.output != 0 && CheckOutputSlot(w, a) == SlotFree
    ensures CreateStatus(ConsumeInputs(w, a), a) == Success
  {
    var one := if a.item != 0 then DisposeInput(w, a.actor, a.item, a.itemDisposition) else w;
    if a.item != 0 {
      DisposeInputCounts(w, a.actor, a.item, a.itemDisposition, a.output);
      if a.targetItem != 0 {
        DisposeInputCounts(w, a.actor, a.item, a.itemDisposition, a.targetItem);
      }
    }
    if a.targetItem != 0 {
      DisposeInputCounts(one, a.actor, a.targetItem, a.targetDisposition, a.output);
    }
  }

  /** After a transition has passed its checks, writing the gate state cannot fail. */
  lemma StateWriteCannotFail(w: World, a: Action)
    requires Known(w, a.actor) && FindGate(w.gates, a.threshold.gate) < |w.gates|
    requires SettlementRefusal(w, a) == NoReason
    ensures var claimed := w.(claims := w.claims + [NewClaim(a, false)]);
            SetStateStatus(claimed, claimed.gates[FindGate(w.gates, a.threshold.gate)], a.actor,
                           ResultingState(a.threshold.transition)) == Success
  {
  }

  lemma CraftIsAtomic(w: World, a: Action)
    ensures ApplyCraft(w, a).status != Success ==> ApplyCraft(w, a).world == w
  {
    if IsActive(w, a.actor) && CraftRefusal(w, a) == NoReason && a.output != 0
       && CheckOutputSlot(w, a) == SlotFree {
      CraftCreationCannotFail(w, a);
    }
  }

  lemma TransitionIsAtomic(w: World, a: Action, seed: Seed)
    ensures ApplyGateTransition(w, a, seed).status != Success ==> ApplyGateTransition(w, a, seed).world == w
  {
    if Known(w, a.actor) && FindGate(w.gates, a.threshold.gate) < |w.gates|
       && SettlementRefusal(w, a) == NoReason {
      StateWriteCannotFail(w, a);
    }
  }

  lemma PickUpIsAtomic(w: World, a: Action)
    ensures ApplyPickUp(w, a).status != Success ==> ApplyPickUp(w, a).world == w
  {}

  lemma DropIsAtomic(w: World, a: Action)
    ensures ApplyDrop(w, a).status != Success ==> ApplyDrop(w, a).world == w
  {}

  lemma GiveIsAtomic(w: World, a: Action)
    ensures ApplyGive(w, a).status != Success ==> ApplyGive(w, a).world == w
  {}

  lemma TradeIsAtomic(w: World, a: Action)
    ensures ApplyTrade(w, a).status != Success ==> ApplyTrade(w, a).world == w
  {}

  lemma ItemRuleIsAtomic(w: World, c: Call)
    requires IsItemRule(c.action.kind)
    ensures ApplyItemRule(w, c).status != Success ==> ApplyItemRule(w, c).world == w
  {
    var a := c.action;
    match a.kind
    case PickUpItem => PickUpIsAtomic(w, a);
    case DropItem => DropIsAtomic(w, a);
    case GiveItem => GiveIsAtomic(w, a);
    case TradeItem => TradeIsAtomic(w, a);
    case Craft => CraftIsAtomic(w, a);
    case _ =>
  }

  lemma CombatRuleIsAtomic(w: World, c: Call)
    requires IsCombatRule(c.action.kind)
    ensures ApplyCombatRule(w, c).status != Success ==> ApplyCombatRule(w, c).world == w
  {}

  lemma ActorRuleIsAtomic(w: World, c: Call)
    requires IsActorRule(c.action.kind)
    ensures ApplyActorRule(w, c).status != Success ==> ApplyActorRule(w, c).world == w
  {
    hide MoveRefusal;
    hide AttackRefusal;
    hide RescueRefusal;
    hide ReplaceRefusal;
  }

  lemma RuleIsAtomic(w: World, c: Call)
    ensures ApplyRule(w, c).status != Success ==> ApplyRule(w, c).world == w
  {
    hide ApplyItemRule;
    hide ApplyCombatRule;
    hide ApplyActorRule;
    hide ApplyGateTransition;
    hide ApplyReport;
    if IsItemRule(c.action.kind) {
      ItemRuleIsAtomic(w, c);
    } else if IsCombatRule(c.action.kind) {
      CombatRuleIsAtomic(w, c);
    } else if c.action.kind == GateTransition {
      TransitionIsAtomic(w, c.action, c.seed);
    } else if IsActorRule(c.action.kind) {
      ActorRuleIsAtomic(w, c);
    }
  }

  /** For every world and every call: no success, no change. */
  lemma FailureAtomicity(w: World, c: Call)
    ensures Step(w, c).status != Success ==> Step(w, c).world == w
  {
    hide ApplyRule;
    RuleIsAtomic(if c.advance then w.(tick := Next64(w.tick)) else w, c);
  }

  /** Lifted to the kernel's state: a failed call moves only the sequence counter. */
  lemma FailedCallMovesOnlyTheCounter(k: Kernel, c: Call)
    requires Step(k.world, c).status != Success
    ensures Advance(k, c) == k.(nextSeq := Advance(k, c).nextSeq)
  {
    FailureAtomicity(k.world, c);
  }

  predicate AllFail(k: Kernel, calls: seq<Call>)
    decreases |calls|
  {
    calls == [] || (Step(k.world, calls[0]).status != Success && AllFail(Advance(k, calls[0]), calls[1..]))
  }

  /** Over a whole run: any number of failing calls in a row changes nothing else. */
  lemma {:induction false} FailingRunChangesNothing(k: Kernel, calls: seq<Call>)
    requires AllFail(k, calls)
    ensures Run(k, calls).world == k.world
    decreases |calls|
  {
    if calls != [] {
      FailureAtomicity(k.world, calls[0]);
      FailingRunChangesNothing(Advance(k, calls[0]), calls[1..]);
    }
  }
}
