/**
  When a gate transition is applied, told without the handler's own helpers, and
  what it does to the item it names.
 */
module TransitionMeaning {
  import opened KernelTypes
  import opened Lookup
  import opened Carrying
  import opened GateRules
  import opened GateView
  import opened Dispatcher
  import opened Effects
  import opened Atomicity
  import opened GateMeaning

  /** The actor's record, and the gate's, by their identifiers. */
  predicate Stands(w: World, a: Action) {
    var i := FindActor(w.actors, a.actor);
    i < |w.actors| && w.actors[i].status == Active && FindGate(w.gates, a.threshold.gate) < |w.gates|
  }

  /** The offer the call relies on is the evaluation of this very world. */
  predicate RestsOnOffer(w: World, a: Action) {
    var t := a.threshold;
    var e := Evaluate(w, t.gate, a.actor, t.facts, t.methodId);
    && e.Decided? && t.expectedVersion == e.decision.gateVersion
    && t.expectedRevision == e.decision.accessRevision && t.expectedDigest == e.decision.digest
    && (t.transition in {1, 3, 5, 7, 8} ==> e.decision.allowed && t.methodId != 0 && e.decision.methodId == t.methodId)
  }

  /** A check is asked for by resolution one or three, and then has a difficulty. */
  predicate AsksWell(w: World, a: Action) {
    var r := a.threshold.resolution;
    r <= 3 && if r == 1 || r == 3 then 1 <= a.dc <= 0x7FFF && a.ability <= 5 && a.rollMode <= 2 else a.dc == 0
  }

  predicate PassesCheck(w: World, a: Action, seed: Seed)
    requires Stands(w, a)
  {
    var stats := w.actors[FindActor(w.actors, a.actor)].stats;
    a.dc <= ToI16(RollD20(seed, 1, a.rollMode) + ToI16(AbilityModifier(StatValue(stats, a.ability)) + a.modifier))
  }

  /** The gate is not in the state the transition would leave. */
  predicate Changes(state: GateState, transition: nat) {
    match transition
    case 1 => state != Open
    case 2 => state != Closed
    case 3 => state != Broken
    case 4 => state != Closed
    case _ => true
  }

  /** The item fits the transition: five installs, six removes, seven exhausts,
      eight renders inert, and the others take none. */
  predicate SuitsItem(w: World, a: Action)
    requires Stands(w, a)
  {
    var i, actor := FindItem(w.items, a.item), w.actors[FindActor(w.actors, a.actor)];
    var found := a.item != 0 && i < |w.items|;
    match a.threshold.transition
    case 5 => found && w.items[i].holder == a.actor && w.items[i].flags % 2 == 0
    case 6 => found && w.items[i].holder == 0 && w.items[i].zone == Installed && w.items[i].location == actor.location
              && CanExchange(w, actor, |w.items|, i)
    case 7 => found && w.items[i].charges > 0 && AtHand(w.items[i], actor)
    case 8 => found && w.items[i].charges > 0 && AtHand(w.items[i], actor)
    case _ => a.item == 0
  }

  predicate AtHand(x: Item, actor: Actor) {
    x.holder == actor.id || (x.holder == 0 && x.location == actor.location && x.zone == Installed)
  }

  /** Room for the claim, and for the actor's own record if one is needed. */
  predicate HasRoom(w: World, a: Action)
    requires Stands(w, a)
  {
    var gate := w.gates[FindGate(w.gates, a.threshold.gate)];
    |w.claims| < 128
    && (!KeptPerActor(gate) || a.threshold.transition !in {1, 2, 3, 4} || |w.gateActorStates| < 128
        || FindActorState(w.gateActorStates, gate.id, a.actor) < |w.gateActorStates|)
  }

  /** Everything an applied transition needs. */
  predicate MayApply(w: World, a: Action, seed: Seed) {
    var t := a.threshold;
    && Stands(w, a) && t.gate != 0 && t.claim != 0 && 1 <= t.transition <= 8 && |t.facts| <= 8
    && FindClaim(w.claims, t.claim) == |w.claims|
    && RestsOnOffer(w, a) && AsksWell(w, a)
    && (t.resolution == 1 ==> PassesCheck(w, a, seed))
    && Changes(StateFor(w, w.gates[FindGate(w.gates, t.gate)], a.actor), t.transition)
    && SuitsItem(w, a) && HasRoom(w, a)
  }

  lemma RefusalMeans(w: World, a: Action)
    requires Stands(w, a) && |a.threshold.facts| <= MAX_FACTS && |w.claims| < MAX_CLAIMS
    ensures TransitionRefusal(w, a) == NoReason <==> RestsOnOffer(w, a) && AsksWell(w, a)
  {
    hide Evaluate, FirstIndex;
  }

  lemma SettlementMeans(w: World, a: Action)
    requires Stands(w, a) && 1 <= a.threshold.transition <= 8
    ensures SettlementRefusal(w, a) == NoReason <==>
              && Changes(StateFor(w, w.gates[FindGate(w.gates, a.threshold.gate)], a.actor), a.threshold.transition)
              && SuitsItem(w, a) && HasRoom(w, a)
  {
    hide CanExchange, FirstIndex;
  }

  lemma RuleAppliesIff(w: World, a: Action, seed: Seed)
    ensures var o := ApplyGateTransition(w, a, seed);
            o.status == Success && GateTransitionApplied in o.events <==> MayApply(w, a, seed)
  {
    hide TransitionRefusal, SettlementRefusal, MatchesClaim, RestsOnOffer, AsksWell, Changes, SuitsItem, HasRoom, StateFor,
         SetState, MoveTransitionItem, FirstIndex, ToI16;
    if Stands(w, a) {
      if |a.threshold.facts| <= MAX_FACTS && |w.claims| < MAX_CLAIMS {
        RefusalMeans(w, a);
      } else if |w.claims| >= MAX_CLAIMS {
        FullLedgerRefuses(w, a);
      }
      if 1 <= a.threshold.transition <= 8 {
        SettlementMeans(w, a);
        if SettlementRefusal(w, a) == NoReason {
          StateWriteCannotFail(w, a);
        }
      }
    }
    hide SetStateStatus, ResultingState;
  }

  lemma FullLedgerRefuses(w: World, a: Action)
    requires Stands(w, a) && |w.claims| >= MAX_CLAIMS
    ensures SettlementRefusal(w, a) != NoReason && !HasRoom(w, a)
  {
    hide CanExchange, FirstIndex;
  }

  /** Main result: a call applies its transition if and only if nothing bars its
      actor and the world meets everything the transition needs. */
  lemma AppliedIff(w: World, c: Call)
    requires c.action.kind == GateTransition
    ensures Applied(w, c) <==> !BarredByCombat(w, c.action) && MayApply(w, c.action, c.seed)
  {
    hide MayApply, BarredByCombat, ApplyGateTransition;
    var v := Clocked(w, c);
    RuleAppliesIff(v, c.action, c.seed);
    ClockSparesThis(w, c);
    if NamesRecordedClaim(w.claims, c.action) {
      AnsweredFromLedger(w, c);
      RecordedMayNot(w, c.action, c.seed);
    }
  }

  lemma RecordedMayNot(w: World, a: Action, seed: Seed)
    requires NamesRecordedClaim(w.claims, a)
    ensures !MayApply(w, a, seed)
  {
    hide RestsOnOffer, SuitsItem, HasRoom, PassesCheck, StateFor;
  }

  lemma ClockSparesItem(w: World, v: World, a: Action)
    requires v == w.(tick := v.tick) && Stands(w, a) && Stands(v, a)
    ensures SuitsItem(v, a) <==> SuitsItem(w, a)
  {
    var i := FindItem(w.items, a.item);
    var actor := w.actors[FindActor(w.actors, a.actor)];
    assert CanExchange(v, actor, |w.items|, i) == CanExchange(w, actor, |w.items|, i);
    hide CanExchange, AtHand, FirstIndex;
  }

  lemma ClockSparesThis(w: World, c: Call)
    ensures MayApply(Clocked(w, c), c.action, c.seed) <==> MayApply(w, c.action, c.seed)
  {
    var v, a := Clocked(w, c), c.action;
    assert Stands(v, a) <==> Stands(w, a);
    if Stands(w, a) {
      ClockSparesItem(w, v, a);
      hide SuitsItem;
      assert PassesCheck(v, a, c.seed) == PassesCheck(w, a, c.seed);
      SameEvaluation(w, v, a.threshold.gate, a.actor, a.threshold.facts, a.threshold.methodId);
    }
    hide Evaluate, FirstIndex, PassesCheck, AsksWell, Changes;
  }

  // ------------------------------------------------------------- what it does

  /** What becomes of the item of an applied transition. */
  function Moved(x: Item, transition: nat, actor: Actor, tick: nat): Item {
    match transition
    case 5 => x.(holder := 0, location := actor.location, heldSince := 0, zone := Installed, container := 0)
    case 6 => x.(holder := actor.id, location := 0, heldSince := tick, zone := Carried, container := 0)
    case 7 => x.(charges := 0, zone := Exhausted,
                 recoveryZone := if x.zone == NoZone || x.zone == Exhausted then x.recoveryZone else x.zone)
    case 8 => x.(charges := 0, flags := if x.flags % 2 == 0 then x.flags + 1 else x.flags)
    case _ => x
  }

  function ItemEvents(transition: nat): seq<EventKind> {
    match transition
    case 5 => [ItemInstalled] case 6 => [ItemRemoved] case 7 => [ItemExhausted] case 8 => [ItemRenderedInert] case _ => []
  }

  predicate ClaimIs(claim: Claim, a: Action, failed: bool) {
    claim == Claim(a.threshold.claim, a.threshold.gate, a.actor, a.item, a.threshold.methodId, a.threshold.transition, failed)
  }

  lemma MovementMeans(w: World, a: Action)
    requires Stands(w, a) && SuitsItem(w, a)
    ensures MoveTransitionItem(w, a).items
         == if a.item == 0 || a.threshold.transition !in {5, 6, 7, 8} then w.items
            else var i := FindItem(w.items, a.item);
                 w.items[i := Moved(w.items[i], a.threshold.transition, w.actors[FindActor(w.actors, a.actor)], w.tick)]
  {
    hide CanExchange, FirstIndex;
  }

  lemma SettlementDoes(w: World, a: Action, before: seq<EventKind>)
    requires Stands(w, a) && 1 <= a.threshold.transition <= 8 && SettleTransition(w, a, before).status == Success
    ensures var o := SettleTransition(w, a, before);
            && SuitsItem(w, a)
            && o.world.items == MoveTransitionItem(w, a).items
            && |o.world.claims| == |w.claims| + 1 && o.world.claims[..|w.claims|] == w.claims
            && ClaimIs(o.world.claims[|w.claims|], a, false)
            && o.events == before + [GateTransitionApplied] + ItemEvents(a.threshold.transition)
  {
    SettlementMeans(w, a);
    var g, state := FindGate(w.gates, a.threshold.gate), ResultingState(a.threshold.transition);
    var claimed := w.(claims := w.claims + [NewClaim(a, false)]);
    var moved := SetState(claimed, g, a.actor, state);
    assert moved.items == w.items && moved.actors == w.actors && moved.tick == w.tick && moved.claims == claimed.claims;
    assert SettleTransition(w, a, before).world == RaiseRevision(MoveTransitionItem(moved, a));
    MovementKeepsGates(moved, a);
    assert MoveTransitionItem(moved, a).items == MoveTransitionItem(w, a).items by {
      hide SetState, SetStateStatus;
    }
    hide SettlementRefusal, SetState, SetStateStatus, MoveTransitionItem, SuitsItem, Changes, HasRoom, StateFor;
  }

  /** The check, if one is asked for, is told with its outcome. */
  function CheckEvents(w: World, a: Action, seed: Seed): seq<EventKind>
    requires Stands(w, a)
  {
    if a.threshold.resolution == 1 || a.threshold.resolution == 3 then [AbilityCheckRolled(PassesCheck(w, a, seed))] else []
  }

  /** What a transition does besides the gate's state. */
  predicate Does(w: World, r: World, a: Action, tick: nat)
    requires Stands(w, a)
  {
    var t, n, i := a.threshold.transition, |w.claims|, FindItem(w.items, a.item);
    && (t !in {5, 6, 7, 8} ==> r.items == w.items)
    && (t in {5, 6, 7, 8} ==>
          i < |w.items| && r.items == w.items[i := Moved(w.items[i], t, w.actors[FindActor(w.actors, a.actor)], tick)])
    && |r.claims| == n + 1 && r.claims[..n] == w.claims && ClaimIs(r.claims[n], a, false)
    && r.actors == w.actors && r.exits == w.exits && r.encounters == w.encounters
  }

  lemma SettledDoes(w: World, a: Action, before: seq<EventKind>)
    requires Stands(w, a) && 1 <= a.threshold.transition <= 8 && SettleTransition(w, a, before).status == Success
    ensures SuitsItem(w, a) && Does(w, SettleTransition(w, a, before).world, a, w.tick)
    ensures SettleTransition(w, a, before).events == before + [GateTransitionApplied] + ItemEvents(a.threshold.transition)
  {
    SettlementEffect(w, a, before);
    SettlementDoes(w, a, before);
    MovementMeans(w, a);
    hide SettleTransition, MoveTransitionItem, Moved, FirstIndex, ClaimIs, CanExchange;
  }

  lemma ClockSparesDoes(w: World, v: World, r: World, a: Action, seed: Seed)
    requires v == w.(tick := v.tick) && Stands(v, a)
    ensures Stands(w, a) && (SuitsItem(v, a) <==> SuitsItem(w, a))
    ensures Does(v, r, a, v.tick) <==> Does(w, r, a, v.tick)
    ensures (if a.threshold.resolution == 1 || a.threshold.resolution == 3
             then [AbilityCheckRolled(CheckTotal(GetActor(v, a.actor), a, seed) >= a.dc)] else []) == CheckEvents(w, a, seed)
  {
    ClockSparesItem(w, v, a);
    hide SuitsItem, Moved, ClaimIs, ToI16, RollD20, AbilityModifier, StatValue, FirstIndex;
  }

  /** Main result: what an applied transition does besides the gate's state. */
  lemma AppliedDoes(w: World, c: Call)
    requires Applied(w, c)
    ensures var a := c.action;
            && Stands(w, a) && SuitsItem(w, a) && Does(w, Step(w, c).world, a, Clocked(w, c).tick)
            && Step(w, c).events == CheckEvents(w, a, c.seed) + [GateTransitionApplied] + ItemEvents(a.threshold.transition)
  {
    hide *;
    var v, a := Clocked(w, c), c.action;
    var before := AppliedIsSettled(w, c);
    AppliedStands(w, c);
    ClockedIs(w, c);
    SettledDoes(v, a, before);
    ClockSparesDoes(w, v, Step(w, c).world, a, c.seed);
  }

  lemma ClockedIs(w: World, c: Call)
    ensures Clocked(w, c) == w.(tick := Clocked(w, c).tick)
  {}

  lemma AppliedStands(w: World, c: Call)
    requires Applied(w, c)
    ensures Stands(Clocked(w, c), c.action) && 1 <= c.action.threshold.transition <= 8
  {
    AppliedIff(w, c);
    hide Applied, BarredByCombat, RestsOnOffer, AsksWell, Changes, HasRoom, SuitsItem, StateFor, FirstIndex;
  }

  /** The other success of a new claim: the check of resolution one is failed, the
      claim is spent, and the world is otherwise left alone. */
  lemma FailedAttempt(w: World, c: Call)
    requires c.action.kind == GateTransition && Step(w, c).status == Success && !Applied(w, c)
    requires !NamesRecordedClaim(w.claims, c.action)
    ensures var r, a, n := Step(w, c).world, c.action, |w.claims|;
            && Stands(w, a) && a.threshold.resolution == 1 && !PassesCheck(w, a, c.seed)
            && Step(w, c).events == [AbilityCheckRolled(false)]
            && |r.claims| == n + 1 && r.claims[..n] == w.claims && ClaimIs(r.claims[n], a, true)
            && r == w.(claims := r.claims, tick := r.tick, accessRevision := r.accessRevision)
  {
    hide *;
    var v, a := Clocked(w, c), c.action;
    UnbarredTransition(w, c);
    RuleOfTransition(w, c);
    StepIsTheRule(w, c);
    ClockedIs(w, c);
    NewClaimIsNew(w, a);
    SuccessAppliesOrFails(v, a, c.seed);
    ClockSparesCheck(w, v, a, c.seed);
  }

  lemma UnbarredTransition(w: World, c: Call)
    requires c.action.kind == GateTransition && Step(w, c).status == Success && !Applied(w, c)
    requires !NamesRecordedClaim(w.claims, c.action)
    ensures !BarredByCombat(w, c.action) && GateTransitionApplied !in Step(w, c).events
  {
    hide ApplyRule, BarredByCombat;
  }

  lemma NewClaimIsNew(w: World, a: Action)
    requires a.kind == GateTransition && !NamesRecordedClaim(w.claims, a)
    ensures a.threshold.claim != 0 ==> FindClaim(w.claims, a.threshold.claim) == |w.claims|
  {
    hide FirstIndex;
  }

  lemma ClockSparesCheck(w: World, v: World, a: Action, seed: Seed)
    requires v == w.(tick := v.tick) && Stands(v, a)
    ensures Stands(w, a) && PassesCheck(w, a, seed) == PassesCheck(v, a, seed)
  {
    hide ToI16, RollD20, AbilityModifier, StatValue, FirstIndex;
  }

  lemma RuleOfTransition(w: World, c: Call)
    requires c.action.kind == GateTransition
    ensures ApplyRule(Clocked(w, c), c) == ApplyGateTransition(Clocked(w, c), c.action, c.seed)
  {
    hide ApplyGateTransition;
  }

  lemma SuccessAppliesOrFails(w: World, a: Action, seed: Seed)
    requires ApplyGateTransition(w, a, seed).status == Success
    requires a.threshold.claim != 0 ==> FindClaim(w.claims, a.threshold.claim) == |w.claims|
    ensures var o, n := ApplyGateTransition(w, a, seed), |w.claims|;
            || GateTransitionApplied in o.events
            || (&& Stands(w, a) && a.threshold.resolution == 1 && !PassesCheck(w, a, seed)
                && o.events == [AbilityCheckRolled(false)]
                && |o.world.claims| == n + 1 && o.world.claims[..n] == w.claims && ClaimIs(o.world.claims[n], a, true)
                && o.world == w.(claims := o.world.claims, accessRevision := o.world.accessRevision))
  {
    hide TransitionRefusal, SettlementRefusal, SetState, SetStateStatus, MoveTransitionItem, MatchesClaim, ToI16, RollD20,
         AbilityModifier, StatValue, FirstIndex;
  }
}
