/**
  No stale authorisation, call by call.  Every effective call raises the access
  revision, a gate offer is honoured only at the revision it was made for, and
  one call moves nobody but its own actor, along a crossing allowed in the very
  state that commits it.
 */
module Travel {
  import opened KernelTypes
  import opened Lookup
  import opened GateRules
  import opened GateView
  import opened CombatRules
  import opened ActorRules
  import opened Dispatcher
  import opened Effects
  import opened Atomicity
  import opened Claims

  // -------------------------------------------------------------- revisions

  lemma SettlementRaises(w: World, a: Action, before: seq<EventKind>)
    requires Known(w, a.actor) && FindGate(w.gates, a.threshold.gate) < |w.gates|
    ensures var o := SettleTransition(w, a, before);
            o.status == Success ==> o.world.accessRevision == Raise64(w.accessRevision)
  {
    hide SettlementRefusal;
  }

  lemma TransitionRaises(w: World, a: Action, seed: Seed)
    requires FindClaim(w.claims, a.threshold.claim) == |w.claims|
    ensures var o := ApplyGateTransition(w, a, seed);
            o.status == Success ==> o.world.accessRevision == Raise64(w.accessRevision)
  {
    hide TransitionRefusal;
    hide CheckTotal;
    if Known(w, a.actor) && FindGate(w.gates, a.threshold.gate) < |w.gates| {
      SettlementRaises(w, a, []);
      SettlementRaises(w, a, [AbilityCheckRolled(CheckTotal(GetActor(w, a.actor), a, seed) >= a.dc)]);
    }
    hide SettleTransition;
  }

  /** Success raises the revision by one, short of saturation, for every call
      but the repeat of a recorded claim; anything else leaves it alone. */
  lemma EverySuccessRaisesRevision(w: World, c: Call)
    ensures Step(w, c).world.accessRevision
         == if Step(w, c).status == Success && !IsRetry(w.claims, c.action)
            then Raise64(w.accessRevision) else w.accessRevision
  {
    hide ApplyItemRule;
    hide ApplyCombatRule;
    hide ApplyActorRule;
    hide ApplyGateTransition;
    hide ApplyReport;
    hide BarredByCombat;
    FailureAtomicity(w, c);
    if c.action.kind != GateTransition {
      RuleFrame(Clocked(w, c), c);
      hide ApplyRule;
    } else if FindClaim(w.claims, c.action.threshold.claim) == |w.claims| {
      TransitionRaises(Clocked(w, c), c.action, c.seed);
    } else if c.action.threshold.claim == 0 {
      TransitionLedger(Clocked(w, c), c.action, c.seed);
    }
  }

  /** A success that is not a mere repeat. */
  predicate Effective(w: World, c: Call) {
    Step(w, c).status == Success && !IsRetry(w.claims, c.action)
  }

  /** The actor's exit towards the destination has a gate bound to it. */
  predicate FacesGate(w: World, a: Action) {
    Known(w, a.actor) && FindExitGate(w.gates, GetActor(w, a.actor).location, a.destination) < |w.gates|
  }

  lemma StaleJourneyFails(w: World, a: Action)
    requires a.threshold.expectedRevision != w.accessRevision && FacesGate(w, a)
    ensures ApplyMove(w, a).status != Success
    ensures ApplyFlee(w, a).status != Success
    ensures ApplyEscape(w, a).status != Success
  {
    var gate := w.gates[FindExitGate(w.gates, GetActor(w, a.actor).location, a.destination)];
    OldOfferIsNotCurrent(w, gate.id, a.actor, a.threshold);
    hide OfferIsCurrent;
    hide TurnRefusal;
  }

  lemma StaleTransitionFails(w: World, a: Action, seed: Seed)
    requires a.threshold.expectedRevision != w.accessRevision
    requires FindClaim(w.claims, a.threshold.claim) == |w.claims|
    ensures ApplyGateTransition(w, a, seed).status != Success
  {
    OldOfferIsNotCurrent(w, a.threshold.gate, a.actor, a.threshold);
    hide OfferIsCurrent;
    hide SettleTransition;
  }

  lemma JourneyRule(w: World, c: Call)
    requires c.action.kind == Move || c.action.kind == Flee || c.action.kind == CombatEscape
    ensures ApplyRule(w, c) == (if c.action.kind == Move then ApplyMove(w, c.action)
                                else if c.action.kind == Flee then ApplyFlee(w, c.action) else ApplyEscape(w, c.action))
  {
    hide ApplyMove;
    hide ApplyFlee;
    hide ApplyEscape;
    hide ApplyItemRule;
    hide ApplyGateTransition;
  }

  lemma StaleJourneyCallFails(w: World, c: Call)
    requires c.action.kind == Move || c.action.kind == Flee || c.action.kind == CombatEscape
    requires c.action.threshold.expectedRevision != w.accessRevision && FacesGate(w, c.action)
    ensures Step(w, c).status != Success
  {
    hide ApplyRule;
    hide ApplyMove;
    hide ApplyFlee;
    hide ApplyEscape;
    hide BarredByCombat;
    assert FacesGate(Clocked(w, c), c.action);
    StaleJourneyFails(Clocked(w, c), c.action);
    JourneyRule(Clocked(w, c), c);
  }

  lemma StaleTransitionCallFails(w: World, c: Call)
    requires c.action.kind == GateTransition && !NamesRecordedClaim(w.claims, c.action)
    requires c.action.threshold.expectedRevision != w.accessRevision
    ensures Step(w, c).status != Success
  {
    hide ApplyGateTransition;
    hide BarredByCombat;
    var v, a := Clocked(w, c), c.action;
    assert ApplyRule(v, c) == ApplyGateTransition(v, a, c.seed);
    hide ApplyRule;
    if FindClaim(v.claims, a.threshold.claim) == |v.claims| {
      StaleTransitionFails(v, a, c.seed);
    } else {
      TransitionLedger(v, a, c.seed);
    }
  }

  /** And a call that relies on such an offer fails: a transition always, a
      journey whenever a gate is bound to its exit. */
  lemma StaleCallFails(w: World, c: Call)
    requires c.action.threshold.expectedRevision != w.accessRevision
    requires || (c.action.kind == GateTransition && !NamesRecordedClaim(w.claims, c.action))
             || ((c.action.kind == Move || c.action.kind == Flee || c.action.kind == CombatEscape)
                 && FacesGate(w, c.action))
    ensures Step(w, c).status != Success && Step(w, c).world == w
  {
    hide Step;
    FailureAtomicity(w, c);
    if c.action.kind == GateTransition {
      StaleTransitionCallFails(w, c);
    } else {
      StaleJourneyCallFails(w, c);
    }
  }

  // --------------------------------------------------------------- movement

  /** The gate, asked in this state with these facts and this method, says yes. */
  predicate Admits(w: World, gate: Gate, actor: Id, facts: seq<Fact>, wanted: Id) {
    var e := Evaluate(w, gate.id, actor, facts, wanted);
    e.Decided? && e.decision.allowed && e.decision.accessRevision == w.accessRevision
  }

  /** An existing exit that is unlocked; or one with a gate, for which the caller
      holds an offer that is current in this state, which admits the actor under
      that offer's own facts and method, and which overrides the recorded lock. */
  predicate LegalCrossing(w: World, actor: Id, from: Id, to: Id, t: Threshold) {
    var x, g := FindExit(w.exits, from, to), FindExitGate(w.gates, from, to);
    && x < |w.exits|
    && if g == |w.gates| then !w.exits[x].locked
       else && t.gate == w.gates[g].id && OfferIsCurrent(w, t.gate, actor, t)
            && Admits(w, w.gates[g], actor, t.facts, t.methodId) && (w.exits[x].locked ==> w.gates[g].recordedLock)
  }

  lemma ClearMeansLegal(w: World, v: World, actor: Id, from: Id, to: Id, t: Threshold)
    requires SameView(w, v) && w.exits == v.exits
    requires FindExit(v.exits, from, to) < |v.exits|
    ensures CrossingOf(v, actor, v.exits[FindExit(v.exits, from, to)], t) == Clear <==> LegalCrossing(w, actor, from, to, t)
  {
    var g := FindExitGate(w.gates, from, to);
    SameCrossing(w, v, actor, v.exits[FindExit(v.exits, from, to)], t);
    if g < |w.gates| {
      DecisionCarriesRevision(w, w.gates[g].id, actor, t.facts, t.methodId);
      hide Evaluate;
    }
  }

  lemma TravellerCrossesLegally(w: World, v: World, a: Action)
    requires SameView(w, v) && w.exits == v.exits && Known(v, a.actor)
    requires MoveRefusal(v, a) == NoReason || EscapeRefusal(v, a) == NoReason
    ensures LegalCrossing(w, a.actor, GetActor(w, a.actor).location, a.destination, a.threshold)
  {
    hide CrossingOf, LegalCrossing;
    ClearMeansLegal(w, v, a.actor, GetActor(v, a.actor).location, a.destination, a.threshold);
  }

  lemma EscapeArrives(w: World, a: Action)
    requires ApplyEscape(w, a).status == Success
    ensures Known(w, a.actor) && EscapeRefusal(w, a) == NoReason
    ensures ApplyEscape(w, a).world.actors[FindActor(w.actors, a.actor)].location == a.destination
  {
    assert HoldsTurn(w, a) && EscapeRefusal(w, a) == NoReason;
    assert ReferredEncounter(w, a) < |w.encounters|;
    hide EscapeRefusal;
    hide TurnRefusal;
    var v := CommitEscape(w, a, ReferredEncounter(w, a));
    FinishTurnEffect(v, v, ReferredEncounter(w, a), |v.actors|);
    hide FinishTurn;
  }

  /** Where the record at an index stands after a rule. */
  predicate LandsLegally(w: World, r: World, a: Action, i: nat)
    requires i < |w.actors| <= |r.actors|
  {
    || r.actors[i].location == w.actors[i].location
    || (&& i == FindActor(w.actors, a.actor) && r.actors[i].location == a.destination
        && (MoveRefusal(w, a) == NoReason || EscapeRefusal(w, a) == NoReason))
  }

  lemma CombatRuleLandsLegally(w: World, c: Call, i: nat)
    requires IsCombatRule(c.action.kind) && i < |w.actors|
    ensures |w.actors| <= |ApplyCombatRule(w, c).world.actors|
    ensures LandsLegally(w, ApplyCombatRule(w, c).world, c.action, i)
  {
    hide MoveRefusal, EscapeRefusal, ApplyEscape, FindActor;
    CombatRuleEffect(w, c);
    if c.action.kind == CombatEscape {
      EscapeEffect(w, c.action);
      CombatRuleIsAtomic(w, c);
      if ApplyEscape(w, c.action).status == Success {
        EscapeArrives(w, c.action);
      }
    } else {
      hide ApplyCombatRule;
    }
  }

  lemma ActorRuleLandsLegally(w: World, c: Call, i: nat)
    requires IsActorRule(c.action.kind) && i < |w.actors|
    ensures |w.actors| <= |ApplyActorRule(w, c).world.actors|
    ensures LandsLegally(w, ApplyActorRule(w, c).world, c.action, i)
  {
    hide MoveRefusal, EscapeRefusal, FindActor;
    ActorRuleEffect(w, c);
    if c.action.kind == Move || c.action.kind == Flee {
      TravelEffect(w, c.action);
    } else {
      hide ApplyActorRule;
    }
  }

  lemma RuleLandsLegally(w: World, c: Call, i: nat)
    requires i < |w.actors|
    ensures |w.actors| <= |ApplyRule(w, c).world.actors|
    ensures LandsLegally(w, ApplyRule(w, c).world, c.action, i)
  {
    hide MoveRefusal, EscapeRefusal, ApplyItemRule, ApplyCombatRule, ApplyActorRule, ApplyGateTransition, ApplyReport, FindActor;
    var a := c.action;
    if IsItemRule(a.kind) {
      ItemRuleEffect(w, c);
    } else if IsCombatRule(a.kind) {
      CombatRuleLandsLegally(w, c, i);
    } else if a.kind == GateTransition {
      GateTransitionEffect(w, a, c.seed);
    } else if IsActorRule(a.kind) {
      ActorRuleLandsLegally(w, c, i);
    }
  }

  /** One call moves nobody but its own actor, and that one along a crossing that
      is legal under the call's own threshold. */
  lemma StepMovesLegally(w: World, c: Call, id: Id)
    requires Known(w, id)
    ensures var r := Step(w, c).world;
            && Known(r, id)
            && (|| GetActor(r, id).location == GetActor(w, id).location
                || (&& id == c.action.actor && GetActor(r, id).location == c.action.destination
                    && LegalCrossing(w, id, GetActor(w, id).location, c.action.destination, c.action.threshold)))
  {
    hide ApplyRule;
    StepFrame(w, c);
    var r := Step(w, c).world;
    ActorPrefix(w.actors, r.actors, id);
    hide LegalCrossing;
    var i := FindActor(w.actors, id);
    if !NamesRecordedClaim(w.claims, c.action) && !BarredByCombat(w, c.action) {
      var v := Clocked(w, c);
      RuleLandsLegally(v, c, i);
      if id == c.action.actor {
        if MoveRefusal(v, c.action) == NoReason || EscapeRefusal(v, c.action) == NoReason {
          TravellerCrossesLegally(w, v, c.action);
        }
      }
    }
  }

  lemma LegalMeansThereIsAnExit(w: World, actor: Id, from: Id, to: Id, t: Threshold)
    requires LegalCrossing(w, actor, from, to, t)
    ensures FindExit(w.exits, from, to) < |w.exits|
  {}

  lemma ExitsStay(before: seq<Exit>, after: seq<Exit>, from: Id, to: Id)
    requires OnlyUnlocks(before, after)
    ensures FindExit(before, from, to) == FindExit(after, from, to)
  {}
}
