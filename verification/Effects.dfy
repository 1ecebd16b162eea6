/**
  What each family of rules can touch.  Item rules change items and may evolve
  actors; combat rules change encounters and actors; the remaining rules change
  actors, at most one item, or one exit's lock.  The laws about whole runs rest
  on these summaries instead of on the rules' bodies.
 */
module Effects {
  import opened KernelTypes
  import opened Lookup
  import opened GateRules
  import opened ItemRules
  import opened CombatRules
  import opened ActorRules
  import opened Dispatcher
  import opened Atomicity

  // ------------------------------------------------------------------ actors

  /** The same actor in the same place, as strong, no less able and no less evolved. */
  predicate SteadyActor(a: Actor, b: Actor) {
    && b.id == a.id && b.location == a.location && b.stats.strength == a.stats.strength
    && (a.status == Active ==> b.status == Active)
    && (a.stats.level >= 2 ==> b.stats.level >= 2)
  }

  predicate SteadyActors(before: seq<Actor>, after: seq<Actor>) {
    && |before| == |after|
    && forall i :: 0 <= i < |before| ==> SteadyActor(before[i], after[i])
  }

  lemma EvolveIsSteady(w: World, i: nat)
    requires i <= |w.tracks|
    ensures var e := Evolve(w, i);
            e.world == w.(actors := e.world.actors) && SteadyActors(w.actors, e.world.actors)
    decreases |w.tracks| - i
  {
    if i < |w.tracks| {
      if ReadyToEvolve(w, w.tracks[i]) {
        EvolveIsSteady(PutActor(w, Evolved(GetActor(w, w.tracks[i].actor))), i + 1);
      } else {
        EvolveIsSteady(w, i + 1);
      }
    }
  }

  // ------------------------------------------------------------------- items

  predicate SameIds(before: seq<Item>, after: seq<Item>) {
    && |before| == |after|
    && forall i :: 0 <= i < |before| ==> before[i].id == after[i].id
  }

  /** An item rule leaves every other table alone. */
  predicate ItemEffect(w: World, r: World) {
    && r == w.(items := r.items, actors := r.actors)
    && SteadyActors(w.actors, r.actors)
  }

  lemma PlacementIsSteady(w: World, events: seq<EventKind>)
    ensures var r := Placed(w, events).world; r == w.(actors := r.actors) && SteadyActors(w.actors, r.actors)
    ensures var r := PlacedTwice(w, events).world; r == w.(actors := r.actors) && SteadyActors(w.actors, r.actors)
  {
    EvolveIsSteady(w, 0);
    EvolveIsSteady(EvolveAll(w).world, 0);
  }

  lemma PickUpEffect(w: World, a: Action)
    ensures var r := ApplyPickUp(w, a).world; ItemEffect(w, r) && SameIds(w.items, r.items)
  {
    hide PickUpRefusal;
    if IsActive(w, a.actor) && PickUpRefusal(w, a) == NoReason {
      PlacementIsSteady(CommitPickUp(w, a),
                        if NeedsExchange(w, a) then [ItemDropped, ItemPickedUp] else [ItemPickedUp]);
    }
  }

  lemma DropEffect(w: World, a: Action)
    ensures var r := ApplyDrop(w, a).world; ItemEffect(w, r) && SameIds(w.items, r.items)
  {
    hide DropRefusal;
    if IsActive(w, a.actor) && DropRefusal(w, a) == NoReason {
      PlacementIsSteady(CommitDrop(w, a), [ItemDropped]);
    }
  }

  lemma GiveEffect(w: World, a: Action)
    ensures var r := ApplyGive(w, a).world; ItemEffect(w, r) && SameIds(w.items, r.items)
  {
    hide GiveRefusal;
    if IsActive(w, a.actor) && GiveRefusal(w, a) == NoReason {
      PlacementIsSteady(CommitGive(w, a), [ItemGiven]);
    }
  }

  lemma TradeEffect(w: World, a: Action)
    ensures var r := ApplyTrade(w, a).world; ItemEffect(w, r) && SameIds(w.items, r.items)
  {
    hide TradeRefusal;
    if IsActive(w, a.actor) && TradeRefusal(w, a) == NoReason {
      PlacementIsSteady(CommitTrade(w, a), [ItemTraded]);
    }
  }

  lemma SearchEffect(w: World, a: Action)
    ensures var r := ApplySearch(w, a).world; ItemEffect(w, r) && SameIds(w.items, r.items)
  {
    hide SearchRefusal;
    if IsActive(w, a.actor) && SearchRefusal(w, a) == NoReason {
      PlacementIsSteady(CommitSearch(w, a), [ItemFound]);
    }
  }

  lemma UseEffect(w: World, a: Action)
    ensures var r := ApplyUseItem(w, a).world; ItemEffect(w, r) && SameIds(w.items, r.items)
  {
    if IsActive(w, a.actor) && UseRefusal(w, a) == NoReason {
      hide UseRefusal;
      var healed := PutActor(w, Healed(GetActor(w, Aim(a))));
      assert SteadyActors(w.actors, healed.actors);
    }
  }

  lemma MagicEffect(w: World, a: Action)
    ensures var r := ApplyMagic(w, a).world; ItemEffect(w, r) && SameIds(w.items, r.items)
  {
    hide CurrentHp;
  }

  lemma TheftEffect(w: World, a: Action, seed: Seed)
    ensures var r := ApplyTheft(w, a, seed).world; ItemEffect(w, r) && SameIds(w.items, r.items)
    ensures var r := ApplyReveal(w, a).world; ItemEffect(w, r) && SameIds(w.items, r.items)
  {}

  lemma RestEffect(w: World, a: Action, buffered: bool)
    ensures var r := ApplyRest(w, a, buffered).world; ItemEffect(w, r) && SameIds(w.items, r.items)
  {}

  lemma CommitCraftEffect(used: World, a: Action, events: seq<EventKind>)
    ensures ItemEffect(used, CommitCraft(used, a, events).world)
  {
    hide CreateStatus;
    PlacementIsSteady(used, events);
    PlacementIsSteady(used.(items := used.items + [OutputItem(a, used.tick)]), events + [ItemCreated]);
  }

  lemma CraftEffect(w: World, a: Action)
    ensures ItemEffect(w, ApplyCraft(w, a).world)
  {
    hide CraftRefusal;
    hide CheckOutputSlot;
    hide ConsumeInputs;
    CommitCraftEffect(ConsumeInputs(w, a), a, [ItemCrafted] + InputEvents(a));
    hide CommitCraft;
  }

  lemma ItemRuleEffect(w: World, c: Call)
    requires IsItemRule(c.action.kind)
    ensures ItemEffect(w, ApplyItemRule(w, c).world)
    ensures c.action.kind != Craft ==> SameIds(w.items, ApplyItemRule(w, c).world.items)
  {
    var a := c.action;
    match a.kind
    case PickUpItem => PickUpEffect(w, a);
    case DropItem => DropEffect(w, a);
    case GiveItem => GiveEffect(w, a);
    case TradeItem => TradeEffect(w, a);
    case Search => SearchEffect(w, a);
    case Craft => CraftEffect(w, a);
    case RulesUtilizeItem =>
    case Theft => TheftEffect(w, a, c.seed);
    case RevealItem => TheftEffect(w, a, c.seed);
    case Rest => RestEffect(w, a, c.buffered);
    case UseItem => UseEffect(w, a);
    case RulesMagic => MagicEffect(w, a);
  }

  // ------------------------------------------------------------------ combat

  /** Nobody leaves the actor table, changes identifier or strength, or loses an evolution. */
  predicate KeepsActors(before: seq<Actor>, after: seq<Actor>) {
    && |before| <= |after|
    && forall i :: 0 <= i < |before| ==>
         && before[i].id == after[i].id && before[i].stats.strength == after[i].stats.strength
         && (before[i].stats.level >= 2 ==> after[i].stats.level >= 2)
  }

  /** Everybody stands where they stood, save the record at index `mover`. */
  predicate OnlyMoves(before: seq<Actor>, after: seq<Actor>, mover: nat) {
    && |before| <= |after|
    && forall i :: 0 <= i < |before| && i != mover ==> after[i].location == before[i].location
  }

  predicate StaysPut(before: seq<Actor>, after: seq<Actor>) {
    OnlyMoves(before, after, |before|)
  }

  /** Records rewritten in place, none moved but possibly the one at `mover`. */
  predicate Edited(before: seq<Actor>, after: seq<Actor>, mover: nat) {
    |before| == |after| && KeepsActors(before, after) && OnlyMoves(before, after, mover)
  }

  lemma PutEdits(w: World, x: Actor, mover: nat)
    requires Known(w, x.id)
    requires x.stats.strength == GetActor(w, x.id).stats.strength
    requires GetActor(w, x.id).stats.level >= 2 ==> x.stats.level >= 2
    requires FindActor(w.actors, x.id) == mover || x.location == GetActor(w, x.id).location
    ensures Edited(w.actors, PutActor(w, x).actors, mover)
  {}

  lemma EditedTwice(first: seq<Actor>, second: seq<Actor>, third: seq<Actor>, mover: nat)
    requires Edited(first, second, mover) && Edited(second, third, mover)
    ensures Edited(first, third, mover)
  {}

  /** A combat rule rewrites encounters and actor records. */
  predicate CombatEffect(w: World, r: World, mover: nat) {
    && r == w.(actors := r.actors, encounters := r.encounters)
    && Edited(w.actors, r.actors, mover)
  }

  lemma StopDodgingEffect(w: World, actor: Id, mover: nat)
    ensures CombatEffect(w, StopDodging(w, actor), mover)
  {
    if Known(w, actor) {
      PutEdits(w, GetActor(w, actor).(conditions := GetActor(w, actor).conditions.(dodging := false)), mover);
    }
    hide PutActor;
  }

  lemma FinishTurnEffect(w: World, v: World, k: nat, mover: nat)
    requires CombatEffect(w, v, mover) && k < |v.encounters|
    ensures CombatEffect(w, FinishTurn(v, k).world, mover)
  {
    hide AdvanceTurn;
    hide SideCanAct;
    var e := v.encounters[k];
    if |e.participants| > 0 {
      var next := AdvanceTurn(v, e);
      var turned := v.(encounters := v.encounters[k := next]);
      StopDodgingEffect(turned, CurrentActor(next), mover);
      EditedTwice(w.actors, turned.actors, StopDodging(turned, CurrentActor(next)).actors, mover);
    }
    hide StopDodging;
    hide CurrentActor;
    hide Edited;
  }

  lemma StrikeEffect(w: World, target: Id, blow: Blow, mover: nat)
    requires Known(w, target)
    ensures CombatEffect(w, Strike(w, target, blow), mover)
  {
    match blow
    case Miss =>
    case Hit(damage, knocksOut) => PutEdits(w, Damaged(GetActor(w, target), damage, knocksOut), mover);
  }

  lemma CombatAttackEffect(w: World, a: Action, seed: Seed, finesse: bool)
    ensures CombatEffect(w, ApplyCombatAttack(w, a, seed, finesse).world, |w.actors|)
  {
    hide CombatBlow;
    if HoldsTurn(w, a) && CombatAttackRefusal(w, a) == NoReason {
      assert Known(w, a.target) && ReferredEncounter(w, a) < |w.encounters|;
      hide CombatAttackRefusal;
      hide TurnRefusal;
      var blow := CombatBlow(w, a, seed, finesse);
      StrikeEffect(w, a.target, blow, |w.actors|);
      hide Strike;
      FinishTurnEffect(w, Strike(w, a.target, blow), ReferredEncounter(w, a), |w.actors|);
      hide FinishTurn;
      hide CombatEffect;
    }
  }

  lemma {:induction false} StopAllDodgingEffect(w: World, participants: seq<Participant>, j: nat)
    requires j <= |participants|
    ensures CombatEffect(w, StopAllDodging(w, participants, j), |w.actors|)
    decreases |participants| - j
  {
    if j < |participants| {
      var one := StopDodging(w, participants[j].actor);
      StopDodgingEffect(w, participants[j].actor, |w.actors|);
      hide StopDodging;
      StopAllDodgingEffect(one, participants, j + 1);
      EditedTwice(w.actors, one.actors, StopAllDodging(w, participants, j).actors, |w.actors|);
    }
  }

  lemma AbandonEffect(w: World, a: Action)
    ensures CombatEffect(w, ApplyAbandon(w, a).world, |w.actors|)
  {
    var k := FindEncounter(w.encounters, a.content);
    if k < |w.encounters| {
      StopAllDodgingEffect(w, w.encounters[k].participants, 0);
    }
    hide StopAllDodging;
  }

  lemma TurnEffect(w: World, a: Action)
    ensures CombatEffect(w, ApplyPass(w, a).world, |w.actors|)
    ensures CombatEffect(w, ApplyNeedTime(w, a).world, |w.actors|)
    ensures CombatEffect(w, ApplyDodge(w, a).world, |w.actors|)
  {
    if HoldsTurn(w, a) {
      var actor := GetActor(w, a.actor);
      var k, dodging := ReferredEncounter(w, a), StartDodging(w, a.actor);
      hide TurnRefusal;
      PutEdits(w, actor.(conditions := actor.conditions.(dodging := true)), |w.actors|);
      FinishTurnEffect(w, w, k, |w.actors|);
      FinishTurnEffect(w, dodging, k, |w.actors|);
      hide FinishTurn;
      hide StartDodging;
    }
  }

  lemma EscapeEffect(w: World, a: Action)
    ensures CombatEffect(w, ApplyEscape(w, a).world, FindActor(w.actors, a.actor))
  {
    if HoldsTurn(w, a) && EscapeRefusal(w, a) == NoReason {
      var actor := GetActor(w, a.actor);
      var k, mover := ReferredEncounter(w, a), FindActor(w.actors, a.actor);
      hide TurnRefusal;
      hide EscapeRefusal;
      PutEdits(w, actor.(location := a.destination,
                         conditions := actor.conditions.(dodging := false, defending := false, hidden := false)), mover);
      FinishTurnEffect(w, CommitEscape(w, a, k), k, mover);
      hide FinishTurn;
      hide CommitEscape;
    }
  }

  lemma StartEffect(w: World, a: Action, seed: Seed)
    ensures CombatEffect(w, ApplyStart(w, a, seed).world, |w.actors|)
  {
    hide StopDodging, OpenEncounter, StartSlot, FindEncounter, FindActor;
    if IsActive(w, a.actor) && StartRefusal(w, a) == NoReason {
      var e := OpenEncounter(w, a, seed);
      hide StartRefusal;
      StopDodgingEffect(w.(encounters := PlaceEncounter(w.encounters, StartSlot(w.encounters, a.content), e)),
                        CurrentActor(e), |w.actors|);
    }
  }

  lemma JoinEffect(w: World, a: Action, seed: Seed)
    ensures CombatEffect(w, ApplyJoin(w, a, seed).world, |w.actors|)
  {
    hide Admit;
    hide Initiative;
    hide Engaged;
  }

  lemma CombatRuleEffect(w: World, c: Call)
    requires IsCombatRule(c.action.kind)
    ensures CombatEffect(w, ApplyCombatRule(w, c).world,
                         if c.action.kind == CombatEscape then FindActor(w.actors, c.action.actor) else |w.actors|)
  {
    var a := c.action;
    match a.kind
    case CombatStart => StartEffect(w, a, c.seed);
    case CombatJoin => JoinEffect(w, a, c.seed);
    case CombatAttack => CombatAttackEffect(w, a, c.seed, false);
    case CombatFinesseAttack => CombatAttackEffect(w, a, c.seed, true);
    case CombatAbandon => AbandonEffect(w, a);
    case CombatEscape => EscapeEffect(w, a);
    case _ => TurnEffect(w, a);
  }

  // ------------------------------------------------------- remaining rules

  /** Exits keep their endpoints, and a lock is only ever taken off. */
  predicate OnlyUnlocks(before: seq<Exit>, after: seq<Exit>) {
    && |before| == |after|
    && forall i :: 0 <= i < |before| ==>
         && after[i].from == before[i].from && after[i].to == before[i].to
         && (after[i].locked ==> before[i].locked)
  }

  predicate ActorEffect(w: World, r: World) {
    && r == w.(actors := r.actors, items := r.items, exits := r.exits)
    && KeepsActors(w.actors, r.actors) && SameIds(w.items, r.items) && OnlyUnlocks(w.exits, r.exits)
  }

  lemma RevivalEffect(w: World, a: Action)
    requires RescueRefusal(w, a) == NoReason
    ensures Edited(w.actors, RevivePair(w, a).actors, |w.actors|)
  {
    var downed := GetActor(w, a.target);
    var risen := downed.(damage := 0, status := Active, conditions := downed.conditions.(unconscious := false),
                         kind := if a.content == a.actor then Npc else Human);
    var rescuer := GetActor(w, a.actor).(kind := if a.content == a.actor then Human else Npc);
    hide RescueRefusal;
    var one := PutActor(w, risen);
    PutEdits(w, risen, |w.actors|);
    PutEdits(one, rescuer, |w.actors|);
    hide PutActor;
    EditedTwice(w.actors, one.actors, RevivePair(w, a).actors, |w.actors|);
    hide Edited;
  }

  lemma CompleteRescueEffect(w: World, a: Action)
    ensures var r := ApplyCompleteRescue(w, a).world; ActorEffect(w, r) && StaysPut(w.actors, r.actors)
  {
    if RescueRefusal(w, a) == NoReason {
      RevivalEffect(w, a);
      hide RescueRefusal;
      hide RevivePair;
    }
  }

  lemma ReplaceRescuerEffect(w: World, a: Action, seed: Seed)
    ensures var r := ApplyReplaceRescuer(w, a, seed).world; ActorEffect(w, r) && StaysPut(w.actors, r.actors)
  {
    if ReplaceRefusal(w, a) == NoReason {
      PutEdits(w, GetActor(w, a.target).(status := Dead, kind := Npc), |w.actors|);
      assert StaysPut(w.actors, ReplaceActors(w, a, seed).actors);
      assert KeepsActors(w.actors, ReplaceActors(w, a, seed).actors);
      hide ReplaceRefusal;
      hide ReplaceActors;
    }
  }

  lemma TravelEffect(w: World, a: Action)
    ensures var r := ApplyMove(w, a).world;
            ActorEffect(w, r) && OnlyMoves(w.actors, r.actors, FindActor(w.actors, a.actor))
    ensures var r := ApplyFlee(w, a).world;
            ActorEffect(w, r) && OnlyMoves(w.actors, r.actors, FindActor(w.actors, a.actor))
  {
    hide MoveRefusal;
    hide AllowsCombat;
  }

  lemma AttackEffect(w: World, a: Action, seed: Seed)
    ensures var r := ApplyAttack(w, a, seed).world; ActorEffect(w, r) && StaysPut(w.actors, r.actors)
  {
    if IsActive(w, a.actor) && AttackRefusal(w, a) == NoReason {
      assert Known(w, a.target);
      hide AttackRefusal;
      var struck := Strike(w, a.target, ResolveAttack(w, a, seed));
      StrikeEffect(w, a.target, ResolveAttack(w, a, seed), |w.actors|);
      hide ResolveAttack;
      SameActorIds(w.actors, struck.actors, a.target);
      var guarded := GetActor(struck, a.target);
      PutEdits(struck, guarded.(conditions := guarded.conditions.(defending := false)), |w.actors|);
      EditedTwice(w.actors, struck.actors, DropGuard(struck, a.target).actors, |w.actors|);
      hide Strike;
      hide DropGuard;
    }
  }

  lemma UnlockEffect(w: World, a: Action)
    ensures var r := ApplyUnlock(w, a).world; ActorEffect(w, r) && StaysPut(w.actors, r.actors)
  {}

  lemma ActorRuleEffect(w: World, c: Call)
    requires IsActorRule(c.action.kind)
    ensures ActorEffect(w, ApplyActorRule(w, c).world)
    ensures c.action.kind != Move && c.action.kind != Flee ==>
              StaysPut(w.actors, ApplyActorRule(w, c).world.actors)
  {
    match c.action.kind
    case CompleteAvatarRescue => CompleteRescueEffect(w, c.action);
    case ReplaceAvatarRescuer => ReplaceRescuerEffect(w, c.action, c.seed);
    case Attack => AttackEffect(w, c.action, c.seed);
    case Flee => TravelEffect(w, c.action);
    case Move => TravelEffect(w, c.action);
    case UnlockExit => UnlockEffect(w, c.action);
    case _ =>
  }

  // -------------------------------------------------------- gate transition

  /** A transition may write gate states, the ledger, one item and the revision. */
  predicate TransitionEffect(w: World, r: World) {
    && r == w.(items := r.items, gates := r.gates, gateActorStates := r.gateActorStates,
               claims := r.claims, accessRevision := r.accessRevision)
    && SameIds(w.items, r.items)
    && |r.gates| == |w.gates|
    && forall i :: 0 <= i < |w.gates| ==>
         r.gates[i] == w.gates[i].(version := r.gates[i].version, state := r.gates[i].state)
  }

  lemma SetStateEffect(w: World, g: nat, actor: Id, state: GateState)
    requires g < |w.gates|
    ensures TransitionEffect(w, SetState(w, g, actor, state))
  {}

  lemma SettlementEffect(w: World, a: Action, before: seq<EventKind>)
    requires Known(w, a.actor) && FindGate(w.gates, a.threshold.gate) < |w.gates|
    ensures TransitionEffect(w, SettleTransition(w, a, before).world)
  {
    hide SettlementRefusal;
    var claimed := w.(claims := w.claims + [NewClaim(a, false)]);
    SetStateEffect(claimed, FindGate(w.gates, a.threshold.gate), a.actor, ResultingState(a.threshold.transition));
    hide SetState;
  }

  lemma GateTransitionEffect(w: World, a: Action, seed: Seed)
    ensures TransitionEffect(w, ApplyGateTransition(w, a, seed).world)
  {
    hide TransitionRefusal;
    hide CheckTotal;
    hide MatchesClaim;
    hide SettleTransition;
    hide FirstIndex;
    if Known(w, a.actor) && FindGate(w.gates, a.threshold.gate) < |w.gates| {
      SettlementEffect(w, a, []);
      SettlementEffect(w, a, [AbilityCheckRolled(CheckTotal(GetActor(w, a.actor), a, seed) >= a.dc)]);
    }
  }

  // ---------------------------------------------------------------- any rule

  predicate GatesKeepShape(before: seq<Gate>, after: seq<Gate>) {
    && |before| == |after|
    && forall i :: 0 <= i < |before| ==>
         after[i] == before[i].(version := after[i].version, state := after[i].state)
  }

  /** What no rule at all can do: remove or rename an actor, redraw the map,
      lock an exit, retarget a track, rewrite a gate's methods. */
  predicate Frame(w: World, r: World) {
    && r.locations == w.locations && r.tracks == w.tracks
    && r.gateMethods == w.gateMethods && r.gatePredicates == w.gatePredicates
    && KeepsActors(w.actors, r.actors)
    && OnlyUnlocks(w.exits, r.exits)
    && GatesKeepShape(w.gates, r.gates)
  }

  /** Only a gate transition touches gates, the ledger or the revision. */
  predicate LeavesGatesAlone(w: World, r: World) {
    && r.gates == w.gates && r.gateActorStates == w.gateActorStates
    && r.claims == w.claims && r.accessRevision == w.accessRevision
  }

  lemma RuleFrame(w: World, c: Call)
    ensures var r := ApplyRule(w, c).world;
            Frame(w, r) && r.tick == w.tick && (c.action.kind != GateTransition ==> LeavesGatesAlone(w, r))
  {
    hide ApplyItemRule;
    hide ApplyCombatRule;
    hide ApplyActorRule;
    hide ApplyGateTransition;
    hide ApplyReport;
    if IsItemRule(c.action.kind) {
      ItemRuleEffect(w, c);
    } else if IsCombatRule(c.action.kind) {
      CombatRuleEffect(w, c);
    } else if c.action.kind == GateTransition {
      GateTransitionEffect(w, c.action, c.seed);
    } else if IsActorRule(c.action.kind) {
      ActorRuleEffect(w, c);
    }
  }

  /** The world a rule sees: the clock has already moved. */
  function Clocked(w: World, c: Call): World {
    if c.advance then w.(tick := Next64(w.tick)) else w
  }

  /** A call neither barred by combat nor answered from the ledger is its rule:
      a failure leaves the world and its clock as they were; a success keeps the
      tick the call brought and, but for the one kind whose rule sees to its own
      revision, raises the revision once. */
  lemma StepIsTheRule(w: World, c: Call)
    requires !NamesRecordedClaim(w.claims, c.action) && !BarredByCombat(w, c.action)
    ensures var o, s := ApplyRule(Clocked(w, c), c), Step(w, c);
            && s.status == o.status && s.events == o.events
            && s.world == o.world.(tick := s.world.tick, accessRevision := s.world.accessRevision)
            && (s.status != Success ==> s.world == w)
            && (s.status == Success ==> s.world.tick == Clocked(w, c).tick)
            && (s.status == Success && c.action.kind != GateTransition ==>
                  s.world.accessRevision == Raise64(w.accessRevision))
            && (c.action.kind == GateTransition ==> s.world.accessRevision == o.world.accessRevision)
  {
    RuleFrame(Clocked(w, c), c);
    FailureAtomicity(w, c);
    hide ApplyRule, BarredByCombat, NamesRecordedClaim, Frame;
  }

  /** The combat gate bars every kind alike; only a recorded claim is answered first. */
  lemma BarredCallIsRefused(w: World, c: Call)
    requires !NamesRecordedClaim(w.claims, c.action) && BarredByCombat(w, c.action)
    ensures Step(w, c) == Reject(w, CombatActionRequired)
  {
    hide ApplyRule;
    hide BarredByCombat;
  }

  lemma StepFrame(w: World, c: Call)
    ensures Frame(w, Step(w, c).world)
  {
    hide ApplyRule;
    RuleFrame(Clocked(w, c), c);
  }
}
