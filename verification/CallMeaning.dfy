/**
  What a whole call does, told without the dispatcher's own helpers: which calls
  are answered from the ledger, which are barred by combat, and which rule decides
  each of the others.  The rules' own meanings then hold of whole calls: an attack
  in turn order, and a key that opens its gate for whoever has picked it up.
 */
module CallMeaning {
  import opened KernelTypes
  import opened Lookup
  import opened Carrying
  import opened GateRules
  import opened ItemRules
  import opened CombatRules
  import opened ActorRules
  import opened Dispatcher
  import opened Effects
  import opened ItemLaws
  import opened GateMeaning
  import opened CombatMeaning
  import opened EncounterMeaning
  import opened ItemMeaning

  /** The rule of each kind of action, and its outcome; four kinds have none. */
  predicate InTheTable(w: World, c: Call, o: Outcome) {
    var a, seed := c.action, c.seed;
    match a.kind
    case CreateActor => o == ApplyCreateActor(w, a, seed)
    case CompleteAvatarRescue => o == ApplyCompleteRescue(w, a)
    case ReplaceAvatarRescuer => o == ApplyReplaceRescuer(w, a, seed)
    case Say => o == ApplySay(w, a)
    case Move => o == ApplyMove(w, a)
    case Flee => o == ApplyFlee(w, a)
    case UnlockExit => o == ApplyUnlock(w, a)
    case Attack => o == ApplyAttack(w, a, seed)
    case Defend => o == ApplyDefend(w, a)
    case AbilityCheck => o == ApplyAbilityCheck(w, a, seed)
    case RulesSearch => o == ApplyAbilityCheck(w, a, seed)
    case RulesStudy => o == ApplyAbilityCheck(w, a, seed)
    case RulesInfluence => o == ApplyAbilityCheck(w, a, seed)
    case ProjectPush => o == ApplyProjectPush(w, a)
    case FocusedNotice => o == ApplyDiscovery(w, a, seed, NoticeCommitted)
    case SearchV2 => o == ApplyDiscovery(w, a, seed, SearchCommitted)
    case StudyV2 => o == ApplyDiscovery(w, a, seed, StudyCommitted)
    case ScoutV2 => o == ApplyDiscovery(w, a, seed, ScoutCommitted)
    case PickUpItem => o == ApplyPickUp(w, a)
    case DropItem => o == ApplyDrop(w, a)
    case GiveItem => o == ApplyGive(w, a)
    case TradeItem => o == ApplyTrade(w, a)
    case Search => o == ApplySearch(w, a)
    case RevealItem => o == ApplyReveal(w, a)
    case UseItem => o == ApplyUseItem(w, a)
    case RulesUtilizeItem => o == ApplyUtilize(w, a)
    case RulesMagic => o == ApplyMagic(w, a)
    case Theft => o == ApplyTheft(w, a, seed)
    case Rest => o == ApplyRest(w, a, c.buffered)
    case Craft => o == ApplyCraft(w, a)
    case CombatStart => o == ApplyStart(w, a, seed)
    case CombatJoin => o == ApplyJoin(w, a, seed)
    case CombatAttack => o == ApplyCombatAttack(w, a, seed, false)
    case CombatFinesseAttack => o == ApplyCombatAttack(w, a, seed, true)
    case CombatDodge => o == ApplyDodge(w, a)
    case CombatEscape => o == ApplyEscape(w, a)
    case CombatPass => o == ApplyPass(w, a)
    case CombatNeedTime => o == ApplyNeedTime(w, a)
    case CombatAbandon => o == ApplyAbandon(w, a)
    case GateTransition => o == ApplyGateTransition(w, a, seed)
    case UnknownAction => o == Outcome(ErrRule, w, [RuleRejected(InvalidAction)])
  }

  lemma RuleTable(w: World, c: Call)
    ensures InTheTable(w, c, ApplyRule(w, c))
  {
    hide ApplyCreateActor, ApplyCompleteRescue, ApplyReplaceRescuer, ApplySay, ApplyMove, ApplyFlee, ApplyUnlock, ApplyAttack,
         ApplyDefend, ApplyAbilityCheck, ApplyProjectPush, ApplyDiscovery, ApplyPickUp, ApplyDrop, ApplyGive, ApplyTrade,
         ApplySearch, ApplyReveal, ApplyUseItem, ApplyUtilize, ApplyMagic, ApplyTheft, ApplyRest, ApplyCraft, ApplyStart,
         ApplyJoin, ApplyCombatAttack, ApplyDodge, ApplyEscape, ApplyPass, ApplyNeedTime, ApplyAbandon, ApplyGateTransition;
  }

  /** In a fight only ten kinds of action are open to an actor. */
  predicate Barred(w: World, a: Action) {
    && !InNoFight(w, a.actor)
    && a.kind !in {Say, UnlockExit, RevealItem, CombatAttack, CombatFinesseAttack, CombatDodge, CombatEscape, CombatPass,
                   CombatNeedTime, CombatAbandon}
  }

  lemma BarredMeans(w: World, a: Action)
    ensures BarredByCombat(w, a) <==> Barred(w, a)
  {
    EngagedMeans(w, a.actor);
    hide Engaged, InNoFight;
  }

  /** The transition names a claim of the ledger. */
  predicate Recorded(claims: seq<Claim>, a: Action) {
    a.kind == GateTransition && a.threshold.claim != 0
    && exists i :: 0 <= i < |claims| && claims[i].id == a.threshold.claim
  }

  /** And repeats the first one of that name in gate, actor, item, method and transition. */
  predicate Repeats(claims: seq<Claim>, a: Action) {
    Recorded(claims, a)
    && exists i :: 0 <= i < |claims| && claims[i] == Claim(a.threshold.claim, a.threshold.gate, a.actor, a.item, a.threshold.methodId,
                                                           a.threshold.transition, claims[i].failedMethod)
                   && forall j :: 0 <= j < i ==> claims[j].id != a.threshold.claim
  }

  lemma RecordedMeans(claims: seq<Claim>, a: Action)
    ensures NamesRecordedClaim(claims, a) <==> Recorded(claims, a)
    ensures IsRetry(claims, a) <==> Repeats(claims, a)
  {
    hide FirstIndex;
    if Recorded(claims, a) {
      var i := FindClaim(claims, a.threshold.claim);
      if Repeats(claims, a) {
        var k :| 0 <= k < |claims| && claims[k] == Claim(a.threshold.claim, a.threshold.gate, a.actor, a.item,
                                                         a.threshold.methodId, a.threshold.transition, claims[k].failedMethod)
                 && forall j :: 0 <= j < k ==> claims[j].id != a.threshold.claim;
        assert k == i;
      }
    }
  }

  /** The world the rule sees: later by one tick if the call says so. */
  function Later(w: World, c: Call): World {
    if !c.advance then w else w.(tick := if w.tick == 0xFFFF_FFFF_FFFF_FFFF then 0 else w.tick + 1)
  }

  lemma ClockMeans(w: World, c: Call)
    ensures Clocked(w, c) == Later(w, c)
  {}

  /** What the rule of the action's kind makes of the call. */
  predicate Follows(w: World, c: Call, s: Outcome, o: Outcome) {
    && s.status == o.status && s.events == o.events
    && s.world == if o.status != Success then w
                  else if c.action.kind == GateTransition then o.world
                  else o.world.(accessRevision := if w.accessRevision == 0xFFFF_FFFF_FFFF_FFFF then w.accessRevision
                                                  else w.accessRevision + 1)
  }

  lemma RuleDecides(w: World, c: Call)
    requires !NamesRecordedClaim(w.claims, c.action) && !BarredByCombat(w, c.action)
    ensures Follows(w, c, Step(w, c), ApplyRule(Later(w, c), c))
  {
    StepIsTheRule(w, c);
    RuleFrame(Clocked(w, c), c);
    ClockMeans(w, c);
    hide Step, ApplyRule, Frame, LeavesGatesAlone;
  }

  /** Main result: every call is answered from the ledger, barred, or decided by the
      rule of its kind. */
  lemma CallMeans(w: World, c: Call)
    ensures var a, s := c.action, Step(w, c);
            if Recorded(w.claims, a) then
              s == if Repeats(w.claims, a) then Outcome(Success, w, []) else Outcome(ErrRule, w, [RuleRejected(GateClaimConflict)])
            else if Barred(w, a) then s == Outcome(ErrRule, w, [RuleRejected(CombatActionRequired)])
            else exists o :: InTheTable(Later(w, c), c, o) && Follows(w, c, s, o)
  {
    RecordedMeans(w.claims, c.action);
    BarredMeans(w, c.action);
    if NamesRecordedClaim(w.claims, c.action) {
      LedgerAnswers(w, c);
    } else if BarredByCombat(w, c.action) {
      BarredCallIsRefused(w, c);
    } else {
      RuleTable(Later(w, c), c);
      RuleDecides(w, c);
    }
    hide *;
  }

  lemma LedgerAnswers(w: World, c: Call)
    requires NamesRecordedClaim(w.claims, c.action)
    ensures Step(w, c) == if IsRetry(w.claims, c.action) then Outcome(Success, w, [])
                          else Outcome(ErrRule, w, [RuleRejected(GateClaimConflict)])
  {
    hide NamesRecordedClaim, IsRetry, ApplyRule;
  }

  // ------------------------------------------------------ attacks in turn order

  predicate StrikesInTurn(a: Action) {
    a.kind == CombatAttack || a.kind == CombatFinesseAttack
  }

  lemma LaterStrikes(w: World, c: Call, k: nat)
    ensures MayStrike(Later(w, c), c.action, k) <==> MayStrike(w, c.action, k)
  {
    hide FirstIndex;
    forall e: Encounter, j: nat ensures AbleAt(Later(w, c), e, j) <==> AbleAt(w, e, j) {}
    hide AbleAt;
  }

  lemma StruckLater(w: World, c: Call, r: World, s: World, finesse: bool, events: seq<EventKind>)
    requires Struck(Later(w, c), r, c.action, c.seed, finesse, events) && s.actors == r.actors
    ensures Struck(w, s, c.action, c.seed, finesse, events)
  {
    assert WeaponSides(Later(w, c), c.action) == WeaponSides(w, c.action);
    hide WeaponSides, RollD20, ToI16, AbilityModifier, StatValue, Proficiency, Wounded, Unharmed, HitPointsLeft, FirstIndex;
  }

  lemma StrikingIsDecided(w: World, c: Call)
    requires StrikesInTurn(c.action)
    ensures !NamesRecordedClaim(w.claims, c.action) && !BarredByCombat(w, c.action)
    ensures ApplyRule(Later(w, c), c) == ApplyCombatAttack(Later(w, c), c.action, c.seed, c.action.kind == CombatFinesseAttack)
  {
    BarredMeans(w, c.action);
    RuleTable(Later(w, c), c);
    hide ApplyRule, BarredByCombat, ApplyCombatAttack, InNoFight;
  }

  /** Main result: a call to attack in turn order succeeds exactly when its actor may
      strike, and then does to everybody what the dice say. */
  lemma InTurnCallMeans(w: World, c: Call)
    requires StrikesInTurn(c.action)
    ensures var s := Step(w, c);
            && (s.status == Success <==> exists k :: MayStrike(w, c.action, k))
            && (s.status == Success ==> Struck(w, s.world, c.action, c.seed, c.action.kind == CombatFinesseAttack, s.events))
  {
    hide *;
    var finesse := c.action.kind == CombatFinesseAttack;
    StrikingIsDecided(w, c);
    RuleDecides(w, c);
    FollowingMeans(w, c, Step(w, c), ApplyRule(Later(w, c), c));
    InTurnAttackMeans(Later(w, c), c.action, c.seed, finesse);
    forall k: nat ensures MayStrike(Later(w, c), c.action, k) <==> MayStrike(w, c.action, k) {
      LaterStrikes(w, c, k);
    }
    if Step(w, c).status == Success {
      StruckLater(w, c, ApplyRule(Later(w, c), c).world, Step(w, c).world, finesse, Step(w, c).events);
    }
  }

  lemma FollowingMeans(w: World, c: Call, s: Outcome, o: Outcome)
    requires Follows(w, c, s, o)
    ensures s.status == o.status && s.events == o.events
    ensures o.status == Success ==> s.world == o.world.(accessRevision := s.world.accessRevision)
  {}

  // ------------------------------------------------------------------- the key

  /** A gate closed to this actor whose one method asks that this item be held. */
  predicate KeyGate(w: World, g: nat, id: Id, key: Id) {
    && g < |w.gates| && w.gates[g].id != 0 && FindGate(w.gates, w.gates[g].id) == g
    && StateFor(w, w.gates[g], id) == Closed
    && w.gates[g].methodCount == 1 && w.gates[g].methodStart < |w.gateMethods|
    && var m := w.gateMethods[w.gates[g].methodStart];
       && m.predicateCount == 1 && m.predicateStart < |w.gatePredicates|
       && w.gatePredicates[m.predicateStart].kind == HeldItem && w.gatePredicates[m.predicateStart].subject == key
  }

  predicate HoldsKey(items: seq<Item>, id: Id, key: Id) {
    exists i :: 0 <= i < |items| && items[i].id == key && items[i].holder == id && Live(items[i])
  }

  /** Such a gate lets in whoever holds the key. */
  lemma KeyMeans(w: World, g: nat, id: Id, key: Id, facts: seq<Fact>)
    requires DistinctIds(w.items) && KeyGate(w, g, id, key) && id != 0 && |facts| <= MAX_FACTS && ActiveActor(w, id)
    ensures var e := Evaluate(w, w.gates[g].id, id, facts, 0);
            e.Decided? && (e.decision.allowed <==> HoldsKey(w.items, id, key))
  {
    hide *;
    KeyIsDecided(w, g, id, key, facts);
    KeyGateIs(w, g, id, key);
    ActiveIs(w, id);
    EvaluationMeans(w, g, FindActor(w.actors, id), facts, 0);
    KeyAdmits(w, g, id, key, facts);
  }

  lemma KeyGateIs(w: World, g: nat, id: Id, key: Id)
    requires KeyGate(w, g, id, key)
    ensures g < |w.gates| && FindGate(w.gates, w.gates[g].id) == g && StateFor(w, w.gates[g], id) == Closed
    ensures w.gates[g].methodCount == 1 && w.gates[g].methodStart + 1 <= |w.gateMethods|
  {
    hide StateFor, FirstIndex;
  }

  lemma ActiveIs(w: World, id: Id)
    requires ActiveActor(w, id)
    ensures var i := FindActor(w.actors, id);
            i < |w.actors| && w.actors[i].id == id && FindActor(w.actors, w.actors[i].id) == i && w.actors[i].status == Active
  {
    hide FirstIndex;
  }

  lemma KeyAdmits(w: World, g: nat, id: Id, key: Id, facts: seq<Fact>)
    requires KeyGate(w, g, id, key)
    ensures var methods := MethodsOf(w, w.gates[g]);
            && |methods| == 1
            && ((exists k :: 0 <= k < |methods| && Admitting(w, methods, id, facts, 0, k)) <==> HoldsKey(w.items, id, key))
  {
    var methods := MethodsOf(w, w.gates[g]);
    assert methods == [w.gateMethods[w.gates[g].methodStart]];
    hide StateFor, FirstIndex;
    assert Admitting(w, methods, id, facts, 0, 0) <==> HoldsKey(w.items, id, key);
    hide Admitting, HoldsKey;
  }

  lemma KeyIsDecided(w: World, g: nat, id: Id, key: Id, facts: seq<Fact>)
    requires KeyGate(w, g, id, key) && id != 0 && |facts| <= MAX_FACTS && ActiveActor(w, id)
    ensures Evaluate(w, w.gates[g].id, id, facts, 0).Decided?
  {
    hide BaseDigest, FirstIndex;
    var gate, actor := w.gates[g], w.actors[FindActor(w.actors, id)];
    ScanIsDecided(w, gate, id, facts, 0, 0, BaseDigest(w, gate, actor, Closed),
                  NO_DECISION.(gate := gate.id, gateVersion := gate.version, accessRevision := w.accessRevision, state := Closed));
    hide EvaluateMethods;
  }

  /** The scan decides whenever its methods' predicates lie in the table. */
  lemma {:induction false} ScanIsDecided(w: World, gate: Gate, actor: Id, facts: seq<Fact>, wanted: Id,
                                         i: nat, digest: nat, base: Decision)
    requires gate.methodStart + gate.methodCount <= |w.gateMethods| && i <= gate.methodCount
    requires forall k :: gate.methodStart <= k < gate.methodStart + gate.methodCount ==> MethodInRange(w, w.gateMethods[k])
    ensures EvaluateMethods(w, gate, actor, facts, wanted, i, digest, base).Decided?
    decreases gate.methodCount - i
  {
    hide Mix, MethodDigest, MethodAllows, MethodMask;
    if i < gate.methodCount {
      var m := w.gateMethods[gate.methodStart + i];
      ScanIsDecided(w, gate, actor, facts, wanted, i + 1, digest, base);
      ScanIsDecided(w, gate, actor, facts, wanted, i + 1,
                    Mix(digest, MethodDigest(w, m, actor, facts, Mix(digest, m.id), 0)), base);
    }
  }

  predicate Handles(a: Action) {
    a.kind == PickUpItem || a.kind == DropItem
  }

  lemma HandlingIsDecided(w: World, c: Call)
    requires Handles(c.action) && Step(w, c).status == Success
    ensures var o := if c.action.kind == PickUpItem then ApplyPickUp(Later(w, c), c.action) else ApplyDrop(Later(w, c), c.action);
            && o.status == Success && Follows(w, c, Step(w, c), o)
  {
    hide ApplyPickUp, ApplyDrop, Step, Barred, Later;
    CallMeans(w, c);
  }

  /** What a placement leaves besides the items: actors where they were, none less active. */
  lemma PlacementKeeps(w: World, o: Outcome, items: seq<Item>, events: seq<EventKind>, id: Id)
    requires PlacedAs(w, o, items, events)
    ensures o.world == w.(items := items, actors := o.world.actors)
    ensures ActiveActor(w, id) ==> ActiveActor(o.world, id)
  {
    var v := w.(items := items);
    EvolveIsSteady(v, 0);
    EvolvingMeans(v, 0);
    SameActorIds(w.actors, o.world.actors, id);
    hide Evolve, EvolvedFrom, FirstIndex;
  }

  lemma KeyGateStays(w: World, r: World, g: nat, id: Id, key: Id)
    requires KeyGate(w, g, id, key) && r.gates == w.gates && r.gateMethods == w.gateMethods
    requires r.gatePredicates == w.gatePredicates && r.gateActorStates == w.gateActorStates
    ensures KeyGate(r, g, id, key)
  {
    hide FirstIndex;
  }

  /** The item named has changed hands, and no item its name or mark. */
  predicate HandedTo(w: World, r: World, a: Action, holder: Id) {
    var i := FindItem(w.items, a.item);
    && ActiveActor(w, a.actor) && ActiveActor(r, a.actor)
    && r == w.(items := r.items, actors := r.actors)
    && i < |w.items| && |r.items| == |w.items| && (forall j :: 0 <= j < |w.items| ==> r.items[j].id == w.items[j].id)
    && r.items[i].flags == w.items[i].flags && r.items[i].holder == holder
  }

  lemma PlacedIsHanded(w: World, o: Outcome, items: seq<Item>, events: seq<EventKind>, a: Action, holder: Id)
    requires PlacedAs(w, o, items, events) && ActiveActor(w, a.actor)
    requires var i := FindItem(w.items, a.item);
             i < |w.items| && |items| == |w.items| && (forall j :: 0 <= j < |w.items| ==> items[j].id == w.items[j].id)
             && items[i].flags == w.items[i].flags && items[i].holder == holder
    ensures HandedTo(w, o.world, a, holder)
  {
    PlacementKeeps(w, o, items, events, a.actor);
    hide PlacedAs, ActiveActor, FirstIndex;
  }

  lemma DroppedIsHanded(w: World, a: Action)
    requires ApplyDrop(w, a).status == Success
    ensures HandedTo(w, ApplyDrop(w, a).world, a, 0)
  {
    DroppingMeans(w, a);
    var i, k := FindItem(w.items, a.item), FindActor(w.actors, a.actor);
    hide ApplyDrop, PlacedAs, HandedTo, CanExchange, FirstIndex;
    PlacedIsHanded(w, ApplyDrop(w, a), w.items[i := Laid(w.items[i], w.actors[k].location)], [ItemDropped], a, 0);
  }

  lemma PickedUpIsHanded(w: World, a: Action)
    requires ApplyPickUp(w, a).status == Success && a.actor != 0
    ensures HandedTo(w, ApplyPickUp(w, a).world, a, a.actor)
  {
    PickingUpMeans(w, a);
    var i, j, k := FindItem(w.items, a.item), FindItem(w.items, a.targetItem), FindActor(w.actors, a.actor);
    hide ApplyPickUp, PlacedAs, HandedTo, CanExchange, FirstIndex;
    if CanExchange(w, w.actors[k], |w.items|, i) {
      PlacedIsHanded(w, ApplyPickUp(w, a), w.items[i := Taken(w.items[i], a.actor, w.tick)], [ItemPickedUp], a, a.actor);
    } else {
      PlacedIsHanded(w, ApplyPickUp(w, a),
                     w.items[j := Laid(w.items[j], w.actors[k].location)][i := Taken(w.items[i], a.actor, w.tick)],
                     [ItemDropped, ItemPickedUp], a, a.actor);
    }
  }

  /** The items once an item has been picked up or dropped. */
  lemma KeyIsHandled(w: World, a: Action)
    requires Handles(a) && a.actor != 0
    requires var o := if a.kind == PickUpItem then ApplyPickUp(w, a) else ApplyDrop(w, a); o.status == Success
    ensures var o := if a.kind == PickUpItem then ApplyPickUp(w, a) else ApplyDrop(w, a);
            HandedTo(w, o.world, a, if a.kind == PickUpItem then a.actor else 0)
  {
    hide ApplyPickUp, ApplyDrop, HandedTo;
    if a.kind == PickUpItem {
      PickedUpIsHanded(w, a);
    } else {
      DroppedIsHanded(w, a);
    }
  }

  /** Main result: whoever picks up the key may pass, and whoever drops it may not. */
  lemma KeyDecides(w: World, c: Call, g: nat, facts: seq<Fact>)
    requires DistinctIds(w.items) && Handles(c.action) && c.action.actor != 0 && |facts| <= MAX_FACTS
    requires KeyGate(w, g, c.action.actor, c.action.item)
    requires forall i :: 0 <= i < |w.items| && w.items[i].id == c.action.item ==> Live(w.items[i])
    requires Step(w, c).status == Success
    ensures var e := Evaluate(Step(w, c).world, w.gates[g].id, c.action.actor, facts, 0);
            e.Decided? && (e.decision.allowed <==> c.action.kind == PickUpItem)
  {
    hide *;
    var a, r, v := c.action, Step(w, c).world, Later(w, c);
    LaterIs(w, c);
    var o := if a.kind == PickUpItem then ApplyPickUp(v, a) else ApplyDrop(v, a);
    HandlingIsDecided(w, c);
    FollowingMeans(w, c, Step(w, c), o);
    KeyIsHandled(v, a);
    HandedMeans(v, o.world, a, if a.kind == PickUpItem then a.actor else 0);
    KeyGateStays(w, r, g, a.actor, a.item);
    SameActive(r, o.world, a.actor);
    KeyIsThere(w, r, a);
    KeyIsGate(w, g, a.actor, a.item);
    KeyMeans(r, g, a.actor, a.item, facts);
  }

  lemma HandedMeans(w: World, r: World, a: Action, holder: Id)
    requires HandedTo(w, r, a, holder)
    ensures var i := FindItem(w.items, a.item);
            && ActiveActor(r, a.actor) && r == w.(items := r.items, actors := r.actors)
            && i < |w.items| && |r.items| == |w.items| && (forall j :: 0 <= j < |w.items| ==> r.items[j].id == w.items[j].id)
            && r.items[i].flags == w.items[i].flags && r.items[i].holder == holder
  {
    hide FirstIndex;
  }

  lemma LaterIs(w: World, c: Call)
    ensures Later(w, c) == w.(tick := Later(w, c).tick)
  {}

  lemma SameActive(w: World, v: World, id: Id)
    requires w.actors == v.actors
    ensures ActiveActor(w, id) == ActiveActor(v, id)
  {}

  lemma KeyIsGate(w: World, g: nat, id: Id, key: Id)
    requires KeyGate(w, g, id, key)
    ensures g < |w.gates|
  {}

  lemma KeyIsThere(w: World, r: World, a: Action)
    requires DistinctIds(w.items) && Handles(a) && a.actor != 0
    requires forall i :: 0 <= i < |w.items| && w.items[i].id == a.item ==> Live(w.items[i])
    requires |r.items| == |w.items| && forall j :: 0 <= j < |w.items| ==> r.items[j].id == w.items[j].id
    requires var i := FindItem(w.items, a.item);
             && i < |w.items| && r.items[i].flags == w.items[i].flags
             && r.items[i].holder == if a.kind == PickUpItem then a.actor else 0
    ensures DistinctIds(r.items) && (HoldsKey(r.items, a.actor, a.item) <==> a.kind == PickUpItem)
  {
    hide FirstIndex;
  }
}
