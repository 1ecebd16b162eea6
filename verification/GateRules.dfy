/**
  Access gates: the flat method and predicate tables, gate evaluation with its
  evidence digest, and the claim-keyed gate transition.
 */
module GateRules {
  import opened Bits
  import opened KernelTypes
  import opened Lookup
  import opened Carrying

  // ----------------------------------------------------------------- digest

  /** One round of the 64-bit FNV-1a fold. */
  function Mix(digest: nat, value: nat): nat {
    Xor(digest, value) * 1099511628211 % WORD
  }

  const FNV_BASIS: nat := 1469598103934665603

  // ------------------------------------------------------------- predicates

  predicate Inert(item: Item) {
    item.flags % 2 == 1
  }

  function EffectiveState(w: World, gate: Gate, actor: Id): GateState {
    var k := FindActorState(w.gateActorStates, gate.id, actor);
    if (gate.scope == ActorScope || gate.scope == HolderScope) && k < |w.gateActorStates|
    then w.gateActorStates[k].state
    else gate.state
  }

  predicate FactHolds(facts: seq<Fact>, subject: Id, fact: Id, expected: nat) {
    var k := FindFact(facts, subject, fact);
    k < |facts| && facts[k].value == expected
  }

  predicate ShowsCapability(item: Item, p: Predicate, actor: Id, facts: seq<Fact>) {
    item.holder == actor && !Inert(item) && FactHolds(facts, item.id, p.fact, p.expected)
  }

  function FindCapability(items: seq<Item>, p: Predicate, actor: Id, facts: seq<Fact>): (i: nat)
    ensures i <= |items|
    ensures i < |items| ==> ShowsCapability(items[i], p, actor, facts)
    ensures forall j :: 0 <= j < i ==> !ShowsCapability(items[j], p, actor, facts)
  {
    FirstIndex(items, (x: Item) => ShowsCapability(x, p, actor, facts))
  }

  /** Whether a gate predicate holds for the actor under the supplied facts. */
  predicate Holds(w: World, p: Predicate, actor: Id, facts: seq<Fact>) {
    match p.kind
    case HeldItem =>
      HasItem(w, p.subject) && GetItem(w, p.subject).holder == actor && !Inert(GetItem(w, p.subject))
    case HeldItemCapability =>
      FindCapability(w.items, p, actor, facts) < |w.items|
    case InstalledItem =>
      && HasItem(w, p.subject)
      && var x := GetItem(w, p.subject);
         x.holder == 0 && x.zone == Installed && x.location == p.target && !Inert(x)
    case MinimumCharges =>
      HasItem(w, p.subject) && GetItem(w, p.subject).charges >= p.amount && !Inert(GetItem(w, p.subject))
    case ActorFact => FactHolds(facts, actor, p.fact, p.expected)
    case WorldFact => FactHolds(facts, p.subject, p.fact, p.expected)
    case UnknownPredicate => false
  }

  function ZoneCode(z: Zone): nat {
    match z
    case NoZone => 0 case WorldZone => 1 case Carried => 2 case Equipped => 3 case SpellDeck => 4
    case Exhausted => 5 case Contained => 6 case Escrow => 7 case Installed => 8
  }

  function FactEvidence(facts: seq<Fact>, subject: Id, fact: Id): nat {
    var k := FindFact(facts, subject, fact);
    if k < |facts| then Mix(facts[k].value, facts[k].sourceVersion) else 0
  }

  /** The observation folded into the evidence digest beside the predicate. */
  function Observed(w: World, p: Predicate, actor: Id, facts: seq<Fact>): nat {
    match p.kind
    case HeldItem => if HasItem(w, p.subject) then GetItem(w, p.subject).holder else 0
    case HeldItemCapability =>
      var i := FindCapability(w.items, p, actor, facts);
      if i < |w.items| then
        var k := FindFact(facts, w.items[i].id, p.fact);
        if k < |facts| then Mix(w.items[i].id, facts[k].sourceVersion) else 0
      else 0
    case InstalledItem =>
      if HasItem(w, p.subject) then
        var x := GetItem(w, p.subject);
        Mix(x.location, Mix(ZoneCode(x.zone), x.flags))
      else 0
    case MinimumCharges => if HasItem(w, p.subject) then GetItem(w, p.subject).charges else 0
    case ActorFact => FactEvidence(facts, actor, p.fact)
    case WorldFact => FactEvidence(facts, p.subject, p.fact)
    case UnknownPredicate => U64_MAX
  }

  function PredicateCode(k: PredicateKind): nat {
    match k
    case UnknownPredicate => 0 case HeldItem => 1 case HeldItemCapability => 2
    case InstalledItem => 3 case MinimumCharges => 4 case ActorFact => 5 case WorldFact => 6
  }

  function MixPredicate(digest: nat, w: World, p: Predicate, actor: Id, facts: seq<Fact>): nat {
    var d := Mix(Mix(Mix(Mix(Mix(digest, PredicateCode(p.kind)), p.subject), p.target), p.fact), p.expected);
    Mix(Mix(d, Observed(w, p, actor, facts)), if Holds(w, p, actor, facts) then 1 else 0)
  }

  // ------------------------------------------------------------- evaluation

  datatype Evaluation = Decided(decision: Decision) | Undecided(status: Status)

  predicate MethodInRange(w: World, m: GateMethod) {
    m.predicateStart + m.predicateCount <= |w.gatePredicates|
  }

  /** Folds the predicates of a method from index `k` on into the digest. */
  function MethodDigest(w: World, m: GateMethod, actor: Id, facts: seq<Fact>, digest: nat, k: nat): nat
    requires MethodInRange(w, m) && k <= m.predicateCount
    decreases m.predicateCount - k
  {
    if k == m.predicateCount then digest
    else MethodDigest(w, m, actor, facts,
                      MixPredicate(digest, w, w.gatePredicates[m.predicateStart + k], actor, facts), k + 1)
  }

  predicate HoldsAt(w: World, m: GateMethod, actor: Id, facts: seq<Fact>, k: nat)
    requires MethodInRange(w, m) && k < m.predicateCount
  {
    Holds(w, w.gatePredicates[m.predicateStart + k], actor, facts)
  }

  predicate MethodAllows(w: World, m: GateMethod, actor: Id, facts: seq<Fact>)
    requires MethodInRange(w, m)
  {
    forall k: nat :: k < m.predicateCount ==> HoldsAt(w, m, actor, facts, k)
  }

  function MethodMask(w: World, m: GateMethod, actor: Id, facts: seq<Fact>): set<nat>
    requires MethodInRange(w, m)
  {
    set k: nat | k < m.predicateCount && HoldsAt(w, m, actor, facts, k)
  }

  /** The scan over a gate's methods from offset `i`; `wanted` restricts it to
      one method when it is not zero. */
  function EvaluateMethods(w: World, gate: Gate, actor: Id, facts: seq<Fact>, wanted: Id,
                           i: nat, digest: nat, base: Decision): Evaluation
    requires gate.methodStart + gate.methodCount <= |w.gateMethods| && i <= gate.methodCount
    decreases gate.methodCount - i
  {
    if i == gate.methodCount then
      Decided(base.(reason := GateClosed, digest := Mix(digest, 0)))
    else
      var m := w.gateMethods[gate.methodStart + i];
      if !MethodInRange(w, m) then Undecided(ErrInvalid)
      else if wanted != 0 && m.id != wanted then
        EvaluateMethods(w, gate, actor, facts, wanted, i + 1, digest, base)
      else
        var methodDigest := MethodDigest(w, m, actor, facts, Mix(digest, m.id), 0);
        if MethodAllows(w, m, actor, facts) then
          Decided(base.(methodId := m.id, mask := MethodMask(w, m, actor, facts), allowed := true,
                        digest := Mix(methodDigest, 1)))
        else if wanted != 0 then
          Decided(base.(methodId := m.id, mask := MethodMask(w, m, actor, facts), reason := GateClosed,
                        digest := Mix(methodDigest, 0)))
        else
          EvaluateMethods(w, gate, actor, facts, wanted, i + 1, Mix(digest, methodDigest), base)
  }

  function StateCode(s: GateState): nat {
    match s
    case NoState => 0 case Closed => 1 case Open => 2 case Broken => 3 case InertState => 4
  }

  function BaseDigest(w: World, gate: Gate, actor: Actor, state: GateState): nat {
    var d := Mix(Mix(Mix(Mix(FNV_BASIS, gate.id), gate.version), gate.descriptorVersion), w.accessRevision);
    Mix(Mix(Mix(d, actor.id), actor.location), StateCode(state))
  }

  function Evaluate(w: World, gateId: Id, actorId: Id, facts: seq<Fact>, wanted: Id): Evaluation {
    if gateId == 0 || actorId == 0 || |facts| > MAX_FACTS then Undecided(ErrInvalid)
    else
      var g := FindGate(w.gates, gateId);
      if g == |w.gates| then Undecided(ErrNotFound)
      else if w.gates[g].methodStart + w.gates[g].methodCount > |w.gateMethods| then Undecided(ErrInvalid)
      else if !Known(w, actorId) then Undecided(ErrNotFound)
      else
        var gate := w.gates[g];
        var actor := GetActor(w, actorId);
        var state := EffectiveState(w, gate, actorId);
        var digest := BaseDigest(w, gate, actor, state);
        var base := NO_DECISION.(gate := gate.id, gateVersion := gate.version,
                                 accessRevision := w.accessRevision, state := state);
        if state == Open || state == Broken then
          Decided(base.(allowed := true, digest := Mix(digest, 1)))
        else if state == InertState || actor.status != Active then
          Decided(base.(reason := GateClosed, digest := Mix(digest, 0)))
        else
          EvaluateMethods(w, gate, actorId, facts, wanted, 0, digest, base)
  }

  /** The optimistic-concurrency test shared by every gated action: evaluation
      succeeds and all three expected values match what it returned. */
  predicate OfferIsCurrent(w: World, gateId: Id, actorId: Id, t: Threshold) {
    var e := Evaluate(w, gateId, actorId, t.facts, t.methodId);
    && e.Decided?
    && t.expectedVersion == e.decision.gateVersion
    && t.expectedRevision == e.decision.accessRevision
    && t.expectedDigest == e.decision.digest
  }

  datatype Crossing = Clear | Stale | Shut | Bolted

  /** Whether the actor may use an existing exit, as the three travelling
      actions decide it: through the gate bound to the exit, or by its lock. */
  function CrossingOf(w: World, actorId: Id, exit: Exit, t: Threshold): Crossing {
    var g := FindExitGate(w.gates, exit.from, exit.to);
    if g < |w.gates| then
      var gate := w.gates[g];
      if t.gate != gate.id || !OfferIsCurrent(w, gate.id, actorId, t) then Stale
      else if !Evaluate(w, gate.id, actorId, t.facts, t.methodId).decision.allowed then Shut
      else if exit.locked && !gate.recordedLock then Bolted
      else Clear
    else if exit.locked then Bolted
    else Clear
  }

  // ------------------------------------------------------- defining a gate

  datatype MethodDefinition = MethodDefinition(id: Id, predicates: seq<Predicate>)

  predicate ValidPredicate(p: Predicate) {
    && p.kind != UnknownPredicate
    && (p.kind == HeldItem || p.kind == InstalledItem || p.kind == MinimumCharges ==> p.subject != 0)
    && (p.kind == MinimumCharges ==> p.amount != 0)
    && (p.kind == HeldItemCapability || p.kind == ActorFact || p.kind == WorldFact ==> p.fact != 0)
  }

  predicate ValidMethod(m: MethodDefinition) {
    && m.id != 0
    && |m.predicates| <= MAX_PREDICATES
    && forall p :: p in m.predicates ==> ValidPredicate(p)
  }

  function PredicateTotal(methods: seq<MethodDefinition>): nat {
    if methods == [] then 0 else |methods[0].predicates| + PredicateTotal(methods[1..])
  }

  /** Appends the method records and predicates to the flat tables, in order. */
  function AppendMethods(w: World, methods: seq<MethodDefinition>): World
    decreases |methods|
  {
    if methods == [] then w
    else
      var m := methods[0];
      AppendMethods(
        w.(gateMethods := w.gateMethods + [GateMethod(m.id, |w.gatePredicates|, |m.predicates|)],
           gatePredicates := w.gatePredicates + m.predicates),
        methods[1..])
  }

  function RaiseRevision(w: World): World {
    w.(accessRevision := Raise64(w.accessRevision))
  }

  /** Binding: an exit gate needs its exit, a container gate its item. */
  function BindingStatus(w: World, gate: Gate): Status {
    if gate.target == ExitTarget then
      var x := FindExit(w.exits, gate.from, gate.to);
      if x == |w.exits| || gate.targetItem != 0 then ErrNotFound
      else if gate.recordedLock && !w.exits[x].locked then ErrRule
      else Success
    else if gate.targetItem == 0 || !HasItem(w, gate.targetItem)
            || gate.from != 0 || gate.to != 0 || gate.recordedLock then ErrNotFound
    else Success
  }

  function SetGateStatus(w: World, gate: Gate, methods: seq<MethodDefinition>): Status {
    if gate.id == 0 || gate.descriptorVersion == 0 || gate.version == 0 || gate.state == NoState
       || |methods| == 0 || |methods| > MAX_METHODS then ErrInvalid
    else if BindingStatus(w, gate) != Success then BindingStatus(w, gate)
    else if exists m :: m in methods && !ValidMethod(m) then ErrInvalid
    else if |w.gateMethods| + |methods| > MAX_METHOD_RECORDS
            || |w.gatePredicates| + PredicateTotal(methods) > MAX_PREDICATE_RECORDS then ErrFull
    else
      var g := FindGate(w.gates, gate.id);
      if g == |w.gates| then (if |w.gates| >= MAX_GATES then ErrFull else Success)
      else if w.gates[g].version > gate.version then ErrRule
      else Success
  }

  function SetGate(w: World, gate: Gate, methods: seq<MethodDefinition>): World {
    if SetGateStatus(w, gate, methods) != Success then w
    else
      var g := FindGate(w.gates, gate.id);
      var bound := gate.(methodStart := |w.gateMethods|, methodCount := |methods|);
      var gates := if g == |w.gates| then w.gates + [bound] else w.gates[g := bound];
      RaiseRevision(AppendMethods(w.(gates := gates), methods))
  }

  // ------------------------------------------------------------- transition

  predicate RequiresMethod(transition: nat) {
    || transition == TRANSITION_OPEN || transition == TRANSITION_BREAK
    || transition == TRANSITION_INSTALL || transition == TRANSITION_EXHAUST
    || transition == TRANSITION_RENDER_INERT
  }

  function ResultingState(transition: nat): GateState {
    if transition == TRANSITION_OPEN then Open
    else if transition == TRANSITION_CLOSE || transition == TRANSITION_RELOCK then Closed
    else if transition == TRANSITION_BREAK then Broken
    else NoState
  }

  predicate PerActor(gate: Gate) {
    gate.scope == ActorScope || gate.scope == HolderScope
  }

  function SetStateStatus(w: World, gate: Gate, actor: Id, state: GateState): Status {
    if state != NoState && PerActor(gate)
       && FindActorState(w.gateActorStates, gate.id, actor) == |w.gateActorStates|
       && |w.gateActorStates| >= MAX_ACTOR_STATES then ErrFull
    else Success
  }

  /** Writes the gate's state, in the actor's own record when the gate is per
      actor, and raises the gate's version. */
  function SetState(w: World, g: nat, actor: Id, state: GateState): World
    requires g < |w.gates|
  {
    var gate := w.gates[g];
    if state == NoState || SetStateStatus(w, gate, actor, state) != Success then w
    else if PerActor(gate) then
      var k := FindActorState(w.gateActorStates, gate.id, actor);
      var states :=
        if k == |w.gateActorStates| then w.gateActorStates + [GateActorState(gate.id, actor, 1, state)]
        else w.gateActorStates[k := w.gateActorStates[k].(
                                      version := Raise64(w.gateActorStates[k].version), state := state)];
      w.(gateActorStates := states, gates := w.gates[g := gate.(version := Raise64(gate.version))])
    else
      w.(gates := w.gates[g := gate.(version := Raise64(gate.version), state := state)])
  }

  predicate MatchesClaim(c: Claim, a: Action) {
    && c.gate == a.threshold.gate && c.actor == a.actor && c.item == a.item
    && c.methodId == a.threshold.methodId && c.transition == a.threshold.transition
  }

  function NewClaim(a: Action, failed: bool): Claim {
    Claim(a.threshold.claim, a.threshold.gate, a.actor, a.item,
          a.threshold.methodId, a.threshold.transition, failed)
  }

  predicate Checked(resolution: nat) {
    resolution == RESOLUTION_SRD_CHECK || resolution == RESOLUTION_AVOIDANCE_CHECK
  }

  predicate ValidResolution(w: World, a: Action) {
    var r := a.threshold.resolution;
    && r <= RESOLUTION_AVOIDANCE_CHECK
    && (Checked(r) ==> a.dc != 0 && a.dc <= I16_MAX && a.ability <= 5 && a.rollMode <= ROLL_DISADVANTAGE)
    && (!Checked(r) ==> a.dc == 0)
    && (r == RESOLUTION_SRD_CHECK ==> |w.claims| < MAX_CLAIMS)
  }

  function CheckTotal(actor: Actor, a: Action, seed: Seed): int {
    ToI16(RollD20(seed, 1, a.rollMode)
          + ToI16(AbilityModifier(StatValue(actor.stats, a.ability)) + a.modifier))
  }

  /** Everything that can refuse a transition before any die is rolled. */
  function TransitionRefusal(w: World, a: Action): Reason
    requires FindGate(w.gates, a.threshold.gate) < |w.gates|
  {
    var t := a.threshold;
    if !OfferIsCurrent(w, t.gate, a.actor, t) then StaleGateOffer
    else
      var d := Evaluate(w, t.gate, a.actor, t.facts, t.methodId).decision;
      if RequiresMethod(t.transition) && (!d.allowed || t.methodId == 0 || d.methodId != t.methodId) then GateClosed
      else if !ValidResolution(w, a) then InvalidAction
      else NoReason
  }

  function ItemRefusal(w: World, a: Action): Reason
    requires Known(w, a.actor)
  {
    var t := a.threshold.transition;
    var actor := GetActor(w, a.actor);
    var present := a.item != 0 && HasItem(w, a.item);
    if t == TRANSITION_INSTALL then
      if !present || GetItem(w, a.item).holder != actor.id || Inert(GetItem(w, a.item))
      then ItemNotAvailable else NoReason
    else if t == TRANSITION_REMOVE then
      if !present || GetItem(w, a.item).holder != 0 || GetItem(w, a.item).zone != Installed
         || GetItem(w, a.item).location != actor.location
         || !CanExchange(w, actor, |w.items|, FindItem(w.items, a.item))
      then (if present && GetItem(w, a.item).location == actor.location then CapacityExceeded else ItemNotAvailable)
      else NoReason
    else if t == TRANSITION_EXHAUST || t == TRANSITION_RENDER_INERT then
      if !present || GetItem(w, a.item).charges == 0
         || (GetItem(w, a.item).holder != actor.id
             && !(GetItem(w, a.item).holder == 0 && GetItem(w, a.item).location == actor.location
                  && GetItem(w, a.item).zone == Installed))
      then ItemNotAvailable else NoReason
    else if a.item != 0 then InvalidAction
    else NoReason
  }

  /** What can still refuse a transition after its check has passed. */
  function SettlementRefusal(w: World, a: Action): Reason
    requires Known(w, a.actor) && FindGate(w.gates, a.threshold.gate) < |w.gates|
  {
    var gate := w.gates[FindGate(w.gates, a.threshold.gate)];
    var state := ResultingState(a.threshold.transition);
    if state != NoState && EffectiveState(w, gate, a.actor) == state then InvalidAction
    else if ItemRefusal(w, a) != NoReason then ItemRefusal(w, a)
    else if |w.claims| >= MAX_CLAIMS
            || (PerActor(gate) && state != NoState
                && FindActorState(w.gateActorStates, gate.id, a.actor) == |w.gateActorStates|
                && |w.gateActorStates| >= MAX_ACTOR_STATES)
    then CapacityExceeded
    else NoReason
  }

  function ExhaustItem(item: Item): Item {
    item.(recoveryZone := if item.zone != NoZone && item.zone != Exhausted then item.zone else item.recoveryZone,
          zone := Exhausted)
  }

  function MoveTransitionItem(w: World, a: Action): World
    requires Known(w, a.actor)
  {
    var t := a.threshold.transition;
    if !HasItem(w, a.item) then w
    else
      var x := GetItem(w, a.item);
      if t == TRANSITION_INSTALL then
        PutItem(w, x.(holder := 0, location := GetActor(w, a.actor).location, heldSince := 0,
                      zone := Installed, container := 0))
      else if t == TRANSITION_REMOVE then
        PutItem(w, x.(holder := a.actor, location := 0, heldSince := w.tick, zone := Carried, container := 0))
      else if t == TRANSITION_EXHAUST then PutItem(w, ExhaustItem(x.(charges := 0)))
      else if t == TRANSITION_RENDER_INERT then
        PutItem(w, x.(charges := 0, flags := if Inert(x) then x.flags else x.flags + 1))
      else w
  }

  function TransitionEvents(transition: nat): seq<EventKind> {
    [GateTransitionApplied] +
    if transition == TRANSITION_INSTALL then [ItemInstalled]
    else if transition == TRANSITION_REMOVE then [ItemRemoved]
    else if transition == TRANSITION_EXHAUST then [ItemExhausted]
    else if transition == TRANSITION_RENDER_INERT then [ItemRenderedInert]
    else []
  }

  /** The committed part of a transition: claim, state, item, revision. */
  function SettleTransition(w: World, a: Action, before: seq<EventKind>): Outcome
    requires Known(w, a.actor) && FindGate(w.gates, a.threshold.gate) < |w.gates|
  {
    var g := FindGate(w.gates, a.threshold.gate);
    var state := ResultingState(a.threshold.transition);
    if SettlementRefusal(w, a) != NoReason then
      Outcome(ErrRule, w, before + [RuleRejected(SettlementRefusal(w, a))])
    else
      var claimed := w.(claims := w.claims + [NewClaim(a, false)]);
      if SetStateStatus(claimed, claimed.gates[g], a.actor, state) != Success then
        Outcome(SetStateStatus(claimed, claimed.gates[g], a.actor, state), claimed, before)
      else
        Outcome(Success, RaiseRevision(MoveTransitionItem(SetState(claimed, g, a.actor, state), a)),
                before + TransitionEvents(a.threshold.transition))
  }

  function RejectInactive(w: World, actor: Id): Outcome {
    Reject(w, if Known(w, actor) then ActorInactive else ActorNotFound)
  }

  function ApplyGateTransition(w: World, a: Action, seed: Seed): Outcome {
    var t := a.threshold;
    if !IsActive(w, a.actor) then RejectInactive(w, a.actor)
    else if t.gate == 0 || t.claim == 0 || t.transition < TRANSITION_OPEN
            || t.transition > TRANSITION_RENDER_INERT || |t.facts| > MAX_FACTS then Reject(w, InvalidAction)
    else if FindGate(w.gates, t.gate) == |w.gates| then Reject(w, TargetNotFound)
    else if FindClaim(w.claims, t.claim) < |w.claims| then
      if MatchesClaim(w.claims[FindClaim(w.claims, t.claim)], a) then Outcome(Success, w, [])
      else Reject(w, GateClaimConflict)
    else if TransitionRefusal(w, a) != NoReason then Reject(w, TransitionRefusal(w, a))
    else if !Checked(t.resolution) then SettleTransition(w, a, [])
    else
      var passed := CheckTotal(GetActor(w, a.actor), a, seed) >= a.dc;
      if !passed && t.resolution == RESOLUTION_SRD_CHECK then
        Outcome(Success, RaiseRevision(w.(claims := w.claims + [NewClaim(a, true)])),
                [AbilityCheckRolled(false)])
      else SettleTransition(w, a, [AbilityCheckRolled(passed)])
  }
}
