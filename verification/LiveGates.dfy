/**
  Gates in place: the evaluation loops over the flat tables, the definition of
  a gate, and the transition handler.
 */
module LiveGates {
  import opened KernelTypes
  import opened Lookup
  import opened Carrying
  import opened GateRules
  import opened LiveState
  import opened LiveItems

  // ------------------------------------------------------------- predicates

  method StateFor(m: WorldState, gate: Gate, actor: Id) returns (state: GateState)
    ensures state == EffectiveState(m.Now(), gate, actor)
  {
    if gate.scope == ActorScope || gate.scope == HolderScope {
      var k := m.LocateActorState(gate.id, actor);
      if k < |m.gateActorStates| {
        return m.gateActorStates[k].state;
      }
    }
    state := gate.state;
  }

  method LocateCapability(m: WorldState, p: Predicate, actor: Id, facts: seq<Fact>) returns (i: nat, k: nat)
    ensures i == FindCapability(m.items, p, actor, facts)
    ensures i < |m.items| ==> k == FindFact(facts, m.items[i].id, p.fact) < |facts|
  {
    i, k := 0, 0;
    while i < |m.items|
      invariant i <= |m.items| && forall j :: 0 <= j < i ==> !ShowsCapability(m.items[j], p, actor, facts)
    {
      if m.items[i].holder == actor && !Inert(m.items[i]) {
        k := LocateFact(facts, m.items[i].id, p.fact);
        if k < |facts| && facts[k].value == p.expected {
          return;
        }
      }
      i := i + 1;
    }
  }

  method ObserveFact(facts: seq<Fact>, subject: Id, fact: Id, expected: nat) returns (holds: bool, observed: nat)
    ensures holds == FactHolds(facts, subject, fact, expected) && observed == FactEvidence(facts, subject, fact)
  {
    hide Mix;
    var k := LocateFact(facts, subject, fact);
    if k == |facts| {
      return false, 0;
    }
    holds, observed := facts[k].value == expected, Mix(facts[k].value, facts[k].sourceVersion);
  }

  /** One predicate: whether it holds, and what was seen. */
  method Observe(m: WorldState, p: Predicate, actor: Id, facts: seq<Fact>) returns (holds: bool, observed: nat)
    ensures holds == Holds(m.Now(), p, actor, facts) && observed == Observed(m.Now(), p, actor, facts)
  {
    hide Mix;
    holds, observed := false, 0;
    match p.kind {
      case HeldItem =>
        var i := m.LocateItem(p.subject);
        if i < |m.items| {
          holds := m.items[i].holder == actor && !Inert(m.items[i]);
          observed := m.items[i].holder;
        }
      case HeldItemCapability =>
        var i, k := LocateCapability(m, p, actor, facts);
        if i < |m.items| {
          holds := true;
          observed := Mix(m.items[i].id, facts[k].sourceVersion);
        }
      case InstalledItem =>
        var i := m.LocateItem(p.subject);
        if i < |m.items| {
          var x := m.items[i];
          holds := x.holder == 0 && x.zone == Installed && x.location == p.target && !Inert(x);
          observed := Mix(x.location, Mix(ZoneCode(x.zone), x.flags));
        }
      case MinimumCharges =>
        var i := m.LocateItem(p.subject);
        if i < |m.items| {
          holds := m.items[i].charges >= p.amount && !Inert(m.items[i]);
          observed := m.items[i].charges;
        }
      case ActorFact =>
        holds, observed := ObserveFact(facts, actor, p.fact, p.expected);
      case WorldFact =>
        holds, observed := ObserveFact(facts, p.subject, p.fact, p.expected);
      case UnknownPredicate =>
        observed := U64_MAX;
    }
  }

  method FoldPredicate(m: WorldState, p: Predicate, actor: Id, facts: seq<Fact>, start: nat)
    returns (holds: bool, digest: nat)
    ensures holds == Holds(m.Now(), p, actor, facts)
    ensures digest == MixPredicate(start, m.Now(), p, actor, facts)
  {
    hide Mix;
    hide Holds;
    hide Observed;
    var observed;
    holds, observed := Observe(m, p, actor, facts);
    digest := Mix(start, PredicateCode(p.kind));
    digest := Mix(digest, p.subject);
    digest := Mix(digest, p.target);
    digest := Mix(digest, p.fact);
    digest := Mix(digest, p.expected);
    digest := Mix(digest, observed);
    digest := Mix(digest, if holds then 1 else 0);
  }

  /** All predicates of one method: the verdict, the mask, and the digest. */
  method FoldMethod(m: WorldState, record: GateMethod, actor: Id, facts: seq<Fact>, start: nat)
    returns (allowed: bool, mask: set<nat>, digest: nat)
    requires MethodInRange(m.Now(), record)
    ensures allowed == MethodAllows(m.Now(), record, actor, facts)
    ensures mask == MethodMask(m.Now(), record, actor, facts)
    ensures digest == MethodDigest(m.Now(), record, actor, facts, start, 0)
  {
    hide MixPredicate;
    hide Holds;
    allowed, mask, digest := true, {}, start;
    var k := 0;
    while k < record.predicateCount
      invariant k <= record.predicateCount
      invariant allowed == forall j: nat :: j < k ==> HoldsAt(m.Now(), record, actor, facts, j)
      invariant mask == set j: nat | j < k && HoldsAt(m.Now(), record, actor, facts, j)
      invariant MethodDigest(m.Now(), record, actor, facts, start, 0)
             == MethodDigest(m.Now(), record, actor, facts, digest, k)
    {
      var holds;
      holds, digest := FoldPredicate(m, m.gatePredicates[record.predicateStart + k], actor, facts, digest);
      assert holds == HoldsAt(m.Now(), record, actor, facts, k);
      if holds {
        mask := mask + {k};
      } else {
        allowed := false;
      }
      k := k + 1;
    }
  }

  /** The scan over the gate's methods. */
  method ScanMethods(m: WorldState, gate: Gate, actor: Id, facts: seq<Fact>, wanted: Id, start: nat, base: Decision)
    returns (e: Evaluation)
    requires gate.methodStart + gate.methodCount <= |m.gateMethods|
    ensures e == EvaluateMethods(m.Now(), gate, actor, facts, wanted, 0, start, base)
  {
    hide Mix;
    hide MethodAllows;
    hide MethodMask;
    hide MethodDigest;
    var i, digest := 0, start;
    while i < gate.methodCount
      invariant i <= gate.methodCount
      invariant EvaluateMethods(m.Now(), gate, actor, facts, wanted, 0, start, base)
             == EvaluateMethods(m.Now(), gate, actor, facts, wanted, i, digest, base)
    {
      var record := m.gateMethods[gate.methodStart + i];
      if record.predicateStart + record.predicateCount > |m.gatePredicates| {
        return Undecided(ErrInvalid);
      }
      if wanted == 0 || record.id == wanted {
        var allowed, mask, methodDigest := FoldMethod(m, record, actor, facts, Mix(digest, record.id));
        if allowed {
          return Decided(base.(methodId := record.id, mask := mask, allowed := true, digest := Mix(methodDigest, 1)));
        }
        if wanted != 0 {
          return Decided(base.(methodId := record.id, mask := mask, reason := GateClosed,
                               digest := Mix(methodDigest, 0)));
        }
        digest := Mix(digest, methodDigest);
      }
      i := i + 1;
    }
    e := Decided(base.(reason := GateClosed, digest := Mix(digest, 0)));
  }

  method EvaluateGate(m: WorldState, gateId: Id, actorId: Id, facts: seq<Fact>, wanted: Id) returns (e: Evaluation)
    ensures e == Evaluate(m.Now(), gateId, actorId, facts, wanted)
  {
    hide FindActor;
    hide FindItem;
    hide Mix;
    hide EvaluateMethods;
    if gateId == 0 || actorId == 0 || |facts| > MAX_FACTS {
      return Undecided(ErrInvalid);
    }
    var g := m.LocateGate(gateId);
    if g == |m.gates| {
      return Undecided(ErrNotFound);
    }
    var gate := m.gates[g];
    if gate.methodStart + gate.methodCount > |m.gateMethods| {
      return Undecided(ErrInvalid);
    }
    var at := m.LocateActor(actorId);
    if at == |m.actors| {
      return Undecided(ErrNotFound);
    }
    var state := StateFor(m, gate, actorId);
    var digest := Mix(FNV_BASIS, gate.id);
    digest := Mix(digest, gate.version);
    digest := Mix(digest, gate.descriptorVersion);
    digest := Mix(digest, m.accessRevision);
    digest := Mix(digest, actorId);
    digest := Mix(digest, m.actors[at].location);
    digest := Mix(digest, StateCode(state));
    var base := NO_DECISION.(gate := gate.id, gateVersion := gate.version,
                             accessRevision := m.accessRevision, state := state);
    if state == Open || state == Broken {
      return Decided(base.(allowed := true, digest := Mix(digest, 1)));
    }
    if state == InertState || m.actors[at].status != Active {
      return Decided(base.(reason := GateClosed, digest := Mix(digest, 0)));
    }
    e := ScanMethods(m, gate, actorId, facts, wanted, digest, base);
  }

  method CheckCrossing(m: WorldState, actor: Id, exit: Exit, t: Threshold) returns (c: Crossing)
    ensures c == CrossingOf(m.Now(), actor, exit, t)
  {
    hide Evaluate;
    var g := m.LocateExitGate(exit.from, exit.to);
    if g == |m.gates| {
      return if exit.locked then Bolted else Clear;
    }
    var gate := m.gates[g];
    if t.gate != gate.id {
      return Stale;
    }
    var e := EvaluateGate(m, gate.id, actor, t.facts, t.methodId);
    if e.Undecided? || t.expectedVersion != e.decision.gateVersion
       || t.expectedRevision != e.decision.accessRevision || t.expectedDigest != e.decision.digest {
      return Stale;
    }
    if !e.decision.allowed {
      return Shut;
    }
    c := if exit.locked && !gate.recordedLock then Bolted else Clear;
  }

  // ---------------------------------------------------------- definition

  method CheckBinding(m: WorldState, gate: Gate) returns (status: Status)
    ensures status == BindingStatus(m.Now(), gate)
  {
    if gate.target == ExitTarget {
      var x := m.LocateExit(gate.from, gate.to);
      if x == |m.exits| || gate.targetItem != 0 {
        return ErrNotFound;
      }
      status := if gate.recordedLock && !m.exits[x].locked then ErrRule else Success;
    } else {
      var i := m.LocateItem(gate.targetItem);
      status := if gate.targetItem == 0 || i == |m.items| || gate.from != 0 || gate.to != 0 || gate.recordedLock
                then ErrNotFound else Success;
    }
  }

  method CheckPredicates(predicates: seq<Predicate>) returns (valid: bool)
    ensures valid == forall p :: p in predicates ==> ValidPredicate(p)
  {
    hide ValidPredicate;
    var k := 0;
    while k < |predicates|
      invariant k <= |predicates| && forall j :: 0 <= j < k ==> ValidPredicate(predicates[j])
    {
      if !ValidPredicate(predicates[k]) {
        return false;
      }
      k := k + 1;
    }
    valid := true;
  }

  lemma {:induction false} TotalSplits(methods: seq<MethodDefinition>, n: nat)
    requires n < |methods|
    ensures PredicateTotal(methods[..n + 1]) == PredicateTotal(methods[..n]) + |methods[n].predicates|
    decreases n
  {
    assert methods[..n + 1][0] == methods[0] && methods[..n + 1][1..] == methods[1..][..n];
    if n > 0 {
      assert methods[..n][0] == methods[0] && methods[..n][1..] == methods[1..][..n - 1];
      TotalSplits(methods[1..], n - 1);
    }
  }

  method CheckMethods(methods: seq<MethodDefinition>) returns (valid: bool, total: nat)
    ensures valid == forall d :: d in methods ==> ValidMethod(d)
    ensures valid ==> total == PredicateTotal(methods)
  {
    hide ValidPredicate;
    total := 0;
    var i := 0;
    while i < |methods|
      invariant i <= |methods| && total == PredicateTotal(methods[..i])
      invariant forall j :: 0 <= j < i ==> ValidMethod(methods[j])
    {
      TotalSplits(methods, i);
      if methods[i].id == 0 || |methods[i].predicates| > MAX_PREDICATES {
        assert !ValidMethod(methods[i]);
        return false, total;
      }
      var valid := CheckPredicates(methods[i].predicates);
      if !valid {
        assert !ValidMethod(methods[i]);
        return false, total;
      }
      total := total + |methods[i].predicates|;
      i := i + 1;
    }
    assert methods[..i] == methods;
    valid := true;
  }

  method AppendRecords(m: WorldState, methods: seq<MethodDefinition>)
    modifies m`gateMethods, m`gatePredicates
    ensures m.Now() == AppendMethods(old(m.Now()), methods)
  {
    ghost var start := m.Now();
    var i := 0;
    while i < |methods|
      invariant i <= |methods|
      invariant AppendMethods(start, methods) == AppendMethods(m.Now(), methods[i..])
    {
      assert methods[i..][0] == methods[i] && methods[i..][1..] == methods[i + 1..];
      m.gateMethods := m.gateMethods + [GateMethod(methods[i].id, |m.gatePredicates|, |methods[i].predicates|)];
      m.gatePredicates := m.gatePredicates + methods[i].predicates;
      i := i + 1;
    }
    assert methods[i..] == [];
  }

  method RaiseAccess(m: WorldState)
    modifies m`accessRevision
    ensures m.Now() == RaiseRevision(old(m.Now()))
  {
    m.accessRevision := Raise64(m.accessRevision);
  }

  method CheckDefinition(m: WorldState, gate: Gate, methods: seq<MethodDefinition>) returns (status: Status, g: nat)
    ensures status == SetGateStatus(m.Now(), gate, methods)
    ensures status == Success ==> g == FindGate(m.gates, gate.id)
  {
    hide ValidMethod;
    hide PredicateTotal;
    hide BindingStatus;
    g := |m.gates|;
    if gate.id == 0 || gate.descriptorVersion == 0 || gate.version == 0 || gate.state == NoState
       || |methods| == 0 || |methods| > MAX_METHODS {
      return ErrInvalid, g;
    }
    status := CheckBinding(m, gate);
    if status != Success {
      return;
    }
    var valid, total := CheckMethods(methods);
    if !valid {
      return ErrInvalid, g;
    }
    if |m.gateMethods| + |methods| > MAX_METHOD_RECORDS || |m.gatePredicates| + total > MAX_PREDICATE_RECORDS {
      return ErrFull, g;
    }
    g := m.LocateGate(gate.id);
    if g == |m.gates| {
      status := if |m.gates| >= MAX_GATES then ErrFull else Success;
    } else {
      status := if m.gates[g].version > gate.version then ErrRule else Success;
    }
  }

  method DefineGate(m: WorldState, gate: Gate, methods: seq<MethodDefinition>) returns (status: Status)
    modifies m
    ensures status == SetGateStatus(old(m.Now()), gate, methods)
    ensures m.Now() == SetGate(old(m.Now()), gate, methods) && m.nextSeq == old(m.nextSeq)
  {
    hide SetGateStatus;
    hide AppendMethods;
    var g;
    status, g := CheckDefinition(m, gate, methods);
    if status != Success {
      return;
    }
    var bound := gate.(methodStart := |m.gateMethods|, methodCount := |methods|);
    if g == |m.gates| {
      m.gates := m.gates + [bound];
    } else {
      m.gates := m.gates[g := bound];
    }
    AppendRecords(m, methods);
    RaiseAccess(m);
  }

  // ------------------------------------------------------------- transition

  method CheckOffer(m: WorldState, a: Action) returns (reason: Reason)
    requires FindGate(m.gates, a.threshold.gate) < |m.gates|
    ensures reason == TransitionRefusal(m.Now(), a)
  {
    hide Evaluate;
    var t := a.threshold;
    var e := EvaluateGate(m, t.gate, a.actor, t.facts, t.methodId);
    if e.Undecided? || t.expectedVersion != e.decision.gateVersion
       || t.expectedRevision != e.decision.accessRevision || t.expectedDigest != e.decision.digest {
      return StaleGateOffer;
    }
    if RequiresMethod(t.transition)
       && (!e.decision.allowed || t.methodId == 0 || e.decision.methodId != t.methodId) {
      return GateClosed;
    }
    var valid := t.resolution <= RESOLUTION_AVOIDANCE_CHECK
                 && (if Checked(t.resolution)
                     then a.dc != 0 && a.dc <= I16_MAX && a.ability <= 5 && a.rollMode <= ROLL_DISADVANTAGE
                     else a.dc == 0)
                 && !(t.resolution == RESOLUTION_SRD_CHECK && |m.claims| >= MAX_CLAIMS);
    reason := if valid then NoReason else InvalidAction;
  }

  method CheckTransitionItem(m: WorldState, a: Action, actor: Actor) returns (reason: Reason)
    requires Known(m.Now(), a.actor) && actor == GetActor(m.Now(), a.actor)
    ensures reason == ItemRefusal(m.Now(), a)
  {
    hide FindActor;
    hide FindItem;
    hide CanExchange;
    var t := a.threshold.transition;
    var i := |m.items|;
    if a.item != 0 {
      i := m.LocateItem(a.item);
    }
    if t == TRANSITION_INSTALL {
      if i == |m.items| || m.items[i].holder != actor.id || Inert(m.items[i]) {
        return ItemNotAvailable;
      }
    } else if t == TRANSITION_REMOVE {
      if i == |m.items| {
        return ItemNotAvailable;
      }
      var fits := CheckExchange(m, actor, |m.items|, i);
      if m.items[i].holder != 0 || m.items[i].zone != Installed || m.items[i].location != actor.location || !fits {
        return if m.items[i].location == actor.location then CapacityExceeded else ItemNotAvailable;
      }
    } else if t == TRANSITION_EXHAUST || t == TRANSITION_RENDER_INERT {
      if i == |m.items| || m.items[i].charges == 0
         || (m.items[i].holder != actor.id
             && !(m.items[i].holder == 0 && m.items[i].location == actor.location && m.items[i].zone == Installed)) {
        return ItemNotAvailable;
      }
    } else if a.item != 0 {
      return InvalidAction;
    }
    reason := NoReason;
  }

  method CheckSettlement(m: WorldState, a: Action, g: nat, actor: Actor) returns (reason: Reason)
    requires Known(m.Now(), a.actor) && actor == GetActor(m.Now(), a.actor)
    requires g == FindGate(m.gates, a.threshold.gate) < |m.gates|
    ensures reason == SettlementRefusal(m.Now(), a)
  {
    hide ItemRefusal;
    hide EffectiveState;
    var state := ResultingState(a.threshold.transition);
    var current := StateFor(m, m.gates[g], a.actor);
    if state != NoState && current == state {
      return InvalidAction;
    }
    reason := CheckTransitionItem(m, a, actor);
    if reason != NoReason {
      return;
    }
    var k := m.LocateActorState(m.gates[g].id, a.actor);
    if |m.claims| >= MAX_CLAIMS
       || (PerActor(m.gates[g]) && state != NoState && k == |m.gateActorStates|
           && |m.gateActorStates| >= MAX_ACTOR_STATES) {
      return CapacityExceeded;
    }
  }

  method WriteState(m: WorldState, g: nat, actor: Id, state: GateState) returns (status: Status)
    requires g < |m.gates|
    modifies m`gates, m`gateActorStates
    ensures status == SetStateStatus(old(m.Now()), old(m.gates)[g], actor, state)
    ensures m.Now() == SetState(old(m.Now()), g, actor, state)
  {
    hide FindActor;
    hide FindItem;
    if state == NoState {
      return Success;
    }
    var gate := m.gates[g];
    if PerActor(gate) {
      var k := m.LocateActorState(gate.id, actor);
      if k == |m.gateActorStates| {
        if |m.gateActorStates| >= MAX_ACTOR_STATES {
          return ErrFull;
        }
        m.gateActorStates := m.gateActorStates + [GateActorState(gate.id, actor, 1, state)];
      } else {
        var record := m.gateActorStates[k];
        m.gateActorStates := m.gateActorStates[k := record.(version := Raise64(record.version), state := state)];
      }
    } else {
      m.gates := m.gates[g := gate.(state := state)];
    }
    m.gates := m.gates[g := m.gates[g].(version := Raise64(m.gates[g].version))];
    status := Success;
  }

  method MoveItem(m: WorldState, a: Action, actor: Actor)
    requires Known(m.Now(), a.actor) && actor == GetActor(m.Now(), a.actor)
    modifies m`items
    ensures m.Now() == MoveTransitionItem(old(m.Now()), a)
  {
    hide FindActor;
    hide FindItem;
    var t := a.threshold.transition;
    var i := m.LocateItem(a.item);
    if i == |m.items| {
      return;
    }
    var x := m.items[i];
    if t == TRANSITION_INSTALL {
      x := x.(holder := 0, location := actor.location, heldSince := 0, zone := Installed, container := 0);
    } else if t == TRANSITION_REMOVE {
      x := x.(holder := actor.id, location := 0, heldSince := m.tick, zone := Carried, container := 0);
    } else if t == TRANSITION_EXHAUST {
      x := ExhaustItem(x.(charges := 0));
    } else if t == TRANSITION_RENDER_INERT {
      x := x.(charges := 0, flags := if Inert(x) then x.flags else x.flags + 1);
    }
    m.items := m.items[i := x];
  }

  method EmitTransition(m: WorldState, transition: nat, out: EventBuffer?)
    modifies m`nextSeq, out
    ensures m.LogOf(out) == AppendAll(old(m.LogOf(out)), TransitionEvents(transition))
  {
    ghost var log := m.LogOf(out);
    m.Emit(GateTransitionApplied, out);
    AppendOne(log, GateTransitionApplied);
    if TRANSITION_INSTALL <= transition <= TRANSITION_RENDER_INERT {
      var kind := if transition == TRANSITION_INSTALL then ItemInstalled
                  else if transition == TRANSITION_REMOVE then ItemRemoved
                  else if transition == TRANSITION_EXHAUST then ItemExhausted else ItemRenderedInert;
      m.Emit(kind, out);
      AppendPair(log, GateTransitionApplied, kind);
      assert TransitionEvents(transition) == [GateTransitionApplied, kind];
    }
  }

  /** Claim, state, item, events, revision: the committed part. */
  method Settle(m: WorldState, a: Action, g: nat, actor: Actor, out: EventBuffer?, ghost log: Log, ghost before: seq<EventKind>)
    returns (status: Status)
    requires Known(m.Now(), a.actor) && actor == GetActor(m.Now(), a.actor)
    requires g == FindGate(m.gates, a.threshold.gate) < |m.gates| && m.LogOf(out) == AppendAll(log, before)
    modifies m, out
    ensures m.Did(log, SettleTransition(old(m.Now()), a, before), status, out)
  {
    hide WorldState.Did;
    hide FindActor;
    hide FindItem;
    hide SettlementRefusal;
    hide MoveTransitionItem;
    hide SetState;
    hide SetStateStatus;
    hide TransitionEvents;
    var reason := CheckSettlement(m, a, g, actor);
    if reason != NoReason {
      AppendAllConcat(log, before, [RuleRejected(reason)]);
      AppendOne(m.LogOf(out), RuleRejected(reason));
      m.Emit(RuleRejected(reason), out);
      m.Conclude(log, SettleTransition(old(m.Now()), a, before), ErrRule, out);
      return ErrRule;
    }
    var state := ResultingState(a.threshold.transition);
    m.claims := m.claims + [NewClaim(a, false)];
    ghost var claimed := m.Now();
    status := WriteState(m, g, a.actor, state);
    if status != Success {
      StateFailureWritesNothing(claimed, g, a.actor, state);
      m.Conclude(log, SettleTransition(old(m.Now()), a, before), status, out);
      return;
    }
    assert m.actors == claimed.actors by { StateLeavesActors(claimed, g, a.actor, state); }
    MoveItem(m, a, actor);
    EmitTransition(m, a.threshold.transition, out);
    AppendAllConcat(log, before, TransitionEvents(a.threshold.transition));
    RaiseAccess(m);
    m.Conclude(log, SettleTransition(old(m.Now()), a, before), status, out);
  }

  lemma StateFailureWritesNothing(w: World, g: nat, actor: Id, state: GateState)
    requires g < |w.gates| && SetStateStatus(w, w.gates[g], actor, state) != Success
    ensures SetState(w, g, actor, state) == w
  {}

  lemma StateLeavesActors(w: World, g: nat, actor: Id, state: GateState)
    requires g < |w.gates|
    ensures SetState(w, g, actor, state).actors == w.actors
  {}

  method Transition(m: WorldState, a: Action, seed: Seed, out: EventBuffer?) returns (status: Status)
    modifies m, out
    ensures m.Did(old(m.LogOf(out)), ApplyGateTransition(old(m.Now()), a, seed), status, out)
  {
    hide WorldState.Did;
    hide FindActor;
    hide FindItem;
    hide TransitionRefusal;
    hide SettleTransition;
    hide CheckTotal;
    var at;
    status, at := m.RequireActive(a.actor, out);
    if status != Success {
      return;
    }
    var t := a.threshold;
    if t.gate == 0 || t.claim == 0 || t.transition < TRANSITION_OPEN
       || t.transition > TRANSITION_RENDER_INERT || |t.facts| > MAX_FACTS {
      status := m.Refuse(InvalidAction, out);
      return;
    }
    var g := m.LocateGate(t.gate);
    if g == |m.gates| {
      status := m.Refuse(TargetNotFound, out);
      return;
    }
    var k := m.LocateClaim(t.claim);
    if k < |m.claims| {
      if !MatchesClaim(m.claims[k], a) {
        status := m.Refuse(GateClaimConflict, out);
      } else {
        m.Conclude(old(m.LogOf(out)), ApplyGateTransition(old(m.Now()), a, seed), status, out);
      }
      return;
    }
    status := AttemptTransition(m, a, seed, g, m.actors[at], out);
  }

  method AttemptTransition(m: WorldState, a: Action, seed: Seed, g: nat, actor: Actor, out: EventBuffer?)
    returns (status: Status)
    requires Known(m.Now(), a.actor) && actor == GetActor(m.Now(), a.actor)
    requires g == FindGate(m.gates, a.threshold.gate) < |m.gates|
    modifies m, out
    ensures var w, t, passed := old(m.Now()), a.threshold, CheckTotal(actor, a, seed) >= a.dc;
            m.Did(old(m.LogOf(out)),
                  if TransitionRefusal(w, a) != NoReason then Reject(w, TransitionRefusal(w, a))
                  else if !Checked(t.resolution) then SettleTransition(w, a, [])
                  else if !passed && t.resolution == RESOLUTION_SRD_CHECK then
                    Outcome(Success, RaiseRevision(w.(claims := w.claims + [NewClaim(a, true)])),
                            [AbilityCheckRolled(false)])
                  else SettleTransition(w, a, [AbilityCheckRolled(passed)]),
                  status, out)
  {
    hide WorldState.Did;
    hide FindActor;
    hide FindItem;
    hide TransitionRefusal;
    hide SettleTransition;
    hide CheckTotal;
    ghost var log := m.LogOf(out);
    var reason := CheckOffer(m, a);
    if reason != NoReason {
      status := m.Refuse(reason, out);
      return;
    }
    if !Checked(a.threshold.resolution) {
      status := Settle(m, a, g, actor, out, log, []);
      return;
    }
    var passed := CheckTotal(actor, a, seed) >= a.dc;
    m.Emit(AbilityCheckRolled(passed), out);
    AppendOne(log, AbilityCheckRolled(passed));
    if !passed && a.threshold.resolution == RESOLUTION_SRD_CHECK {
      m.claims := m.claims + [NewClaim(a, true)];
      RaiseAccess(m);
      status := Success;
      m.Conclude(log, Outcome(Success, m.Now(), [AbilityCheckRolled(false)]), status, out);
    } else {
      status := Settle(m, a, g, actor, out, log, [AbilityCheckRolled(passed)]);
    }
  }
}
