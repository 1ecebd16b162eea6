/**
  What gates mean.  A closed gate lets an active actor through exactly when some
  method of it has every predicate met, each kind told in terms of the tables.
  An applied transition leaves the gate in the state its code names, for whom
  the gate's scope says, and touches no other gate; and only an opening or a
  breaking by an admitted method takes a gate out of its closed state.
 */
module GateMeaning {
  import opened KernelTypes
  import opened Lookup
  import opened GateRules
  import opened GateView
  import opened ItemRules
  import opened Dispatcher
  import opened Effects
  import opened Atomicity
  import opened ItemLaws

  // -------------------------------------------------------------- predicates

  /** The first fact of that name about the subject has this value. */
  predicate FactIs(facts: seq<Fact>, subject: Id, fact: Id, value: nat) {
    exists k :: 0 <= k < |facts| && facts[k].subject == subject && facts[k].fact == fact && facts[k].value == value
                && forall j :: 0 <= j < k ==> !(facts[j].subject == subject && facts[j].fact == fact)
  }

  /** The item is not marked inert: the mark is the lowest flag. */
  predicate Live(x: Item) {
    x.flags % 2 == 0
  }

  /** A predicate of a method, told over the tables. */
  predicate Met(items: seq<Item>, p: Predicate, actor: Id, facts: seq<Fact>) {
    match p.kind
    case HeldItem =>
      exists i :: 0 <= i < |items| && items[i].id == p.subject && items[i].holder == actor && Live(items[i])
    case HeldItemCapability =>
      exists i :: 0 <= i < |items| && items[i].holder == actor && Live(items[i])
                  && FactIs(facts, items[i].id, p.fact, p.expected)
    case InstalledItem =>
      exists i :: 0 <= i < |items| && items[i].id == p.subject && items[i].holder == 0 && items[i].zone == Installed
                  && items[i].location == p.target && Live(items[i])
    case MinimumCharges =>
      exists i :: 0 <= i < |items| && items[i].id == p.subject && items[i].charges >= p.amount && Live(items[i])
    case ActorFact => FactIs(facts, actor, p.fact, p.expected)
    case WorldFact => FactIs(facts, p.subject, p.fact, p.expected)
    case UnknownPredicate => false
  }

  lemma FactMeans(facts: seq<Fact>, subject: Id, fact: Id, value: nat)
    ensures FactHolds(facts, subject, fact, value) <==> FactIs(facts, subject, fact, value)
  {
    hide FirstIndex;
    var k := FindFact(facts, subject, fact);
    if FactIs(facts, subject, fact, value) {
      var j :| 0 <= j < |facts| && facts[j].subject == subject && facts[j].fact == fact && facts[j].value == value
               && forall i :: 0 <= i < j ==> !(facts[i].subject == subject && facts[i].fact == fact);
      assert j == k;
    }
  }

  lemma ShownMeans(x: Item, p: Predicate, actor: Id, facts: seq<Fact>)
    ensures ShowsCapability(x, p, actor, facts)
       <==> x.holder == actor && Live(x) && FactIs(facts, x.id, p.fact, p.expected)
  {
    FactMeans(facts, x.id, p.fact, p.expected);
    hide FactHolds, FactIs;
  }

  lemma OnlyOneOfThatId(items: seq<Item>, id: Id, i: nat)
    requires DistinctIds(items) && i < |items| && items[i].id == id
    ensures FindItem(items, id) == i
  {}

  /** A predicate holds exactly when it is met. */
  lemma HoldsMeans(w: World, p: Predicate, actor: Id, facts: seq<Fact>)
    requires DistinctIds(w.items)
    ensures Holds(w, p, actor, facts) <==> Met(w.items, p, actor, facts)
  {
    hide FactHolds, FactIs, FirstIndex;
    FactMeans(facts, actor, p.fact, p.expected);
    FactMeans(facts, p.subject, p.fact, p.expected);
    forall i | 0 <= i < |w.items| ensures w.items[i].id == p.subject ==> FindItem(w.items, p.subject) == i {
      if w.items[i].id == p.subject {
        OnlyOneOfThatId(w.items, p.subject, i);
      }
    }
    forall i | 0 <= i < |w.items|
      ensures ShowsCapability(w.items[i], p, actor, facts)
         <==> w.items[i].holder == actor && Live(w.items[i]) && FactIs(facts, w.items[i].id, p.fact, p.expected)
    {
      ShownMeans(w.items[i], p, actor, facts);
    }
    hide ShowsCapability, DistinctIds;
  }

  // -------------------------------------------------------------- evaluation

  /** The method's predicates lie in the table, and every one of them is met. */
  predicate AllMet(w: World, m: GateMethod, actor: Id, facts: seq<Fact>) {
    && m.predicateStart + m.predicateCount <= |w.gatePredicates|
    && forall k :: m.predicateStart <= k < m.predicateStart + m.predicateCount ==>
         Met(w.items, w.gatePredicates[k], actor, facts)
  }

  lemma MethodMeans(w: World, m: GateMethod, actor: Id, facts: seq<Fact>)
    requires DistinctIds(w.items) && MethodInRange(w, m)
    ensures MethodAllows(w, m, actor, facts) <==> AllMet(w, m, actor, facts)
    ensures forall k: nat :: k in MethodMask(w, m, actor, facts) <==>
              k < m.predicateCount && Met(w.items, w.gatePredicates[m.predicateStart + k], actor, facts)
  {
    hide Holds, Met, DistinctIds;
    forall p ensures Holds(w, p, actor, facts) <==> Met(w.items, p, actor, facts) {
      HoldsMeans(w, p, actor, facts);
    }
    if MethodAllows(w, m, actor, facts) {
      forall k | m.predicateStart <= k < m.predicateStart + m.predicateCount
        ensures Met(w.items, w.gatePredicates[k], actor, facts)
      {
        assert HoldsAt(w, m, actor, facts, k - m.predicateStart);
      }
    }
  }

  /** The gate's own stretch of the method table. */
  function MethodsOf(w: World, gate: Gate): seq<GateMethod>
    requires gate.methodStart + gate.methodCount <= |w.gateMethods|
  {
    w.gateMethods[gate.methodStart..gate.methodStart + gate.methodCount]
  }

  /** The `i`-th method admits the actor: its predicates are all met, and it is the
      first of the wanted name when one is asked for. */
  predicate Admitting(w: World, methods: seq<GateMethod>, actor: Id, facts: seq<Fact>, wanted: Id, i: nat)
    requires i < |methods|
  {
    && AllMet(w, methods[i], actor, facts)
    && (wanted != 0 ==> methods[i].id == wanted && forall j :: 0 <= j < i ==> methods[j].id != wanted)
  }

  /** The mask shows which of the method's predicates are met. */
  ghost predicate MaskIs(w: World, m: GateMethod, actor: Id, facts: seq<Fact>, mask: set<nat>)
    requires MethodInRange(w, m)
  {
    forall i: nat :: i in mask <==> i < m.predicateCount && Met(w.items, w.gatePredicates[m.predicateStart + i], actor, facts)
  }

  /** What a decision tells of its method: the one that admits; for a refusal the one
      asked for, if the gate has it, and else none. */
  ghost predicate TellsMethod(w: World, methods: seq<GateMethod>, actor: Id, facts: seq<Fact>, wanted: Id, d: Decision) {
    if d.allowed || (wanted != 0 && exists k :: 0 <= k < |methods| && methods[k].id == wanted) then
      exists k :: 0 <= k < |methods| && d.methodId == methods[k].id && MethodInRange(w, methods[k])
        && MaskIs(w, methods[k], actor, facts, d.mask)
        && (d.allowed ==> Admitting(w, methods, actor, facts, wanted, k)
                          && forall j :: 0 <= j < k ==> !Admitting(w, methods, actor, facts, wanted, j))
        && (!d.allowed ==> methods[k].id == wanted && forall j :: 0 <= j < k ==> methods[j].id != wanted)
    else d.methodId == 0 && d.mask == {}
  }

  lemma {:induction false} ScanMeans(w: World, gate: Gate, actor: Id, facts: seq<Fact>, wanted: Id,
                                     i: nat, digest: nat, base: Decision)
    requires DistinctIds(w.items) && gate.methodStart + gate.methodCount <= |w.gateMethods| && i <= gate.methodCount
    requires !base.allowed && base.methodId == 0 && base.mask == {}
    requires EvaluateMethods(w, gate, actor, facts, wanted, i, digest, base).Decided?
    requires forall j :: 0 <= j < i ==> !Admitting(w, MethodsOf(w, gate), actor, facts, wanted, j)
    requires wanted != 0 ==> forall j :: 0 <= j < i ==> MethodsOf(w, gate)[j].id != wanted
    ensures var d, methods := EvaluateMethods(w, gate, actor, facts, wanted, i, digest, base).decision, MethodsOf(w, gate);
            && (d.allowed <==> exists k :: 0 <= k < |methods| && Admitting(w, methods, actor, facts, wanted, k))
            && TellsMethod(w, methods, actor, facts, wanted, d)
            && d == base.(methodId := d.methodId, mask := d.mask, allowed := d.allowed, reason := d.reason, digest := d.digest)
            && (!d.allowed ==> d.reason == GateClosed)
    decreases gate.methodCount - i
  {
    hide Mix, MethodDigest, MethodAllows, MethodMask, AllMet, DistinctIds;
    if i < gate.methodCount {
      var m := w.gateMethods[gate.methodStart + i];
      assert MethodsOf(w, gate)[i] == m;
      MethodMeans(w, m, actor, facts);
      assert MaskIs(w, m, actor, facts, MethodMask(w, m, actor, facts));
      if wanted != 0 && m.id != wanted {
        ScanMeans(w, gate, actor, facts, wanted, i + 1, digest, base);
      } else if MethodAllows(w, m, actor, facts) {
        assert Admitting(w, MethodsOf(w, gate), actor, facts, wanted, i);
      } else if wanted == 0 {
        ScanMeans(w, gate, actor, facts, wanted, i + 1,
                  Mix(digest, MethodDigest(w, m, actor, facts, Mix(digest, m.id), 0)), base);
      }
    }
  }

  predicate KeptPerActor(gate: Gate) {
    gate.scope == ActorScope || gate.scope == HolderScope
  }

  /** The state of a gate for an actor: its own record if the gate keeps one for
      each actor and this actor has one, else the gate's. */
  function StateFor(w: World, gate: Gate, actor: Id): GateState {
    var k := FindActorState(w.gateActorStates, gate.id, actor);
    if KeptPerActor(gate) && k < |w.gateActorStates| then w.gateActorStates[k].state else gate.state
  }

  /** Main result: when a gate lets an actor through. */
  lemma EvaluationMeans(w: World, g: nat, actor: nat, facts: seq<Fact>, wanted: Id)
    requires DistinctIds(w.items) && g < |w.gates| && FindGate(w.gates, w.gates[g].id) == g
    requires actor < |w.actors| && FindActor(w.actors, w.actors[actor].id) == actor
    requires Evaluate(w, w.gates[g].id, w.actors[actor].id, facts, wanted).Decided?
    ensures var gate, id := w.gates[g], w.actors[actor].id;
            var d := Evaluate(w, gate.id, id, facts, wanted).decision;
            && d.state == StateFor(w, gate, id)
            && gate.methodStart + gate.methodCount <= |w.gateMethods|
            && (d.allowed <==>
                  || d.state == Open || d.state == Broken
                  || (&& (d.state == Closed || d.state == GateState.NoState) && w.actors[actor].status == Active
                      && exists k :: 0 <= k < gate.methodCount && Admitting(w, MethodsOf(w, gate), id, facts, wanted, k)))
            && (if (d.state == Closed || d.state == GateState.NoState) && w.actors[actor].status == Active
                then TellsMethod(w, MethodsOf(w, gate), id, facts, wanted, d) else d.methodId == 0 && d.mask == {})
            && d.gate == gate.id && d.gateVersion == gate.version && d.accessRevision == w.accessRevision
            && (!d.allowed ==> d.reason == GateClosed)
  {
    hide Mix, BaseDigest, Admitting, MaskIs, DistinctIds;
    var gate, id := w.gates[g], w.actors[actor].id;
    var state := EffectiveState(w, gate, id);
    if state != Open && state != Broken && state != InertState && w.actors[actor].status == Active {
      ScanMeans(w, gate, id, facts, wanted, 0, BaseDigest(w, gate, GetActor(w, id), state),
                NO_DECISION.(gate := gate.id, gateVersion := gate.version,
                             accessRevision := w.accessRevision, state := state));
    }
    hide EvaluateMethods;
  }

  /** Some method of the gate points outside the predicate table. */
  predicate Strays(w: World, gate: Gate)
    requires gate.methodStart + gate.methodCount <= |w.gateMethods|
  {
    exists k :: gate.methodStart <= k < gate.methodStart + gate.methodCount && !MethodInRange(w, w.gateMethods[k])
  }

  /** When there is no decision at all, and what is told then. */
  lemma UndecidedMeans(w: World, gate: Id, actor: Id, facts: seq<Fact>, wanted: Id)
    ensures var g, e := FindGate(w.gates, gate), Evaluate(w, gate, actor, facts, wanted);
            && (gate == 0 || actor == 0 || |facts| > 8 ==> e == Undecided(ErrInvalid))
            && (gate != 0 && actor != 0 && |facts| <= 8 ==>
                  && (g == |w.gates| ==> e == Undecided(ErrNotFound))
                  && (g < |w.gates| && w.gates[g].methodStart + w.gates[g].methodCount > |w.gateMethods| ==>
                        e == Undecided(ErrInvalid))
                  && (g < |w.gates| && w.gates[g].methodStart + w.gates[g].methodCount <= |w.gateMethods| ==>
                        && (FindActor(w.actors, actor) == |w.actors| ==> e == Undecided(ErrNotFound))
                        && (FindActor(w.actors, actor) < |w.actors| && e.Undecided? ==>
                              e.status == ErrInvalid && Strays(w, w.gates[g]))))
  {
    hide Mix, BaseDigest, FirstIndex;
    var g := FindGate(w.gates, gate);
    if gate != 0 && actor != 0 && |facts| <= 8 && g < |w.gates| && FindActor(w.actors, actor) < |w.actors|
       && w.gates[g].methodStart + w.gates[g].methodCount <= |w.gateMethods| {
      var state := EffectiveState(w, w.gates[g], actor);
      ScanUndecided(w, w.gates[g], actor, facts, wanted, 0, BaseDigest(w, w.gates[g], GetActor(w, actor), state),
                    NO_DECISION.(gate := w.gates[g].id, gateVersion := w.gates[g].version,
                                 accessRevision := w.accessRevision, state := state));
    }
    hide EvaluateMethods;
  }

  lemma {:induction false} ScanUndecided(w: World, gate: Gate, actor: Id, facts: seq<Fact>, wanted: Id,
                                         i: nat, digest: nat, base: Decision)
    requires gate.methodStart + gate.methodCount <= |w.gateMethods| && i <= gate.methodCount
    ensures var e := EvaluateMethods(w, gate, actor, facts, wanted, i, digest, base);
            e.Undecided? ==> e.status == ErrInvalid && Strays(w, gate)
    decreases gate.methodCount - i
  {
    hide Mix, MethodDigest, MethodAllows, MethodMask;
    if i < gate.methodCount {
      var m := w.gateMethods[gate.methodStart + i];
      ScanUndecided(w, gate, actor, facts, wanted, i + 1, digest, base);
      if MethodInRange(w, m) {
        ScanUndecided(w, gate, actor, facts, wanted, i + 1,
                      Mix(digest, MethodDigest(w, m, actor, facts, Mix(digest, m.id), 0)), base);
      }
    }
  }

  // -------------------------------------------------------------- transitions

  /** The call applied its transition: neither a repeat nor a failed attempt. */
  predicate Applied(w: World, c: Call) {
    c.action.kind == GateTransition && Step(w, c).status == Success && GateTransitionApplied in Step(w, c).events
  }

  /** The state a transition leaves, by its code: one opens, two closes, three
      breaks, four relocks, and the others leave the state alone. */
  predicate Leaves(transition: nat, before: GateState, after: GateState) {
    match transition
    case 1 => after == Open
    case 2 => after == Closed
    case 3 => after == Broken
    case 4 => after == Closed
    case _ => after == before
  }

  lemma SetStateMeans(w: World, g: nat, actor: Id, transition: nat, i: nat, other: Id)
    requires g < |w.gates| && FindGate(w.gates, w.gates[g].id) == g
    requires i < |w.gates| && FindGate(w.gates, w.gates[i].id) == i
    requires SetStateStatus(w, w.gates[g], actor, ResultingState(transition)) == Success
    ensures var r := SetState(w, g, actor, ResultingState(transition));
            && |r.gates| == |w.gates| && r.gates[i].id == w.gates[i].id && r.gates[i].scope == w.gates[i].scope
            && (i == g && (!KeptPerActor(w.gates[g]) || other == actor)
                ==> Leaves(transition, StateFor(w, w.gates[i], other), StateFor(r, r.gates[i], other)))
            && (!(i == g && (!KeptPerActor(w.gates[g]) || other == actor))
                ==> StateFor(r, r.gates[i], other) == StateFor(w, w.gates[i], other))
  {
    hide FirstIndex;
    var state, gate := ResultingState(transition), w.gates[g];
    if state != GateState.NoState && KeptPerActor(gate) {
      var r := SetState(w, g, actor, state);
      ActorStatesStay(w, gate.id, actor, r.gateActorStates, w.gates[i].id, other);
    }
  }

  /** Writing one actor's record for a gate leaves every other record found as it was. */
  lemma ActorStatesStay(w: World, gate: Id, actor: Id, after: seq<GateActorState>, other: Id, id: Id)
    requires var k := FindActorState(w.gateActorStates, gate, actor);
             || (k == |w.gateActorStates| && |after| == k + 1 && after[..k] == w.gateActorStates
                 && after[k].gate == gate && after[k].actor == actor)
             || (k < |w.gateActorStates| && |after| == |w.gateActorStates| && after[k].gate == gate && after[k].actor == actor
                 && forall j :: 0 <= j < |after| && j != k ==> after[j] == w.gateActorStates[j])
    ensures var k, m := FindActorState(w.gateActorStates, gate, actor), FindActorState(after, other, id);
            if other == gate && id == actor then m == k
            else if m < |after| then m < |w.gateActorStates| && m == FindActorState(w.gateActorStates, other, id)
                                     && after[m] == w.gateActorStates[m]
            else FindActorState(w.gateActorStates, other, id) == |w.gateActorStates|
  {
    hide FirstIndex;
    var k := FindActorState(w.gateActorStates, gate, actor);
    if k == |w.gateActorStates| {
      assert forall j :: 0 <= j < k ==> after[j] == after[..k][j];
    }
  }

  /** What a settled transition did: the state of its gate for those its scope
      says, and no other state. */
  predicate WritesState(w: World, r: World, a: Action, i: nat, other: Id)
    requires i < |w.gates|
  {
    var t := a.threshold;
    && |r.gates| == |w.gates| && r.gates[i].id == w.gates[i].id && r.gates[i].scope == w.gates[i].scope
    && (if w.gates[i].id == t.gate && (!KeptPerActor(w.gates[i]) || other == a.actor)
        then Leaves(t.transition, StateFor(w, w.gates[i], other), StateFor(r, r.gates[i], other))
        else StateFor(r, r.gates[i], other) == StateFor(w, w.gates[i], other))
  }

  lemma SettlementWrites(w: World, a: Action, before: seq<EventKind>, i: nat, other: Id)
    requires Known(w, a.actor) && FindGate(w.gates, a.threshold.gate) < |w.gates|
    requires SettleTransition(w, a, before).status == Success
    requires i < |w.gates| && FindGate(w.gates, w.gates[i].id) == i
    ensures WritesState(w, SettleTransition(w, a, before).world, a, i, other)
  {
    var g, transition := FindGate(w.gates, a.threshold.gate), a.threshold.transition;
    var claimed := w.(claims := w.claims + [NewClaim(a, false)]);
    SetStateMeans(claimed, g, a.actor, transition, i, other);
    var moved := SetState(claimed, g, a.actor, ResultingState(transition));
    assert StateFor(claimed, claimed.gates[i], other) == StateFor(w, w.gates[i], other);
    assert SettleTransition(w, a, before).world == RaiseRevision(MoveTransitionItem(moved, a));
    MovementKeepsGates(moved, a);
    hide SettleTransition, SetState, SetStateStatus, MoveTransitionItem, FirstIndex;
  }

  lemma MovementKeepsGates(w: World, a: Action)
    requires Known(w, a.actor)
    ensures var r := MoveTransitionItem(w, a); r == w.(items := r.items)
  {}

  /** The rule of a gate transition as the call sees it. */
  lemma AppliedIsSettled(w: World, c: Call) returns (before: seq<EventKind>)
    requires Applied(w, c)
    ensures var v, a := Clocked(w, c), c.action;
            && !NamesRecordedClaim(w.claims, a) && !BarredByCombat(w, a)
            && Known(v, a.actor) && FindGate(v.gates, a.threshold.gate) < |v.gates|
            && TransitionRefusal(v, a) == NoReason && SettlementRefusal(v, a) == NoReason
            && SettleTransition(v, a, before).status == Success && Step(w, c) == SettleTransition(v, a, before)
            && before == if a.threshold.resolution == 1 || a.threshold.resolution == 3
                         then [AbilityCheckRolled(CheckTotal(GetActor(v, a.actor), a, c.seed) >= a.dc)] else []
  {
    hide TransitionRefusal, SettlementRefusal, BarredByCombat, CheckTotal, SetState, SetStateStatus, MoveTransitionItem, FindClaim;
    var v, a := Clocked(w, c), c.action;
    StepOfTransition(w, c);
    before := if Checked(a.threshold.resolution)
              then [AbilityCheckRolled(CheckTotal(GetActor(v, a.actor), a, c.seed) >= a.dc)] else [];
  }

  lemma StepOfTransition(w: World, c: Call)
    requires c.action.kind == GateTransition && Step(w, c).status == Success && Step(w, c).events != []
    ensures !NamesRecordedClaim(w.claims, c.action) && !BarredByCombat(w, c.action)
    ensures Step(w, c) == ApplyGateTransition(Clocked(w, c), c.action, c.seed)
  {
    hide ApplyGateTransition, BarredByCombat;
  }

  /** Main result: an applied transition leaves its gate in the state its code names,
      for everybody or, when the gate keeps a state for each actor, for its own
      actor alone; every other state of every gate stays. */
  lemma TransitionWritesState(w: World, c: Call, i: nat, other: Id)
    requires Applied(w, c) && i < |w.gates| && FindGate(w.gates, w.gates[i].id) == i
    ensures WritesState(w, Step(w, c).world, c.action, i, other)
  {
    hide SettleTransition, Step, TransitionRefusal, SettlementRefusal, NamesRecordedClaim, BarredByCombat, Applied, Leaves,
         FindActorState, FindGate;
    var before := AppliedIsSettled(w, c);
    SettlementWrites(Clocked(w, c), c.action, before, i, other);
  }

  /** One more, up to the largest number. */
  predicate IsNext(before: nat, after: nat) {
    after == if before == 0xFFFF_FFFF_FFFF_FFFF then before else before + 1
  }

  /** A transition that writes a state gives its gate a new version, and the actor's own
      record a new one or the first; no other version changes. */
  predicate Versioned(w: World, r: World, a: Action, g: nat)
    requires g < |w.gates|
  {
    var gate, k, n := w.gates[g], FindActorState(w.gateActorStates, w.gates[g].id, a.actor), |w.gateActorStates|;
    && |r.gates| == |w.gates| && (forall i :: 0 <= i < |w.gates| && i != g ==> r.gates[i].version == w.gates[i].version)
    && if a.threshold.transition !in {1, 2, 3, 4} then r.gates[g].version == gate.version && r.gateActorStates == w.gateActorStates
       else
         && IsNext(gate.version, r.gates[g].version)
         && (!KeptPerActor(gate) ==> r.gateActorStates == w.gateActorStates)
         && (KeptPerActor(gate) && k == n ==>
               |r.gateActorStates| == n + 1 && r.gateActorStates[..n] == w.gateActorStates && r.gateActorStates[n].version == 1)
         && (KeptPerActor(gate) && k < n ==>
               |r.gateActorStates| == n && r.gateActorStates == w.gateActorStates[k := r.gateActorStates[k]]
               && IsNext(w.gateActorStates[k].version, r.gateActorStates[k].version))
  }

  lemma SetStateVersions(w: World, a: Action, g: nat)
    requires g < |w.gates| && 1 <= a.threshold.transition <= 8
    requires SetStateStatus(w, w.gates[g], a.actor, ResultingState(a.threshold.transition)) == Success
    ensures Versioned(w, SetState(w, g, a.actor, ResultingState(a.threshold.transition)), a, g)
  {
    hide FirstIndex;
  }

  lemma SettlementVersions(w: World, a: Action, before: seq<EventKind>)
    requires Known(w, a.actor) && FindGate(w.gates, a.threshold.gate) < |w.gates| && 1 <= a.threshold.transition <= 8
    requires SettleTransition(w, a, before).status == Success
    ensures Versioned(w, SettleTransition(w, a, before).world, a, FindGate(w.gates, a.threshold.gate))
  {
    var g, transition := FindGate(w.gates, a.threshold.gate), a.threshold.transition;
    var claimed := w.(claims := w.claims + [NewClaim(a, false)]);
    SetStateVersions(claimed, a, g);
    var moved := SetState(claimed, g, a.actor, ResultingState(transition));
    assert SettleTransition(w, a, before).world == RaiseRevision(MoveTransitionItem(moved, a));
    MovementKeepsGates(moved, a);
    hide SettleTransition, SetState, SetStateStatus, MoveTransitionItem, FirstIndex;
  }

  /** Main result: the versions after an applied transition. */
  lemma TransitionRaisesVersions(w: World, c: Call)
    requires Applied(w, c)
    ensures FindGate(w.gates, c.action.threshold.gate) < |w.gates|
    ensures Versioned(w, Step(w, c).world, c.action, FindGate(w.gates, c.action.threshold.gate))
  {
    hide *;
    var before := AppliedIsSettled(w, c);
    AppliedHasIds(w, c);
    ClockedKeepsGates(w, c);
    SettlementVersions(Clocked(w, c), c.action, before);
    VersionedThere(w, Clocked(w, c), Step(w, c).world, c.action);
  }

  lemma ClockedKeepsGates(w: World, c: Call)
    ensures Clocked(w, c) == w.(tick := Clocked(w, c).tick)
  {}

  lemma VersionedThere(w: World, v: World, r: World, a: Action)
    requires v == w.(tick := v.tick) && FindGate(v.gates, a.threshold.gate) < |v.gates|
    requires Versioned(v, r, a, FindGate(v.gates, a.threshold.gate))
    ensures FindGate(w.gates, a.threshold.gate) < |w.gates| && Versioned(w, r, a, FindGate(w.gates, a.threshold.gate))
  {
    hide FirstIndex, IsNext;
  }

  lemma AnsweredFromLedger(w: World, c: Call)
    requires NamesRecordedClaim(w.claims, c.action)
    ensures Step(w, c).world == w && !Applied(w, c)
  {
    hide ApplyRule, MatchesClaim;
  }

  lemma RuleKeepsStates(w: World, c: Call)
    requires !(c.action.kind == GateTransition && ApplyRule(w, c).status == Success
               && GateTransitionApplied in ApplyRule(w, c).events)
    ensures ApplyRule(w, c).world.gates == w.gates && ApplyRule(w, c).world.gateActorStates == w.gateActorStates
  {
    RuleFrame(w, c);
    RuleIsAtomic(w, c);
    if c.action.kind == GateTransition {
      UnappliedKeepsStates(w, c.action, c.seed);
    }
    hide ApplyGateTransition, ApplyItemRule, ApplyCombatRule, ApplyActorRule, ApplyReport;
  }

  /** A call that applies no transition leaves every state of every gate. */
  lemma OnlyTransitionsWriteStates(w: World, c: Call)
    requires !Applied(w, c)
    ensures Step(w, c).world.gates == w.gates && Step(w, c).world.gateActorStates == w.gateActorStates
  {
    hide Step, ApplyRule, NamesRecordedClaim, BarredByCombat;
    if NamesRecordedClaim(w.claims, c.action) {
      AnsweredFromLedger(w, c);
    } else if BarredByCombat(w, c.action) {
      BarredCallIsRefused(w, c);
    } else {
      StepIsTheRule(w, c);
      RuleKeepsStates(Clocked(w, c), c);
    }
  }

  lemma UnappliedKeepsStates(w: World, a: Action, seed: Seed)
    ensures var o := ApplyGateTransition(w, a, seed);
            o.status == Success && GateTransitionApplied !in o.events ==>
              o.world.gates == w.gates && o.world.gateActorStates == w.gateActorStates
  {
    hide TransitionRefusal, SettlementRefusal, CheckTotal, SetState, MoveTransitionItem, SetStateStatus, MatchesClaim;
  }

  /** Main result: a call takes a gate out of its closed state, for anybody, only by
      opening or breaking it through a method that admits the call's own actor. */
  lemma OnlyAMethodOpens(w: World, c: Call, i: nat, other: Id)
    requires i < |w.gates| && FindGate(w.gates, w.gates[i].id) == i
    requires |Step(w, c).world.gates| == |w.gates|
    requires StateFor(w, w.gates[i], other) == Closed && StateFor(Step(w, c).world, Step(w, c).world.gates[i], other) != Closed
    ensures var t := c.action.threshold;
            && Applied(w, c) && t.gate == w.gates[i].id
            && (t.transition == 1 || t.transition == 3)
            && var e := Evaluate(w, t.gate, c.action.actor, t.facts, t.methodId);
               e.Decided? && e.decision.allowed && t.methodId != 0 && e.decision.methodId == t.methodId
  {
    hide Applied, Step, SettleTransition, SettlementRefusal, Evaluate, FirstIndex, BarredByCombat, NamesRecordedClaim,
         TransitionRefusal;
    if Applied(w, c) {
      TransitionWritesState(w, c, i, other);
      var before := AppliedIsSettled(w, c);
      MethodWasAdmitted(w, Clocked(w, c), c.action);
    } else {
      OnlyTransitionsWriteStates(w, c);
    }
  }

  lemma MethodWasAdmitted(w: World, v: World, a: Action)
    requires SameView(w, v) && FindGate(v.gates, a.threshold.gate) < |v.gates| && TransitionRefusal(v, a) == NoReason
    requires a.threshold.transition in {TRANSITION_OPEN, TRANSITION_BREAK, TRANSITION_INSTALL, TRANSITION_EXHAUST,
                                        TRANSITION_RENDER_INERT}
    ensures var t := a.threshold; var e := Evaluate(w, t.gate, a.actor, t.facts, t.methodId);
            e.Decided? && e.decision.allowed && t.methodId != 0 && e.decision.methodId == t.methodId
  {
    var t := a.threshold;
    SameEvaluation(w, v, t.gate, a.actor, t.facts, t.methodId);
    hide Evaluate;
  }

  /** An evaluation tells the gate's state, and open or broken means allowed. */
  lemma StateIsEvaluated(w: World, gate: Id, actor: Id, facts: seq<Fact>, wanted: Id)
    requires gate != 0 && actor != 0 && |facts| <= MAX_FACTS && Known(w, actor) && FindGate(w.gates, gate) < |w.gates|
    requires var g := w.gates[FindGate(w.gates, gate)]; g.methodStart + g.methodCount <= |w.gateMethods|
    ensures var e, state := Evaluate(w, gate, actor, facts, wanted), StateFor(w, w.gates[FindGate(w.gates, gate)], actor);
            && (e.Decided? ==> e.decision.state == state)
            && (state == Open || state == Broken ==> e.Decided? && e.decision.allowed)
  {
    hide Mix, BaseDigest, FirstIndex;
    var g := w.gates[FindGate(w.gates, gate)];
    var state := EffectiveState(w, g, actor);
    if state != Open && state != Broken && state != InertState && GetActor(w, actor).status == Active {
      ScanKeepsState(w, g, actor, facts, wanted, 0, BaseDigest(w, g, GetActor(w, actor), state),
                     NO_DECISION.(gate := g.id, gateVersion := g.version, accessRevision := w.accessRevision, state := state));
    }
    hide EvaluateMethods;
  }

  lemma {:induction false} ScanKeepsState(w: World, gate: Gate, actor: Id, facts: seq<Fact>, wanted: Id,
                                          i: nat, digest: nat, base: Decision)
    requires gate.methodStart + gate.methodCount <= |w.gateMethods| && i <= gate.methodCount
    ensures var e := EvaluateMethods(w, gate, actor, facts, wanted, i, digest, base);
            e.Decided? ==> e.decision.state == base.state
    decreases gate.methodCount - i
  {
    hide Mix, MethodDigest, MethodAllows, MethodMask;
    if i < gate.methodCount {
      var m := w.gateMethods[gate.methodStart + i];
      ScanKeepsState(w, gate, actor, facts, wanted, i + 1, digest, base);
      if MethodInRange(w, m) {
        ScanKeepsState(w, gate, actor, facts, wanted, i + 1,
                       Mix(digest, MethodDigest(w, m, actor, facts, Mix(digest, m.id), 0)), base);
      }
    }
  }

  /** After an applied opening or breaking the gate lets its actor through, whatever
      the facts and the method asked for; after a closing it is closed. */
  lemma AppliedIsEvaluated(w: World, c: Call, facts: seq<Fact>, wanted: Id)
    requires Applied(w, c) && |facts| <= MAX_FACTS
    ensures var t := c.action.threshold;
            var e := Evaluate(Step(w, c).world, t.gate, c.action.actor, facts, wanted);
            && (t.transition == 1 ==> e.Decided? && e.decision.state == Open && e.decision.allowed)
            && (t.transition == 3 ==> e.Decided? && e.decision.state == Broken && e.decision.allowed)
            && (t.transition == 2 || t.transition == 4 ==> e.Decided? ==> e.decision.state == Closed)
  {
    var a, r := c.action, Step(w, c).world;
    AppliedHasIds(w, c);
    GatesStayInPlace(w, c);
    TransitionWritesState(w, c, FindGate(w.gates, a.threshold.gate), a.actor);
    StepFrame(w, c);
    ActorPrefix(w.actors, r.actors, a.actor);
    hide Step, FirstIndex, Applied, Evaluate, StateFor, OnlyUnlocks;
    StateIsEvaluated(r, a.threshold.gate, a.actor, facts, wanted);
  }

  lemma AppliedHasIds(w: World, c: Call)
    requires Applied(w, c)
    ensures var t := c.action.threshold; var g := FindGate(w.gates, t.gate);
            && t.gate != 0 && t.claim != 0 && 1 <= t.transition <= 8 && |t.facts| <= 8
            && IsActive(w, c.action.actor) && c.action.actor != 0 && g < |w.gates|
            && w.gates[g].methodStart + w.gates[g].methodCount <= |w.gateMethods|
  {
    hide BarredByCombat, CheckTotal, SettleTransition, SettlementRefusal, EvaluateMethods, BaseDigest, FirstIndex;
    StepOfTransition(w, c);
    var before := AppliedIsSettled(w, c);
    hide Step;
  }

  lemma GatesStayInPlace(w: World, c: Call)
    ensures var r := Step(w, c).world;
            && |r.gates| == |w.gates| && r.gateMethods == w.gateMethods
            && (forall id :: FindGate(r.gates, id) == FindGate(w.gates, id))
            && (forall i :: 0 <= i < |w.gates| ==>
                  r.gates[i] == w.gates[i].(version := r.gates[i].version, state := r.gates[i].state))
  {
    StepFrame(w, c);
    hide Step, FirstIndex;
  }
}
