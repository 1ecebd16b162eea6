/**
  What gate evaluation depends on, and what a decision means.
 */
module GateView {
  import opened KernelTypes
  import opened Lookup
  import opened GateRules

  /** The tables an evaluation reads agree; clock, map, ledger and combat may differ. */
  predicate SameView(w: World, v: World) {
    && w.actors == v.actors && w.items == v.items && w.accessRevision == v.accessRevision
    && w.gates == v.gates && w.gateActorStates == v.gateActorStates
    && w.gateMethods == v.gateMethods && w.gatePredicates == v.gatePredicates
  }

  lemma SameHolds(w: World, v: World, p: Predicate, actor: Id, facts: seq<Fact>)
    requires SameView(w, v)
    ensures Holds(w, p, actor, facts) == Holds(v, p, actor, facts)
    ensures Observed(w, p, actor, facts) == Observed(v, p, actor, facts)
  {}

  lemma {:induction false} SameMethodDigest(w: World, v: World, m: GateMethod, actor: Id, facts: seq<Fact>,
                                            digest: nat, k: nat)
    requires SameView(w, v) && MethodInRange(w, m) && k <= m.predicateCount
    ensures MethodDigest(w, m, actor, facts, digest, k) == MethodDigest(v, m, actor, facts, digest, k)
    decreases m.predicateCount - k
  {
    hide Mix;
    hide Holds;
    hide Observed;
    if k < m.predicateCount {
      var p := w.gatePredicates[m.predicateStart + k];
      SameHolds(w, v, p, actor, facts);
      SameMethodDigest(w, v, m, actor, facts, MixPredicate(digest, w, p, actor, facts), k + 1);
    }
  }

  lemma SameMethodVerdict(w: World, v: World, m: GateMethod, actor: Id, facts: seq<Fact>)
    requires SameView(w, v) && MethodInRange(w, m)
    ensures MethodAllows(w, m, actor, facts) == MethodAllows(v, m, actor, facts)
    ensures MethodMask(w, m, actor, facts) == MethodMask(v, m, actor, facts)
  {
    forall k: nat | k < m.predicateCount
      ensures HoldsAt(w, m, actor, facts, k) == HoldsAt(v, m, actor, facts, k)
    {
      SameHolds(w, v, w.gatePredicates[m.predicateStart + k], actor, facts);
    }
    hide Holds;
  }

  lemma {:induction false} SameMethodScan(w: World, v: World, gate: Gate, actor: Id, facts: seq<Fact>, wanted: Id,
                                          i: nat, digest: nat, base: Decision)
    requires SameView(w, v) && gate.methodStart + gate.methodCount <= |w.gateMethods| && i <= gate.methodCount
    ensures EvaluateMethods(w, gate, actor, facts, wanted, i, digest, base)
         == EvaluateMethods(v, gate, actor, facts, wanted, i, digest, base)
    decreases gate.methodCount - i
  {
    hide Mix;
    hide MethodAllows;
    hide MethodMask;
    if i < gate.methodCount {
      var m := w.gateMethods[gate.methodStart + i];
      if MethodInRange(w, m) {
        var methodDigest := MethodDigest(w, m, actor, facts, Mix(digest, m.id), 0);
        SameMethodDigest(w, v, m, actor, facts, Mix(digest, m.id), 0);
        SameMethodVerdict(w, v, m, actor, facts);
        hide MethodDigest;
        SameMethodScan(w, v, gate, actor, facts, wanted, i + 1, digest, base);
        SameMethodScan(w, v, gate, actor, facts, wanted, i + 1, Mix(digest, methodDigest), base);
      }
    }
  }

  /** Two worlds that agree on those tables take the same decision. */
  lemma SameEvaluation(w: World, v: World, gate: Id, actor: Id, facts: seq<Fact>, wanted: Id)
    requires SameView(w, v)
    ensures Evaluate(w, gate, actor, facts, wanted) == Evaluate(v, gate, actor, facts, wanted)
  {
    hide Mix;
    var g := FindGate(w.gates, gate);
    if g < |w.gates| && w.gates[g].methodStart + w.gates[g].methodCount <= |w.gateMethods| && Known(w, actor) {
      var state := EffectiveState(w, w.gates[g], actor);
      SameMethodScan(w, v, w.gates[g], actor, facts, wanted, 0,
                     BaseDigest(w, w.gates[g], GetActor(w, actor), state),
                     NO_DECISION.(gate := w.gates[g].id, gateVersion := w.gates[g].version,
                                  accessRevision := w.accessRevision, state := state));
    }
    hide EvaluateMethods;
  }

  lemma SameCrossing(w: World, v: World, actor: Id, exit: Exit, t: Threshold)
    requires SameView(w, v)
    ensures CrossingOf(w, actor, exit, t) == CrossingOf(v, actor, exit, t)
  {
    hide Evaluate;
    var g := FindExitGate(w.gates, exit.from, exit.to);
    if g < |w.gates| {
      SameEvaluation(w, v, w.gates[g].id, actor, t.facts, t.methodId);
    }
  }

  lemma {:induction false} ScanStampsDecision(w: World, gate: Gate, actor: Id, facts: seq<Fact>, wanted: Id,
                                              i: nat, digest: nat, base: Decision)
    requires gate.methodStart + gate.methodCount <= |w.gateMethods| && i <= gate.methodCount
    ensures var e := EvaluateMethods(w, gate, actor, facts, wanted, i, digest, base);
            e.Decided? ==> e.decision.accessRevision == base.accessRevision
                           && e.decision.gateVersion == base.gateVersion && e.decision.gate == base.gate
    decreases gate.methodCount - i
  {
    hide Mix;
    hide MethodAllows;
    hide MethodMask;
    if i < gate.methodCount {
      var m := w.gateMethods[gate.methodStart + i];
      if MethodInRange(w, m) {
        var methodDigest := MethodDigest(w, m, actor, facts, Mix(digest, m.id), 0);
        hide MethodDigest;
        ScanStampsDecision(w, gate, actor, facts, wanted, i + 1, digest, base);
        ScanStampsDecision(w, gate, actor, facts, wanted, i + 1, Mix(digest, methodDigest), base);
      }
    }
  }

  /** Every decision carries the revision of the world it was taken in. */
  lemma DecisionCarriesRevision(w: World, gate: Id, actor: Id, facts: seq<Fact>, wanted: Id)
    ensures var e := Evaluate(w, gate, actor, facts, wanted);
            e.Decided? ==> e.decision.accessRevision == w.accessRevision && e.decision.gate == gate
  {
    hide Mix;
    var g := FindGate(w.gates, gate);
    if g < |w.gates| && w.gates[g].methodStart + w.gates[g].methodCount <= |w.gateMethods| && Known(w, actor) {
      var state := EffectiveState(w, w.gates[g], actor);
      ScanStampsDecision(w, w.gates[g], actor, facts, wanted, 0,
                         BaseDigest(w, w.gates[g], GetActor(w, actor), state),
                         NO_DECISION.(gate := w.gates[g].id, gateVersion := w.gates[g].version,
                                      accessRevision := w.accessRevision, state := state));
    }
    hide EvaluateMethods;
  }

  lemma OldOfferIsNotCurrent(w: World, gate: Id, actor: Id, t: Threshold)
    requires t.expectedRevision != w.accessRevision
    ensures !OfferIsCurrent(w, gate, actor, t)
  {
    DecisionCarriesRevision(w, gate, actor, t.facts, t.methodId);
    hide Evaluate;
  }
}
