/**
  The flat gate tables refine nested definitions.  However gates are defined and
  redefined, every range stays in bounds, evaluating the tables is evaluating
  the definitions, and one definition never disturbs another gate's verdict.
 */
module GateArena {
  import opened KernelTypes
  import opened Lookup
  import opened GateRules
  import opened Dispatcher
  import opened Effects

  // --------------------------------------------------------- the nested form

  /** A gate with its methods inside it. */
  datatype NestedGate = NestedGate(header: Gate, methods: seq<MethodDefinition>)

  /** What a decision says, apart from versions and the evidence digest. */
  datatype Verdict = Verdict(allowed: bool, methodId: Id, mask: set<nat>, reason: Reason)

  function View(d: Decision): Verdict {
    Verdict(d.allowed, d.methodId, d.mask, d.reason)
  }

  predicate AllHold(w: World, m: MethodDefinition, actor: Id, facts: seq<Fact>) {
    forall p :: p in m.predicates ==> Holds(w, p, actor, facts)
  }

  function HoldingOnes(w: World, m: MethodDefinition, actor: Id, facts: seq<Fact>): set<nat> {
    set k: nat | k < |m.predicates| && Holds(w, m.predicates[k], actor, facts)
  }

  /** The method that decides, from offset `i` on: the wanted one, or without a
      wish the first whose predicates all hold. */
  function DecidingMethod(w: World, methods: seq<MethodDefinition>, actor: Id, facts: seq<Fact>, wanted: Id, i: nat): (k: nat)
    requires i <= |methods|
    ensures i <= k <= |methods|
    ensures k < |methods| ==> if wanted != 0 then methods[k].id == wanted else AllHold(w, methods[k], actor, facts)
    ensures forall j :: i <= j < k ==>
              if wanted != 0 then methods[j].id != wanted else !AllHold(w, methods[j], actor, facts)
    decreases |methods| - i
  {
    if i == |methods| then i
    else if (if wanted != 0 then methods[i].id == wanted else AllHold(w, methods[i], actor, facts)) then i
    else DecidingMethod(w, methods, actor, facts, wanted, i + 1)
  }

  function MethodVerdict(w: World, m: MethodDefinition, actor: Id, facts: seq<Fact>): Verdict {
    Verdict(AllHold(w, m, actor, facts), m.id, HoldingOnes(w, m, actor, facts),
            if AllHold(w, m, actor, facts) then NoReason else GateClosed)
  }

  function ScanVerdict(w: World, methods: seq<MethodDefinition>, actor: Id, facts: seq<Fact>, wanted: Id, i: nat): Verdict
    requires i <= |methods|
  {
    var k := DecidingMethod(w, methods, actor, facts, wanted, i);
    if k == |methods| then Verdict(false, 0, {}, GateClosed) else MethodVerdict(w, methods[k], actor, facts)
  }

  function NestedVerdict(w: World, g: NestedGate, actor: Id, facts: seq<Fact>, wanted: Id): Verdict
    requires Known(w, actor)
  {
    var state := EffectiveState(w, g.header, actor);
    if state == Open || state == Broken then Verdict(true, 0, {}, NoReason)
    else if state == InertState || GetActor(w, actor).status != Active then Verdict(false, 0, {}, GateClosed)
    else ScanVerdict(w, g.methods, actor, facts, wanted, 0)
  }

  /** The verdict in words: open or broken, or closed with an active actor and a
      method, the first of its name when one is asked for, that holds throughout. */
  lemma AllowedMeans(w: World, g: NestedGate, actor: Id, facts: seq<Fact>, wanted: Id)
    requires Known(w, actor)
    ensures NestedVerdict(w, g, actor, facts, wanted).allowed <==>
              var state := EffectiveState(w, g.header, actor);
              || state == Open || state == Broken
              || (&& state != InertState && IsActive(w, actor)
                  && exists k :: 0 <= k < |g.methods| && AllHold(w, g.methods[k], actor, facts)
                       && (wanted != 0 ==> g.methods[k].id == wanted
                                           && forall j :: 0 <= j < k ==> g.methods[j].id != wanted))
  {
    hide AllHold;
    hide EffectiveState;
    var k := DecidingMethod(w, g.methods, actor, facts, wanted, 0);
  }

  // --------------------------------------------------------- representation

  predicate MethodRepresents(w: World, m: GateMethod, d: MethodDefinition) {
    && m.id == d.id && m.predicateCount == |d.predicates| && MethodInRange(w, m)
    && forall k :: 0 <= k < |d.predicates| ==> w.gatePredicates[m.predicateStart + k] == d.predicates[k]
  }

  predicate GateRepresents(w: World, g: Gate, n: NestedGate) {
    && g == n.header.(methodStart := g.methodStart, methodCount := |n.methods|)
    && g.methodStart + |n.methods| <= |w.gateMethods|
    && forall i :: 0 <= i < |n.methods| ==> MethodRepresents(w, w.gateMethods[g.methodStart + i], n.methods[i])
  }

  predicate Represents(w: World, n: seq<NestedGate>) {
    && |w.gates| == |n|
    && forall i :: 0 <= i < |n| ==> GateRepresents(w, w.gates[i], n[i])
  }

  /** The gate's range of methods, and each of their ranges of predicates. */
  predicate GateInBounds(w: World, g: Gate) {
    && g.methodStart + g.methodCount <= |w.gateMethods|
    && forall j :: g.methodStart <= j < g.methodStart + g.methodCount ==> MethodInRange(w, w.gateMethods[j])
  }

  predicate RangesInBounds(w: World) {
    forall i :: 0 <= i < |w.gates| ==> GateInBounds(w, w.gates[i])
  }

  lemma RepresentedRangesAreInBounds(w: World, n: seq<NestedGate>)
    requires Represents(w, n)
    ensures RangesInBounds(w)
  {
    forall i | 0 <= i < |w.gates| ensures GateInBounds(w, w.gates[i]) {
      var g := w.gates[i];
      assert GateRepresents(w, g, n[i]);
      forall j | g.methodStart <= j < g.methodStart + g.methodCount ensures MethodInRange(w, w.gateMethods[j]) {
        assert MethodRepresents(w, w.gateMethods[g.methodStart + (j - g.methodStart)], n[i].methods[j - g.methodStart]);
      }
    }
  }

  // --------------------------------------------------- defining preserves it

  predicate TablesExtend(w: World, r: World) {
    w.gateMethods <= r.gateMethods && w.gatePredicates <= r.gatePredicates
  }

  lemma MethodSurvives(w: World, r: World, m: GateMethod, d: MethodDefinition)
    requires TablesExtend(w, r) && MethodRepresents(w, m, d)
    ensures MethodRepresents(r, m, d)
  {
    assert forall k :: 0 <= k < |w.gatePredicates| ==> r.gatePredicates[k] == w.gatePredicates[k];
  }

  lemma GateSurvives(w: World, r: World, g: Gate, n: NestedGate)
    requires TablesExtend(w, r) && GateRepresents(w, g, n)
    ensures GateRepresents(r, g, n)
  {
    forall i | 0 <= i < |n.methods| ensures MethodRepresents(r, r.gateMethods[g.methodStart + i], n.methods[i]) {
      assert r.gateMethods[g.methodStart + i] == w.gateMethods[g.methodStart + i];
      MethodSurvives(w, r, w.gateMethods[g.methodStart + i], n.methods[i]);
    }
  }

  lemma {:induction false} AppendedMethodsRepresent(w: World, methods: seq<MethodDefinition>)
    ensures var r := AppendMethods(w, methods);
            && TablesExtend(w, r)
            && r == w.(gateMethods := r.gateMethods, gatePredicates := r.gatePredicates)
            && |r.gateMethods| == |w.gateMethods| + |methods|
            && forall i :: 0 <= i < |methods| ==>
                 MethodRepresents(r, r.gateMethods[|w.gateMethods| + i], methods[i])
    decreases |methods|
  {
    if methods != [] {
      var m := methods[0];
      var record := GateMethod(m.id, |w.gatePredicates|, |m.predicates|);
      var one := w.(gateMethods := w.gateMethods + [record], gatePredicates := w.gatePredicates + m.predicates);
      AppendedMethodsRepresent(one, methods[1..]);
      var r := AppendMethods(w, methods);
      assert MethodRepresents(one, record, m);
      MethodSurvives(one, r, record, m);
      hide MethodRepresents;
      assert r.gateMethods[|w.gateMethods|] == one.gateMethods[|w.gateMethods|];
      forall i | 0 <= i < |methods| ensures MethodRepresents(r, r.gateMethods[|w.gateMethods| + i], methods[i]) {
        if i > 0 {
          assert methods[i] == methods[1..][i - 1];
          assert r.gateMethods[|w.gateMethods| + i] == r.gateMethods[|one.gateMethods| + (i - 1)];
        }
      }
    }
  }

  /** The nested counterpart of a definition that succeeds. */
  function Define(w: World, n: seq<NestedGate>, gate: Gate, methods: seq<MethodDefinition>): seq<NestedGate>
    requires |n| == |w.gates|
  {
    if SetGateStatus(w, gate, methods) != Success then n
    else
      var g := FindGate(w.gates, gate.id);
      if g == |n| then n + [NestedGate(gate, methods)] else n[g := NestedGate(gate, methods)]
  }

  /** The world with the gate's header in its slot, before its methods go in. */
  function PlaceGate(w: World, gate: Gate, count: nat): World {
    var g := FindGate(w.gates, gate.id);
    var bound := gate.(methodStart := |w.gateMethods|, methodCount := count);
    w.(gates := if g == |w.gates| then w.gates + [bound] else w.gates[g := bound])
  }

  lemma SetGateInTwoSteps(w: World, gate: Gate, methods: seq<MethodDefinition>)
    requires SetGateStatus(w, gate, methods) == Success
    ensures SetGate(w, gate, methods) == RaiseRevision(AppendMethods(PlaceGate(w, gate, |methods|), methods))
  {
    hide SetGateStatus;
    hide AppendMethods;
  }

  lemma NewGateIsRepresented(w: World, gate: Gate, methods: seq<MethodDefinition>)
    ensures var r := RaiseRevision(AppendMethods(PlaceGate(w, gate, |methods|), methods));
            GateRepresents(r, gate.(methodStart := |w.gateMethods|, methodCount := |methods|), NestedGate(gate, methods))
  {
    hide AppendMethods;
    hide MethodRepresents;
    var placed := PlaceGate(w, gate, |methods|);
    var grown := AppendMethods(placed, methods);
    var bound := gate.(methodStart := |w.gateMethods|, methodCount := |methods|);
    assert placed.gateMethods == w.gateMethods;
    hide PlaceGate;
    AppendedMethodsRepresent(placed, methods);
    assert GateRepresents(grown, bound, NestedGate(gate, methods));
    hide GateRepresents;
    GateSurvives(grown, RaiseRevision(grown), bound, NestedGate(gate, methods));
  }

  /** Defining in the tables is defining in the nested form. */
  lemma SetGateRefines(w: World, n: seq<NestedGate>, gate: Gate, methods: seq<MethodDefinition>)
    requires Represents(w, n)
    ensures Represents(SetGate(w, gate, methods), Define(w, n, gate, methods))
  {
    if SetGateStatus(w, gate, methods) == Success {
      SetGateInTwoSteps(w, gate, methods);
      NewGateIsRepresented(w, gate, methods);
      AppendedMethodsRepresent(PlaceGate(w, gate, |methods|), methods);
      hide AppendMethods;
      hide SetGateStatus;
      hide SetGate;
      var r, d := RaiseRevision(AppendMethods(PlaceGate(w, gate, |methods|), methods)), Define(w, n, gate, methods);
      forall i | 0 <= i < |d| ensures GateRepresents(r, r.gates[i], d[i]) {
        if i != FindGate(w.gates, gate.id) {
          GateSurvives(w, r, w.gates[i], n[i]);
        }
      }
    }
  }

  // -------------------------------------------- evaluating the flat tables

  lemma RepresentedMethodAgrees(w: World, m: GateMethod, d: MethodDefinition, actor: Id, facts: seq<Fact>)
    requires MethodRepresents(w, m, d)
    ensures MethodAllows(w, m, actor, facts) == AllHold(w, d, actor, facts)
    ensures MethodMask(w, m, actor, facts) == HoldingOnes(w, d, actor, facts)
  {
    hide Holds;
    if AllHold(w, d, actor, facts) {
      forall k: nat | k < m.predicateCount ensures HoldsAt(w, m, actor, facts, k) {
        assert d.predicates[k] in d.predicates;
      }
    }
    if MethodAllows(w, m, actor, facts) {
      forall p | p in d.predicates ensures Holds(w, p, actor, facts) {
        var k: nat :| k < |d.predicates| && d.predicates[k] == p;
        assert HoldsAt(w, m, actor, facts, k);
      }
    }
  }

  predicate CleanBase(d: Decision) {
    d.methodId == 0 && d.mask == {} && d.reason == NoReason && !d.allowed
  }

  lemma {:induction false} ScanAgrees(w: World, g: Gate, n: NestedGate, actor: Id, facts: seq<Fact>, wanted: Id,
                                      i: nat, digest: nat, base: Decision)
    requires GateRepresents(w, g, n) && i <= |n.methods| && CleanBase(base)
    ensures var e := EvaluateMethods(w, g, actor, facts, wanted, i, digest, base);
            e.Decided? && View(e.decision) == ScanVerdict(w, n.methods, actor, facts, wanted, i)
    decreases |n.methods| - i
  {
    hide Mix;
    hide AllHold;
    hide HoldingOnes;
    hide MethodAllows;
    hide MethodMask;
    if i < |n.methods| {
      var m := w.gateMethods[g.methodStart + i];
      assert MethodRepresents(w, m, n.methods[i]);
      RepresentedMethodAgrees(w, m, n.methods[i], actor, facts);
      var methodDigest := MethodDigest(w, m, actor, facts, Mix(digest, m.id), 0);
      hide MethodDigest;
      ScanAgrees(w, g, n, actor, facts, wanted, i + 1, digest, base);
      ScanAgrees(w, g, n, actor, facts, wanted, i + 1, Mix(digest, methodDigest), base);
    }
  }

  /** Evaluating the flat tables always decides, and as the nested form does. */
  lemma FlatEqualsNested(w: World, n: seq<NestedGate>, gate: Id, actor: Id, facts: seq<Fact>, wanted: Id)
    requires Represents(w, n) && FindGate(w.gates, gate) < |w.gates| && Known(w, actor)
    requires gate != 0 && actor != 0 && |facts| <= MAX_FACTS
    ensures var e := Evaluate(w, gate, actor, facts, wanted);
            && e.Decided?
            && View(e.decision) == NestedVerdict(w, n[FindGate(w.gates, gate)], actor, facts, wanted)
  {
    hide Mix;
    hide ScanVerdict;
    var g := FindGate(w.gates, gate);
    var flat, nested := w.gates[g], n[g];
    assert GateRepresents(w, flat, nested);
    var state := EffectiveState(w, flat, actor);
    assert EffectiveState(w, nested.header, actor) == state;
    ScanAgrees(w, flat, nested, actor, facts, wanted, 0, BaseDigest(w, flat, GetActor(w, actor), state),
               NO_DECISION.(gate := flat.id, gateVersion := flat.version,
                            accessRevision := w.accessRevision, state := state));
    hide EvaluateMethods;
    hide GateRepresents;
  }

  // --------------------------------------------------------- non-interference

  lemma SameScan(w: World, r: World, methods: seq<MethodDefinition>, actor: Id, facts: seq<Fact>, wanted: Id, i: nat)
    requires w.items == r.items && i <= |methods|
    ensures ScanVerdict(w, methods, actor, facts, wanted, i) == ScanVerdict(r, methods, actor, facts, wanted, i)
  {
    forall m: MethodDefinition
      ensures AllHold(w, m, actor, facts) == AllHold(r, m, actor, facts)
      ensures HoldingOnes(w, m, actor, facts) == HoldingOnes(r, m, actor, facts)
    {
      forall p: Predicate ensures Holds(w, p, actor, facts) == Holds(r, p, actor, facts) {}
      hide Holds;
    }
    hide AllHold;
    hide HoldingOnes;
    var k, k' := DecidingMethod(w, methods, actor, facts, wanted, i), DecidingMethod(r, methods, actor, facts, wanted, i);
    assert k == k';
  }

  lemma PlacedGateIsFoundAlone(w: World, gate: Gate, count: nat, other: Id)
    requires other != gate.id && FindGate(w.gates, other) < |w.gates|
    ensures FindGate(PlaceGate(w, gate, count).gates, other) == FindGate(w.gates, other)
  {
    hide FirstIndex;
    var before, after := w.gates, PlaceGate(w, gate, count).gates;
    assert after[FindGate(before, other)] == before[FindGate(before, other)];
    assert forall j :: 0 <= j < |before| ==> after[j].id == before[j].id;
  }

  lemma DefinitionSparesOtherSlots(w: World, n: seq<NestedGate>, gate: Gate, methods: seq<MethodDefinition>, other: Id)
    requires |n| == |w.gates| && other != gate.id && FindGate(w.gates, other) < |w.gates|
    ensures var r, d := SetGate(w, gate, methods), Define(w, n, gate, methods);
            && r.items == w.items && r.actors == w.actors && r.gateActorStates == w.gateActorStates
            && FindGate(r.gates, other) == FindGate(w.gates, other)
            && FindGate(w.gates, other) < |d|
            && d[FindGate(w.gates, other)] == n[FindGate(w.gates, other)]
  {
    hide SetGateStatus;
    if SetGateStatus(w, gate, methods) == Success {
      SetGateInTwoSteps(w, gate, methods);
      AppendedMethodsRepresent(PlaceGate(w, gate, |methods|), methods);
      hide AppendMethods;
      var r := SetGate(w, gate, methods);
      assert r.gates == PlaceGate(w, gate, |methods|).gates;
      hide SetGate;
      PlacedGateIsFoundAlone(w, gate, |methods|, other);
    }
  }

  /** Defining one gate leaves every other gate's verdict as it was. */
  lemma DefiningOneGateSparesOthers(w: World, n: seq<NestedGate>, gate: Gate, methods: seq<MethodDefinition>,
                                    other: Id, actor: Id, facts: seq<Fact>, wanted: Id)
    requires Represents(w, n) && other != gate.id && FindGate(w.gates, other) < |w.gates| && Known(w, actor)
    requires other != 0 && actor != 0 && |facts| <= MAX_FACTS
    ensures var before, after := Evaluate(w, other, actor, facts, wanted),
                                 Evaluate(SetGate(w, gate, methods), other, actor, facts, wanted);
            before.Decided? && after.Decided? && View(after.decision) == View(before.decision)
  {
    var r, d, g := SetGate(w, gate, methods), Define(w, n, gate, methods), FindGate(w.gates, other);
    FlatEqualsNested(w, n, other, actor, facts, wanted);
    SetGateRefines(w, n, gate, methods);
    DefinitionSparesOtherSlots(w, n, gate, methods, other);
    hide Evaluate;
    hide SetGate;
    hide Define;
    FlatEqualsNested(r, d, other, actor, facts, wanted);
    hide Represents;
    SameScan(w, r, n[g].methods, actor, facts, wanted, 0);
    hide ScanVerdict;
  }

  // ------------------------------------------------------- whole histories

  /** A world's history mixes gate definitions and calls. */
  datatype Move = DefineGate(gate: Gate, methods: seq<MethodDefinition>) | Act(call: Call)

  function AfterMove(w: World, m: Move): World {
    match m
    case DefineGate(gate, methods) => SetGate(w, gate, methods)
    case Act(call) => Step(w, call).world
  }

  function AfterMoves(w: World, moves: seq<Move>): World
    decreases |moves|
  {
    if moves == [] then w else AfterMoves(AfterMove(w, moves[0]), moves[1..])
  }

  /** A call changes headers only in state and version. */
  function Rehead(w: World, n: seq<NestedGate>): (r: seq<NestedGate>)
    requires |n| == |w.gates|
    ensures |r| == |n|
    ensures forall i :: 0 <= i < |n| ==>
              r[i] == n[i].(header := n[i].header.(version := w.gates[i].version, state := w.gates[i].state))
  {
    seq(|n|, i requires 0 <= i < |n| =>
               n[i].(header := n[i].header.(version := w.gates[i].version, state := w.gates[i].state)))
  }

  lemma CallKeepsRepresentation(w: World, n: seq<NestedGate>, c: Call)
    requires Represents(w, n)
    ensures |Step(w, c).world.gates| == |n|
    ensures Represents(Step(w, c).world, Rehead(Step(w, c).world, n))
  {
    StepFrame(w, c);
    var r := Step(w, c).world;
    hide Step;
    forall i | 0 <= i < |n| ensures GateRepresents(r, r.gates[i], Rehead(r, n)[i]) {
      assert GateRepresents(w, w.gates[i], n[i]);
      forall j | 0 <= j < |n[i].methods|
        ensures MethodRepresents(r, r.gateMethods[r.gates[i].methodStart + j], n[i].methods[j])
      {
        MethodSurvives(w, r, w.gateMethods[w.gates[i].methodStart + j], n[i].methods[j]);
      }
    }
  }

  /** The nested definitions after one move: a definition is entered, a call only
      updates headers. */
  function NestedAfterMove(w: World, n: seq<NestedGate>, m: Move): (r: seq<NestedGate>)
    requires Represents(w, n)
    ensures Represents(AfterMove(w, m), r)
  {
    match m
    case DefineGate(gate, methods) =>
      SetGateRefines(w, n, gate, methods);
      Define(w, n, gate, methods)
    case Act(call) =>
      CallKeepsRepresentation(w, n, call);
      Rehead(Step(w, call).world, n)
  }

  function NestedAfter(w: World, n: seq<NestedGate>, moves: seq<Move>): seq<NestedGate>
    requires Represents(w, n)
    decreases |moves|
  {
    if moves == [] then n else NestedAfter(AfterMove(w, moves[0]), NestedAfterMove(w, n, moves[0]), moves[1..])
  }

  /** Whatever the history of definitions and calls, the flat tables represent the
      nested definitions it made, with every range in bounds. */
  lemma {:induction false} HistoriesStayRepresented(w: World, n: seq<NestedGate>, moves: seq<Move>)
    requires Represents(w, n)
    ensures Represents(AfterMoves(w, moves), NestedAfter(w, n, moves))
    ensures RangesInBounds(AfterMoves(w, moves))
    decreases |moves|
  {
    hide AfterMove, NestedAfterMove, Represents, RangesInBounds;
    if moves == [] {
      RepresentedRangesAreInBounds(w, n);
    } else {
      HistoriesStayRepresented(AfterMove(w, moves[0]), NestedAfterMove(w, n, moves[0]), moves[1..]);
    }
  }

  /** So after any history evaluating the tables is evaluating those definitions. */
  lemma HistoriesDecideAsDefined(w: World, n: seq<NestedGate>, moves: seq<Move>, gate: Id, actor: Id,
                                 facts: seq<Fact>, wanted: Id)
    requires Represents(w, n) && |facts| <= MAX_FACTS && gate != 0 && actor != 0
    requires FindGate(AfterMoves(w, moves).gates, gate) < |AfterMoves(w, moves).gates| && Known(AfterMoves(w, moves), actor)
    ensures var r, g := AfterMoves(w, moves), FindGate(AfterMoves(w, moves).gates, gate);
            var e := Evaluate(r, gate, actor, facts, wanted);
            && g < |NestedAfter(w, n, moves)| && e.Decided?
            && View(e.decision) == NestedVerdict(r, NestedAfter(w, n, moves)[g], actor, facts, wanted)
  {
    hide AfterMoves, NestedAfter, Evaluate, NestedVerdict;
    HistoriesStayRepresented(w, n, moves);
    FlatEqualsNested(AfterMoves(w, moves), NestedAfter(w, n, moves), gate, actor, facts, wanted);
    hide GateRepresents;
  }

  predicate Defines(m: Move, id: Id) {
    m.DefineGate? && m.gate.id == id
  }

  lemma MoveSparesOthers(w: World, n: seq<NestedGate>, m: Move, id: Id)
    requires Represents(w, n) && FindGate(w.gates, id) < |w.gates| && !Defines(m, id)
    ensures var g := FindGate(w.gates, id);
            && FindGate(AfterMove(w, m).gates, id) == g < |AfterMove(w, m).gates|
            && g < |NestedAfterMove(w, n, m)| && NestedAfterMove(w, n, m)[g].methods == n[g].methods
  {
    hide Represents;
    assert |n| == |w.gates| by { RepresentsLength(w, n); }
    match m
    case DefineGate(gate, methods) =>
      hide SetGate, Define;
      DefinitionSparesOtherSlots(w, n, gate, methods, id);
      RepresentsLength(AfterMove(w, m), NestedAfterMove(w, n, m));
    case Act(call) =>
      hide Step;
      StepFrame(w, call);
      CallKeepsRepresentation(w, n, call);
  }

  lemma RepresentsLength(w: World, n: seq<NestedGate>)
    requires Represents(w, n)
    ensures |n| == |w.gates|
  {}

  /** A gate keeps its methods until it is defined again. */
  lemma {:induction false} DefinitionsLast(w: World, n: seq<NestedGate>, moves: seq<Move>, id: Id)
    requires Represents(w, n) && FindGate(w.gates, id) < |w.gates|
    requires forall i :: 0 <= i < |moves| ==> !Defines(moves[i], id)
    ensures var g := FindGate(w.gates, id);
            && FindGate(AfterMoves(w, moves).gates, id) == g < |n|
            && g < |NestedAfter(w, n, moves)| && NestedAfter(w, n, moves)[g].methods == n[g].methods
    decreases |moves|
  {
    hide AfterMove, NestedAfterMove, Represents, FindGate;
    RepresentsLength(w, n);
    if moves != [] {
      MoveSparesOthers(w, n, moves[0], id);
      assert forall i :: 0 <= i < |moves[1..]| ==> moves[1..][i] == moves[i + 1];
      DefinitionsLast(AfterMove(w, moves[0]), NestedAfterMove(w, n, moves[0]), moves[1..], id);
    }
  }

  /** Hence the decision is by the methods last supplied: after a definition is
      accepted, and whatever follows that does not define the gate again, the
      tables decide as a gate with exactly those methods. */
  lemma LatestDefinitionDecides(w: World, n: seq<NestedGate>, gate: Gate, methods: seq<MethodDefinition>, moves: seq<Move>,
                                actor: Id, facts: seq<Fact>, wanted: Id)
    requires Represents(w, n) && SetGateStatus(w, gate, methods) == Success
    requires forall i :: 0 <= i < |moves| ==> !Defines(moves[i], gate.id)
    requires |facts| <= MAX_FACTS && actor != 0 && Known(AfterMoves(SetGate(w, gate, methods), moves), actor)
    ensures var r := AfterMoves(SetGate(w, gate, methods), moves);
            var g := FindGate(r.gates, gate.id);
            && g < |r.gates| && Evaluate(r, gate.id, actor, facts, wanted).Decided?
            && View(Evaluate(r, gate.id, actor, facts, wanted).decision)
               == NestedVerdict(r, NestedGate(r.gates[g], methods), actor, facts, wanted)
  {
    var v, d := SetGate(w, gate, methods), Define(w, n, gate, methods);
    SetGateRefines(w, n, gate, methods);
    DefinedIsFound(w, n, gate, methods);
    hide SetGate, Define, Represents, SetGateStatus;
    DefinitionsLast(v, d, moves, gate.id);
    var r := AfterMoves(v, moves);
    HistoriesStayRepresented(v, d, moves);
    var later, g := NestedAfter(v, d, moves), FindGate(r.gates, gate.id);
    hide AfterMoves, NestedAfter, Evaluate, FindGate;
    RepresentsLength(r, later);
    FlatEqualsNested(r, later, gate.id, actor, facts, wanted);
    SameHeader(r, later, g, actor, facts, wanted);
  }

  lemma DefinedIsFound(w: World, n: seq<NestedGate>, gate: Gate, methods: seq<MethodDefinition>)
    requires |n| == |w.gates| && SetGateStatus(w, gate, methods) == Success
    ensures var r, d := SetGate(w, gate, methods), Define(w, n, gate, methods);
            var g := FindGate(r.gates, gate.id);
            gate.id != 0 && g < |r.gates| && g < |d| && d[g].methods == methods
  {
    SetGateInTwoSteps(w, gate, methods);
    AppendedMethodsRepresent(PlaceGate(w, gate, |methods|), methods);
    hide AppendMethods, SetGate;
    assert gate.id != 0;
    hide SetGateStatus;
    var before, after := w.gates, PlaceGate(w, gate, |methods|).gates;
    var at := FindGate(before, gate.id);
    assert after[at].id == gate.id;
    assert forall j :: 0 <= j < at ==> after[j] == before[j];
  }

  /** The flat header does for the nested one. */
  lemma SameHeader(w: World, n: seq<NestedGate>, g: nat, actor: Id, facts: seq<Fact>, wanted: Id)
    requires Represents(w, n) && g < |n| && Known(w, actor)
    ensures NestedVerdict(w, n[g], actor, facts, wanted)
         == NestedVerdict(w, NestedGate(w.gates[g], n[g].methods), actor, facts, wanted)
  {
    assert GateRepresents(w, w.gates[g], n[g]);
    hide ScanVerdict;
  }
}
