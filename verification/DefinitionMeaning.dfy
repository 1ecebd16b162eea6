/**
  Which gate definitions are accepted, and what they write, told without the
  definition's own helpers.
 */
module DefinitionMeaning {
  import opened KernelTypes
  import opened Lookup
  import opened GateRules

  /** The gate is bound to an exit there is, and answers only for a lock that is on; or
      it is bound to an item there is. */
  predicate IsBound(w: World, gate: Gate) {
    if gate.target == ExitTarget then
      gate.targetItem == 0
      && exists x :: 0 <= x < |w.exits| && w.exits[x].from == gate.from && w.exits[x].to == gate.to
                     && (gate.recordedLock ==> w.exits[x].locked)
                     && forall j :: 0 <= j < x ==> !(w.exits[j].from == gate.from && w.exits[j].to == gate.to)
    else
      gate.targetItem != 0 && gate.from == 0 && gate.to == 0 && !gate.recordedLock
      && exists i :: 0 <= i < |w.items| && w.items[i].id == gate.targetItem
  }

  /** A predicate of a known kind, with what its kind needs. */
  predicate WellAsked(p: Predicate) {
    match p.kind
    case HeldItem => p.subject != 0
    case InstalledItem => p.subject != 0
    case MinimumCharges => p.subject != 0 && p.amount != 0
    case HeldItemCapability => p.fact != 0
    case ActorFact => p.fact != 0
    case WorldFact => p.fact != 0
    case UnknownPredicate => false
  }

  predicate WellDefined(m: MethodDefinition) {
    m.id != 0 && |m.predicates| <= 8 && forall i :: 0 <= i < |m.predicates| ==> WellAsked(m.predicates[i])
  }

  /** How many predicates the first `n` methods have. */
  function Asked(methods: seq<MethodDefinition>, n: nat): nat
    requires n <= |methods|
  {
    if n == 0 then 0 else Asked(methods, n - 1) + |methods[n - 1].predicates|
  }

  /** There is room in the flat tables, and for a new gate; a known gate is replaced by
      no earlier version. */
  predicate HasRoom(w: World, gate: Gate, methods: seq<MethodDefinition>) {
    && |w.gateMethods| + |methods| <= 64 && |w.gatePredicates| + Asked(methods, |methods|) <= 256
    && var g := FindGate(w.gates, gate.id);
       if g == |w.gates| then |w.gates| < 32 else w.gates[g].version <= gate.version
  }

  lemma {:induction false} TotalAsked(methods: seq<MethodDefinition>, n: nat)
    requires n <= |methods|
    ensures Asked(methods, |methods|) == Asked(methods, n) + PredicateTotal(methods[n..])
    decreases |methods| - n
  {
    if n < |methods| {
      TotalAsked(methods, n + 1);
      assert methods[n..][0] == methods[n] && methods[n..][1..] == methods[n + 1..];
    } else {
      assert methods[n..] == [];
    }
  }

  lemma BindingMeans(w: World, gate: Gate)
    ensures BindingStatus(w, gate) == Success <==> IsBound(w, gate)
  {
    hide FirstIndex;
    var x := FindExit(w.exits, gate.from, gate.to);
    if gate.target == ExitTarget && IsBound(w, gate) {
      var k :| 0 <= k < |w.exits| && w.exits[k].from == gate.from && w.exits[k].to == gate.to
               && (gate.recordedLock ==> w.exits[k].locked)
               && forall j :: 0 <= j < k ==> !(w.exits[j].from == gate.from && w.exits[j].to == gate.to);
      assert k == x;
    }
  }

  lemma MethodsMean(methods: seq<MethodDefinition>)
    ensures (exists m :: m in methods && !ValidMethod(m)) <==> !(forall i :: 0 <= i < |methods| ==> WellDefined(methods[i]))
  {
    forall m: MethodDefinition ensures ValidMethod(m) <==> WellDefined(m) {
      forall p: Predicate ensures ValidPredicate(p) <==> WellAsked(p) {}
      hide ValidPredicate, WellAsked;
    }
    hide ValidMethod, WellDefined;
    if i :| 0 <= i < |methods| && !WellDefined(methods[i]) {
      assert methods[i] in methods && !ValidMethod(methods[i]);
    }
  }

  /** Main result: which definitions are accepted. */
  lemma DefiningIff(w: World, gate: Gate, methods: seq<MethodDefinition>)
    ensures SetGateStatus(w, gate, methods) == Success <==>
              && gate.id != 0 && gate.version != 0 && gate.descriptorVersion != 0 && gate.state != NoState
              && 1 <= |methods| <= 8 && (forall i :: 0 <= i < |methods| ==> WellDefined(methods[i]))
              && IsBound(w, gate) && HasRoom(w, gate, methods)
  {
    BindingMeans(w, gate);
    MethodsMean(methods);
    TotalAsked(methods, 0);
    assert methods[0..] == methods;
    hide BindingStatus, IsBound, ValidMethod, WellDefined, PredicateTotal, Asked, FirstIndex;
  }

  lemma {:induction false} AppendingKeeps(w: World, methods: seq<MethodDefinition>)
    ensures var r := AppendMethods(w, methods);
            && r == w.(gateMethods := r.gateMethods, gatePredicates := r.gatePredicates)
            && |r.gateMethods| == |w.gateMethods| + |methods| && r.gateMethods[..|w.gateMethods|] == w.gateMethods
            && |w.gatePredicates| <= |r.gatePredicates| && r.gatePredicates[..|w.gatePredicates|] == w.gatePredicates
    decreases |methods|
  {
    if methods != [] {
      var m := methods[0];
      var one := w.(gateMethods := w.gateMethods + [GateMethod(m.id, |w.gatePredicates|, |m.predicates|)],
                    gatePredicates := w.gatePredicates + m.predicates);
      AppendingKeeps(one, methods[1..]);
      var r := AppendMethods(one, methods[1..]);
      assert r.gateMethods[..|w.gateMethods|] == r.gateMethods[..|one.gateMethods|][..|w.gateMethods|];
      assert r.gatePredicates[..|w.gatePredicates|] == r.gatePredicates[..|one.gatePredicates|][..|w.gatePredicates|];
    }
  }

  /** What an accepted definition writes: the gate under its identifier, with the stretch
      of the method table appended for it, and a new revision; one that is not accepted
      writes nothing. */
  lemma DefiningMeans(w: World, gate: Gate, methods: seq<MethodDefinition>)
    ensures var r, g, n := SetGate(w, gate, methods), FindGate(w.gates, gate.id), |w.gateMethods|;
            if SetGateStatus(w, gate, methods) != Success then r == w
            else
              var bound := gate.(methodStart := n, methodCount := |methods|);
              && r.gates == (if g == |w.gates| then w.gates + [bound] else w.gates[g := bound])
              && |r.gateMethods| == n + |methods| && r.gateMethods[..n] == w.gateMethods
              && |w.gatePredicates| <= |r.gatePredicates| && r.gatePredicates[..|w.gatePredicates|] == w.gatePredicates
              && r.accessRevision == (if w.accessRevision == 0xFFFF_FFFF_FFFF_FFFF then w.accessRevision else w.accessRevision + 1)
              && r == w.(gates := r.gates, gateMethods := r.gateMethods, gatePredicates := r.gatePredicates,
                         accessRevision := r.accessRevision)
  {
    var g := FindGate(w.gates, gate.id);
    var bound := gate.(methodStart := |w.gateMethods|, methodCount := |methods|);
    AppendingKeeps(w.(gates := if g == |w.gates| then w.gates + [bound] else w.gates[g := bound]), methods);
    hide SetGateStatus, AppendMethods, FirstIndex;
  }

  /** What is told of a definition that is not accepted: the first thing wrong with it. */
  lemma DefinitionRefused(w: World, gate: Gate, methods: seq<MethodDefinition>)
    requires SetGateStatus(w, gate, methods) != Success
    ensures var x := FindExit(w.exits, gate.from, gate.to);
            SetGateStatus(w, gate, methods)
            == if gate.id == 0 || gate.version == 0 || gate.descriptorVersion == 0 || gate.state == NoState
                  || !(1 <= |methods| <= 8) then ErrInvalid
               else if gate.target == ExitTarget && x < |w.exits| && gate.targetItem == 0 && !IsBound(w, gate) then ErrRule
               else if !IsBound(w, gate) then ErrNotFound
               else if exists i :: 0 <= i < |methods| && !WellDefined(methods[i]) then ErrInvalid
               else if FindGate(w.gates, gate.id) == |w.gates| || |w.gateMethods| + |methods| > 64
                       || |w.gatePredicates| + Asked(methods, |methods|) > 256 then ErrFull
               else ErrRule
  {
    BindingMeans(w, gate);
    MethodsMean(methods);
    TotalAsked(methods, 0);
    assert methods[0..] == methods;
    hide IsBound, ValidMethod, WellDefined, PredicateTotal, Asked, FirstIndex;
  }
}
