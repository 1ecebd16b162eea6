/**
  The digest of a gate's evaluation: a hash over the gate, the actor, the method
  and, predicate by predicate, what was seen.  Evidence that differs in one place
  gives a different digest, so an offer made on it is stale.
 */
module EvidenceMeaning {
  import opened Bits
  import opened KernelTypes
  import opened Lookup
  import opened GateRules
  import opened ItemLaws
  import opened BitsMeaning
  import opened CombatMeaning
  import opened GateMeaning

  const BASIS: nat := 1469598103934665603

  function CodeOfState(s: GateState): nat {
    match s
    case NoState => 0 case Closed => 1 case Open => 2 case Broken => 3 case InertState => 4
  }

  function CodeOfZone(z: Zone): nat {
    match z
    case NoZone => 0 case WorldZone => 1 case Carried => 2 case Equipped => 3 case SpellDeck => 4
    case Exhausted => 5 case Contained => 6 case Escrow => 7 case Installed => 8
  }

  function CodeOfKind(k: PredicateKind): nat {
    match k
    case UnknownPredicate => 0 case HeldItem => 1 case HeldItemCapability => 2 case InstalledItem => 3
    case MinimumCharges => 4 case ActorFact => 5 case WorldFact => 6
  }

  /** A fact as evidence: its value with the version of its source, nothing without it. */
  function FactSeen(facts: seq<Fact>, subject: Id, fact: Id): nat {
    var k := FindFact(facts, subject, fact);
    if k == |facts| then 0 else Round(facts[k].value, facts[k].sourceVersion)
  }

  /** What a predicate's evidence is: the item's holder, its place, zone and flags, its
      charges, the item that shows the capability with the version of its fact, or the fact. */
  function Seen(w: World, p: Predicate, actor: Id, facts: seq<Fact>): nat {
    var i := FindItem(w.items, p.subject);
    match p.kind
    case HeldItem => if i < |w.items| then w.items[i].holder else 0
    case InstalledItem =>
      if i < |w.items| then Round(w.items[i].location, Round(CodeOfZone(w.items[i].zone), w.items[i].flags)) else 0
    case MinimumCharges => if i < |w.items| then w.items[i].charges else 0
    case HeldItemCapability =>
      var j := FindCapability(w.items, p, actor, facts);
      if j < |w.items| && FindFact(facts, w.items[j].id, p.fact) < |facts|
      then Round(w.items[j].id, facts[FindFact(facts, w.items[j].id, p.fact)].sourceVersion) else 0
    case ActorFact => FactSeen(facts, actor, p.fact)
    case WorldFact => FactSeen(facts, p.subject, p.fact)
    case UnknownPredicate => 0xFFFF_FFFF_FFFF_FFFF
  }

  /** A predicate with its evidence and its verdict. */
  function Witnessed(w: World, p: Predicate, actor: Id, facts: seq<Fact>): (r: seq<nat>)
    ensures |r| == 7
  {
    [CodeOfKind(p.kind), p.subject, p.target, p.fact, p.expected, Seen(w, p, actor, facts),
     if Met(w.items, p, actor, facts) then 1 else 0]
  }

  function AllWitnessed(w: World, predicates: seq<Predicate>, actor: Id, facts: seq<Fact>): (r: seq<nat>)
    ensures |r| == 7 * |predicates|
  {
    if predicates == [] then [] else Witnessed(w, predicates[0], actor, facts) + AllWitnessed(w, predicates[1..], actor, facts)
  }

  /** The method and the evidence for its predicates. */
  function Evidence(w: World, m: GateMethod, actor: Id, facts: seq<Fact>): seq<nat>
    requires MethodInRange(w, m)
  {
    [m.id] + AllWitnessed(w, w.gatePredicates[m.predicateStart..m.predicateStart + m.predicateCount], actor, facts)
  }

  /** The gate, the revision and the actor. */
  function Circumstances(w: World, gate: Gate, actor: Actor): seq<nat> {
    [gate.id, gate.version, gate.descriptorVersion, w.accessRevision, actor.id, actor.location,
     CodeOfState(StateFor(w, gate, actor.id))]
  }

  lemma MixIsRound(h: nat, v: nat)
    ensures Mix(h, v) == Round(h, v)
  {}

  lemma ObservedMeans(w: World, p: Predicate, actor: Id, facts: seq<Fact>)
    ensures Observed(w, p, actor, facts) == Seen(w, p, actor, facts)
  {
    hide Xor, FirstIndex, ShowsCapability;
  }

  lemma SevenRounds(h: nat, v: seq<nat>)
    requires |v| == 7
    ensures Fold(v, h) == Round(Round(Round(Round(Round(Round(Round(h, v[0]), v[1]), v[2]), v[3]), v[4]), v[5]), v[6])
  {
    hide *;
    FirstRound(h, v);
    FirstRound(Round(h, v[0]), v[1..]);
    FirstRound(Round(Round(h, v[0]), v[1]), v[2..]);
    FirstRound(Round(Round(Round(h, v[0]), v[1]), v[2]), v[3..]);
    FirstRound(Round(Round(Round(Round(h, v[0]), v[1]), v[2]), v[3]), v[4..]);
    FirstRound(Round(Round(Round(Round(Round(h, v[0]), v[1]), v[2]), v[3]), v[4]), v[5..]);
    FirstRound(Round(Round(Round(Round(Round(Round(h, v[0]), v[1]), v[2]), v[3]), v[4]), v[5]), v[6..]);
    NothingIsFolded(Round(Round(Round(Round(Round(Round(Round(h, v[0]), v[1]), v[2]), v[3]), v[4]), v[5]), v[6]));
    assert v[1..][1..] == v[2..] && v[2..][1..] == v[3..] && v[3..][1..] == v[4..] && v[4..][1..] == v[5..];
    assert v[5..][1..] == v[6..] && v[6..][1..] == [];
  }

  lemma FirstRound(h: nat, v: seq<nat>)
    requires |v| > 0
    ensures Fold(v, h) == Fold(v[1..], Round(h, v[0]))
  {
    hide Round;
  }

  lemma NothingIsFolded(h: nat)
    ensures Fold([], h) == h
  {}

  lemma WitnessIsMixed(w: World, p: Predicate, actor: Id, facts: seq<Fact>, h: nat)
    requires DistinctIds(w.items)
    ensures MixPredicate(h, w, p, actor, facts) == Fold(Witnessed(w, p, actor, facts), h)
  {
    HoldsMeans(w, p, actor, facts);
    ObservedMeans(w, p, actor, facts);
    SevenRounds(h, Witnessed(w, p, actor, facts));
    forall h, v ensures Mix(h, v) == Round(h, v) {}
    hide Mix, Round, Fold, Holds, Met, Observed, Seen, DistinctIds;
  }

  lemma {:induction false} MethodIsFolded(w: World, m: GateMethod, actor: Id, facts: seq<Fact>, h: nat, k: nat)
    requires DistinctIds(w.items) && MethodInRange(w, m) && k <= m.predicateCount
    ensures MethodDigest(w, m, actor, facts, h, k)
         == Fold(AllWitnessed(w, w.gatePredicates[m.predicateStart + k..m.predicateStart + m.predicateCount], actor, facts), h)
    decreases m.predicateCount - k
  {
    hide MixPredicate, Witnessed, DistinctIds, Round;
    if k < m.predicateCount {
      var p := w.gatePredicates[m.predicateStart + k];
      var left := w.gatePredicates[m.predicateStart + k..m.predicateStart + m.predicateCount];
      var rest := w.gatePredicates[m.predicateStart + (k + 1)..m.predicateStart + m.predicateCount];
      assert left[0] == p && left[1..] == rest;
      WitnessIsMixed(w, p, actor, facts, h);
      MethodIsFolded(w, m, actor, facts, MixPredicate(h, w, p, actor, facts), k + 1);
      FoldingOn(Witnessed(w, p, actor, facts), AllWitnessed(w, rest, actor, facts), h);
      hide Fold;
    }
  }

  lemma EvidenceIsFolded(w: World, m: GateMethod, actor: Id, facts: seq<Fact>, h: nat)
    requires DistinctIds(w.items) && MethodInRange(w, m)
    ensures MethodDigest(w, m, actor, facts, Mix(h, m.id), 0) == Fold(Evidence(w, m, actor, facts), h)
  {
    MethodIsFolded(w, m, actor, facts, Mix(h, m.id), 0);
    hide *;
    MixIsRound(h, m.id);
    FirstRound(h, Evidence(w, m, actor, facts));
    EvidenceSplits(w, m, actor, facts);
  }

  lemma EvidenceSplits(w: World, m: GateMethod, actor: Id, facts: seq<Fact>)
    requires MethodInRange(w, m)
    ensures var e := Evidence(w, m, actor, facts);
            && |e| > 0 && e[0] == m.id
            && e[1..] == AllWitnessed(w, w.gatePredicates[m.predicateStart..m.predicateStart + m.predicateCount], actor, facts)
  {
    hide AllWitnessed;
  }

  lemma CircumstancesAreFolded(w: World, gate: Gate, actor: Actor)
    ensures BaseDigest(w, gate, actor, StateFor(w, gate, actor.id)) == Fold(Circumstances(w, gate, actor), BASIS)
  {
    SevenRounds(BASIS, Circumstances(w, gate, actor));
    forall h, v ensures Mix(h, v) == Round(h, v) {}
    hide Mix, Round, Fold, StateFor;
  }

  /** The methods tried in turn, each on top of those that failed. */
  function Trail(w: World, methods: seq<GateMethod>, actor: Id, facts: seq<Fact>, h: nat): nat
    requires forall k :: 0 <= k < |methods| ==> MethodInRange(w, methods[k])
  {
    if methods == [] then Round(h, 0)
    else
      var own := Fold(Evidence(w, methods[0], actor, facts), h);
      if AllMet(w, methods[0], actor, facts) then Round(own, 1)
      else Trail(w, methods[1..], actor, facts, Round(h, own))
  }

  /** A gate all of whose methods lie in the tables. */
  predicate InTables(w: World, gate: Gate) {
    && gate.methodStart + gate.methodCount <= |w.gateMethods|
    && forall k :: gate.methodStart <= k < gate.methodStart + gate.methodCount ==> MethodInRange(w, w.gateMethods[k])
  }

  /** The digest of the scan over the methods: of the first of the wanted name alone
      when one is asked for, else of all that are tried. */
  function Scanned(w: World, methods: seq<GateMethod>, actor: Id, facts: seq<Fact>, wanted: Id, h: nat): nat
    requires forall k :: 0 <= k < |methods| ==> MethodInRange(w, methods[k])
  {
    if wanted == 0 then Trail(w, methods, actor, facts, h)
    else if methods == [] then Round(h, 0)
    else if methods[0].id != wanted then Scanned(w, methods[1..], actor, facts, wanted, h)
    else Round(Fold(Evidence(w, methods[0], actor, facts), h), if AllMet(w, methods[0], actor, facts) then 1 else 0)
  }

  lemma {:induction false} ScanIsFolded(w: World, gate: Gate, actor: Id, facts: seq<Fact>, wanted: Id,
                                        i: nat, h: nat, base: Decision)
    requires DistinctIds(w.items) && InTables(w, gate) && i <= gate.methodCount
    ensures var e := EvaluateMethods(w, gate, actor, facts, wanted, i, h, base);
            e.Decided? && e.decision.digest
              == Scanned(w, w.gateMethods[gate.methodStart + i..gate.methodStart + gate.methodCount], actor, facts, wanted, h)
    decreases gate.methodCount - i
  {
    hide Fold, Evidence, MethodDigest, MethodAllows, MethodMask, AllMet, DistinctIds;
    forall h, v ensures Mix(h, v) == Round(h, v) {}
    hide Mix, Round;
    var methods := w.gateMethods[gate.methodStart + i..gate.methodStart + gate.methodCount];
    if i < gate.methodCount {
      var m := w.gateMethods[gate.methodStart + i];
      assert methods[0] == m && methods[1..] == w.gateMethods[gate.methodStart + (i + 1)..gate.methodStart + gate.methodCount];
      MethodMeans(w, m, actor, facts);
      EvidenceIsFolded(w, m, actor, facts, h);
      if wanted != 0 && m.id != wanted {
        ScanIsFolded(w, gate, actor, facts, wanted, i + 1, h, base);
      } else if wanted == 0 && !MethodAllows(w, m, actor, facts) {
        ScanIsFolded(w, gate, actor, facts, wanted, i + 1, Round(h, Fold(Evidence(w, m, actor, facts), h)), base);
      }
    }
  }

  /** Main result: the digest of every decided evaluation. */
  lemma DigestMeans(w: World, g: nat, id: Id, facts: seq<Fact>, wanted: Id)
    requires DistinctIds(w.items) && g < |w.gates| && FindGate(w.gates, w.gates[g].id) == g && InTables(w, w.gates[g])
    requires w.gates[g].id != 0 && id != 0 && |facts| <= MAX_FACTS && FindActor(w.actors, id) < |w.actors|
    ensures var gate, actor, e := w.gates[g], w.actors[FindActor(w.actors, id)], Evaluate(w, w.gates[g].id, id, facts, wanted);
            var state, h := StateFor(w, gate, id), Fold(Circumstances(w, gate, actor), BASIS);
            && e.Decided?
            && e.decision.digest
                 == if state == Open || state == Broken then Round(h, 1)
                    else if state == InertState || actor.status != Active then Round(h, 0)
                    else Scanned(w, MethodsOf(w, gate), id, facts, wanted, h)
  {
    var gate, actor := w.gates[g], w.actors[FindActor(w.actors, id)];
    var state := StateFor(w, gate, id);
    CircumstancesAreFolded(w, gate, actor);
    var h := BaseDigest(w, gate, actor, state);
    MixIsRound(h, 0);
    MixIsRound(h, 1);
    ScanIsFolded(w, gate, id, facts, wanted, 0, h,
                 NO_DECISION.(gate := gate.id, gateVersion := gate.version, accessRevision := w.accessRevision, state := state));
    hide Mix, Round, Fold, Circumstances, BaseDigest, EvaluateMethods, Scanned, InTables, DistinctIds, FirstIndex;
  }

  /** The evidence differs in exactly one place. */
  predicate DifferInOne(xs: seq<nat>, ys: seq<nat>) {
    && |xs| == |ys|
    && exists i :: 0 <= i < |xs| && xs[i] != ys[i] && forall j :: 0 <= j < |xs| && j != i ==> xs[j] == ys[j]
  }

  /** The first method of that name. */
  function FirstNamed(methods: seq<GateMethod>, name: Id): (k: nat)
    ensures k <= |methods| && (k < |methods| ==> methods[k].id == name) && forall j :: 0 <= j < k ==> methods[j].id != name
  {
    FirstIndex(methods, (m: GateMethod) => m.id == name)
  }

  lemma {:induction false} NamedIsScanned(w: World, methods: seq<GateMethod>, actor: Id, facts: seq<Fact>, wanted: Id, h: nat, k: nat)
    requires forall k :: 0 <= k < |methods| ==> MethodInRange(w, methods[k])
    requires wanted != 0 && k < |methods| && methods[k].id == wanted && forall j :: 0 <= j < k ==> methods[j].id != wanted
    ensures Scanned(w, methods, actor, facts, wanted, h)
         == Round(Fold(Evidence(w, methods[k], actor, facts), h), if AllMet(w, methods[k], actor, facts) then 1 else 0)
  {
    hide Fold, Evidence, Round, AllMet;
    if k > 0 {
      NamedIsScanned(w, methods[1..], actor, facts, wanted, h, k - 1);
    }
  }

  /** Main result: when the facts a call brings change what one predicate of its method
      saw, and not its verdict, an offer made before is not current any more. */
  lemma OtherEvidenceIsStale(w: World, g: nat, id: Id, facts: seq<Fact>, others: seq<Fact>, wanted: Id, t: Threshold)
    requires DistinctIds(w.items) && g < |w.gates| && FindGate(w.gates, w.gates[g].id) == g && InTables(w, w.gates[g])
    requires w.gates[g].id != 0 && id != 0 && |facts| <= MAX_FACTS && |others| <= MAX_FACTS && ActiveActor(w, id)
    requires StateFor(w, w.gates[g], id) == Closed && wanted != 0
    requires FirstNamed(MethodsOf(w, w.gates[g]), wanted) < w.gates[g].methodCount
    requires var m := MethodsOf(w, w.gates[g])[FirstNamed(MethodsOf(w, w.gates[g]), wanted)];
             && MethodInRange(w, m)
             && Words(Evidence(w, m, id, facts)) && Words(Evidence(w, m, id, others))
             && DifferInOne(Evidence(w, m, id, facts), Evidence(w, m, id, others))
             && (AllMet(w, m, id, facts) <==> AllMet(w, m, id, others))
    ensures var e := Evaluate(w, w.gates[g].id, id, facts, wanted);
            && e.Decided?
            && (t.facts == others && t.methodId == wanted && t.expectedDigest == e.decision.digest
                ==> !OfferIsCurrent(w, w.gates[g].id, id, t))
  {
    var gate := w.gates[g];
    var actor, methods := w.actors[FindActor(w.actors, id)], MethodsOf(w, gate);
    var k, h := FirstNamed(methods, wanted), Fold(Circumstances(w, gate, actor), BASIS);
    assert forall j :: 0 <= j < |methods| ==> methods[j] == w.gateMethods[gate.methodStart + j];
    DigestMeans(w, g, id, facts, wanted);
    DigestMeans(w, g, id, others, wanted);
    NamedIsScanned(w, methods, id, facts, wanted, h, k);
    NamedIsScanned(w, methods, id, others, wanted, h, k);
    FoldIsAWord(Circumstances(w, gate, actor), BASIS);
    DifferentEvidence(Evidence(w, methods[k], id, facts), Evidence(w, methods[k], id, others), h,
                      if AllMet(w, methods[k], id, facts) then 1 else 0);
    hide Evaluate, Scanned, Fold, Round, Circumstances, Evidence, AllMet, InTables, DistinctIds, StateFor, FirstIndex;
  }

  lemma {:induction false} FoldIsAWord(values: seq<nat>, h: nat)
    requires h < WORD
    ensures Fold(values, h) < WORD
  {
    hide Xor;
    if values != [] {
      FoldIsAWord(values[1..], Round(h, values[0]));
    }
  }

  lemma DifferentEvidence(xs: seq<nat>, ys: seq<nat>, h: nat, verdict: nat)
    requires Words(xs) && Words(ys) && h < WORD && DifferInOne(xs, ys) && verdict < WORD
    ensures Round(Fold(xs, h), verdict) != Round(Fold(ys, h), verdict)
  {
    var i :| 0 <= i < |xs| && xs[i] != ys[i] && forall j :: 0 <= j < |xs| && j != i ==> xs[j] == ys[j];
    FoldTellsApart(xs, ys, i, h);
    FoldIsAWord(xs, h);
    FoldIsAWord(ys, h);
    RoundTellsApart(Fold(xs, h), verdict, Fold(ys, h), verdict);
    XorUndoes(Fold(xs, h), verdict);
    XorUndoes(Fold(ys, h), verdict);
    hide Fold, Round, Xor;
  }
}
