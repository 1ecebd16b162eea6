/**
  No stale authorisation over whole histories, in which gates are defined and
  redefined between the calls.  Every accepted definition and every effective
  call raises the access revision, so no earlier offer is honoured again; and
  every actor's movements follow the map, each crossing legal in the very state
  that committed it.
 */
module Histories {
  import opened KernelTypes
  import opened Lookup
  import opened GateRules
  import opened GateView
  import opened Dispatcher
  import opened Effects
  import opened GateArena
  import opened Travel

  lemma {:induction false} AfterSplits(w: World, first: seq<Move>, second: seq<Move>)
    ensures AfterMoves(w, first + second) == AfterMoves(AfterMoves(w, first), second)
    decreases |first|
  {
    hide AfterMove;
    if first == [] {
      assert first + second == second;
    } else {
      assert (first + second)[0] == first[0] && (first + second)[1..] == first[1..] + second;
      AfterSplits(AfterMove(w, first[0]), first[1..], second);
    }
  }

  lemma AfterOneMore(w: World, moves: seq<Move>, i: nat)
    requires i < |moves|
    ensures AfterMoves(w, moves[..i + 1]) == AfterMove(AfterMoves(w, moves[..i]), moves[i])
  {
    hide AfterMove;
    var v, one := AfterMoves(w, moves[..i]), [moves[i]];
    assert moves[..i + 1] == moves[..i] + one;
    AfterSplits(w, moves[..i], one);
    assert AfterMoves(v, one) == AfterMove(v, moves[i]) by {
      assert one[1..] == [];
    }
  }

  /** A run of calls is a history without definitions. */
  function Acts(calls: seq<Call>): (moves: seq<Move>)
    ensures |moves| == |calls| && forall i :: 0 <= i < |calls| ==> moves[i] == Act(calls[i])
  {
    seq(|calls|, i requires 0 <= i < |calls| => Act(calls[i]))
  }

  lemma {:induction false} RunIsAHistory(k: Kernel, calls: seq<Call>)
    ensures Run(k, calls).world == AfterMoves(k.world, Acts(calls))
    decreases |calls|
  {
    hide Step;
    if calls != [] {
      RunIsAHistory(Advance(k, calls[0]), calls[1..]);
      assert Acts(calls)[1..] == Acts(calls[1..]);
    }
  }

  // -------------------------------------------------------------- definitions

  lemma {:induction false} AppendingKeepsTheRest(w: World, methods: seq<MethodDefinition>)
    ensures var r := AppendMethods(w, methods);
            r == w.(gateMethods := r.gateMethods, gatePredicates := r.gatePredicates)
    decreases |methods|
  {
    if methods != [] {
      var m := methods[0];
      AppendingKeepsTheRest(
        w.(gateMethods := w.gateMethods + [GateMethod(m.id, |w.gatePredicates|, |m.predicates|)],
           gatePredicates := w.gatePredicates + m.predicates),
        methods[1..]);
    }
  }

  /** A definition touches the gate tables alone, and raises the revision if accepted. */
  lemma DefinitionRaises(w: World, gate: Gate, methods: seq<MethodDefinition>)
    ensures var r := SetGate(w, gate, methods);
            && r == w.(gates := r.gates, gateMethods := r.gateMethods, gatePredicates := r.gatePredicates,
                       accessRevision := r.accessRevision)
            && r.accessRevision == if SetGateStatus(w, gate, methods) == Success then Raise64(w.accessRevision)
                                   else w.accessRevision
  {
    hide SetGateStatus, AppendMethods;
    var g, bound := FindGate(w.gates, gate.id), gate.(methodStart := |w.gateMethods|, methodCount := |methods|);
    AppendingKeepsTheRest(w.(gates := if g == |w.gates| then w.gates + [bound] else w.gates[g := bound]), methods);
  }

  // ---------------------------------------------------------------- revisions

  /** The move takes effect: an accepted definition, or an effective call. */
  predicate TakesEffect(w: World, m: Move) {
    match m
    case DefineGate(gate, methods) => SetGateStatus(w, gate, methods) == Success
    case Act(call) => Effective(w, call)
  }

  /** Every move that takes effect raises the revision by one, short of saturation,
      and no other move does. */
  lemma EffectRaisesRevision(w: World, m: Move)
    ensures AfterMove(w, m).accessRevision == if TakesEffect(w, m) then Raise64(w.accessRevision) else w.accessRevision
  {
    hide Step, SetGate, SetGateStatus, IsRetry;
    match m
    case DefineGate(gate, methods) => DefinitionRaises(w, gate, methods);
    case Act(call) => EverySuccessRaisesRevision(w, call);
  }

  lemma {:induction false} RevisionNeverFalls(w: World, moves: seq<Move>)
    ensures AfterMoves(w, moves).accessRevision >= w.accessRevision
    decreases |moves|
  {
    hide AfterMove, TakesEffect;
    if moves != [] {
      EffectRaisesRevision(w, moves[0]);
      RevisionNeverFalls(AfterMove(w, moves[0]), moves[1..]);
    }
  }

  /** Below saturation, one effective move anywhere in a history moves the revision on. */
  lemma EffectiveMoveMovesRevision(w: World, moves: seq<Move>, i: nat)
    requires w.accessRevision < U64_MAX && i < |moves| && TakesEffect(AfterMoves(w, moves[..i]), moves[i])
    ensures AfterMoves(w, moves).accessRevision != w.accessRevision
  {
    hide AfterMove, TakesEffect, AfterMoves;
    RevisionNeverFalls(w, moves[..i]);
    EffectRaisesRevision(AfterMoves(w, moves[..i]), moves[i]);
    AfterOneMore(w, moves, i);
    RevisionNeverFalls(AfterMoves(w, moves[..i + 1]), moves[i + 1..]);
    assert moves == moves[..i + 1] + moves[i + 1..];
    AfterSplits(w, moves[..i + 1], moves[i + 1..]);
  }

  /** Hence an offer made before any effective move is current for no gate and
      nobody afterwards. */
  lemma StaleOfferIsNeverHonoured(w: World, moves: seq<Move>, i: nat, t: Threshold)
    requires w.accessRevision < U64_MAX && i < |moves| && TakesEffect(AfterMoves(w, moves[..i]), moves[i])
    requires t.expectedRevision == w.accessRevision
    ensures forall gate, actor :: !OfferIsCurrent(AfterMoves(w, moves), gate, actor, t)
  {
    EffectiveMoveMovesRevision(w, moves, i);
    hide AfterMoves;
    forall gate, actor ensures !OfferIsCurrent(AfterMoves(w, moves), gate, actor, t) {
      OldOfferIsNotCurrent(AfterMoves(w, moves), gate, actor, t);
    }
  }

  // ----------------------------------------------------------------- movement

  /** Nobody leaves the world, and the map keeps its exits. */
  predicate MapStays(w: World, r: World) {
    KeepsActors(w.actors, r.actors) && OnlyUnlocks(w.exits, r.exits)
  }

  lemma MoveKeepsMap(w: World, m: Move)
    ensures MapStays(w, AfterMove(w, m))
  {
    hide Step, SetGate;
    match m
    case DefineGate(gate, methods) => DefinitionRaises(w, gate, methods);
    case Act(call) => StepFrame(w, call);
  }

  lemma {:induction false} HistoryKeepsMap(w: World, moves: seq<Move>)
    ensures MapStays(w, AfterMoves(w, moves))
    decreases |moves|
  {
    hide AfterMove;
    if moves != [] {
      MoveKeepsMap(w, moves[0]);
      HistoryKeepsMap(AfterMove(w, moves[0]), moves[1..]);
    }
  }

  /** Where an actor stands after the first `i` moves. */
  function Whereabouts(w: World, moves: seq<Move>, i: nat, id: Id): Id
    requires i <= |moves|
  {
    var r := AfterMoves(w, moves[..i]);
    if Known(r, id) then GetActor(r, id).location else 0
  }

  /** One move displaces nobody but a call's own actor, along a legal crossing. */
  lemma MoveIsLegal(w: World, m: Move, id: Id)
    requires Known(w, id)
    ensures var r := AfterMove(w, m);
            && Known(r, id)
            && (|| GetActor(r, id).location == GetActor(w, id).location
                || (&& m.Act? && id == m.call.action.actor && GetActor(r, id).location == m.call.action.destination
                    && LegalCrossing(w, id, GetActor(w, id).location, m.call.action.destination, m.call.action.threshold)))
  {
    hide Step, SetGate, LegalCrossing;
    match m
    case DefineGate(gate, methods) => DefinitionRaises(w, gate, methods);
    case Act(call) => StepMovesLegally(w, call, id);
  }

  /** Every actor's history, from wherever it was created, is a path in the map of
      the starting world, and each of its crossings was legal in the state that
      committed it, under the threshold of the call that made it. */
  lemma HistoryIsALegalPath(w: World, moves: seq<Move>, i: nat, id: Id)
    requires i < |moves| && Known(AfterMoves(w, moves[..i]), id)
    ensures Known(AfterMoves(w, moves[..i + 1]), id)
    ensures var here, next := Whereabouts(w, moves, i, id), Whereabouts(w, moves, i + 1, id);
            || next == here
            || (&& moves[i].Act? && id == moves[i].call.action.actor && ExitExists(w, here, next)
                && LegalCrossing(AfterMoves(w, moves[..i]), id, here, next, moves[i].call.action.threshold))
  {
    hide AfterMove, AfterMoves, LegalCrossing, FindActor, FindExit;
    var v := AfterMoves(w, moves[..i]);
    HistoryKeepsMap(w, moves[..i]);
    MoveIsLegal(v, moves[i], id);
    AfterOneMore(w, moves, i);
    var here, next := Whereabouts(w, moves, i, id), Whereabouts(w, moves, i + 1, id);
    if next != here {
      LegalMeansThereIsAnExit(v, id, here, next, moves[i].call.action.threshold);
      ExitsStay(w.exits, v.exits, here, next);
    }
  }
}
