/**
  The structure of combat in every reachable state, and the guarantee that an
  encounter never gets stuck: whoever holds the turn can act, so passing works.
  The one rule outside that guarantee is the unordered attack by an outsider.
 */
module CombatLaws {
  import opened KernelTypes
  import opened Lookup
  import opened GateRules
  import opened CombatRules
  import opened ActorRules
  import opened Dispatcher
  import opened Effects

  // -------------------------------------------------------- initiative order

  /** Nobody acts before anyone to their left. */
  predicate Settled(s: seq<Participant>) {
    forall i, j :: 0 <= i < j < |s| ==> !ActsBefore(s[j], s[i])
  }

  predicate DistinctActors(s: seq<Participant>) {
    forall i, j :: 0 <= i < j < |s| ==> s[i].actor != s[j].actor
  }

  lemma {:induction false} InsertionPermutes(sorted: seq<Participant>, value: Participant)
    ensures multiset(InsertByInitiative(sorted, value)) == multiset(sorted) + multiset{value}
    decreases |sorted|
  {
    hide ActsBefore;
    if sorted != [] && ActsBefore(value, sorted[|sorted| - 1]) {
      assert sorted == sorted[..|sorted| - 1] + [sorted[|sorted| - 1]];
      InsertionPermutes(sorted[..|sorted| - 1], value);
    }
  }

  lemma InsertedIsOldOrNew(sorted: seq<Participant>, value: Participant, i: nat)
    requires i < |sorted| + 1
    ensures var p := InsertByInitiative(sorted, value)[i]; p == value || p in sorted
  {
    InsertionPermutes(sorted, value);
    var r := InsertByInitiative(sorted, value);
    hide InsertByInitiative;
    assert r[i] in multiset(r);
  }

  lemma {:induction false} InsertionSettles(sorted: seq<Participant>, value: Participant)
    requires Settled(sorted)
    ensures Settled(InsertByInitiative(sorted, value))
    decreases |sorted|
  {
    if sorted != [] {
      var front, last := sorted[..|sorted| - 1], sorted[|sorted| - 1];
      if ActsBefore(value, last) {
        InsertionSettles(front, value);
        forall i: nat | i < |sorted| ensures !ActsBefore(last, InsertByInitiative(front, value)[i]) {
          InsertedIsOldOrNew(front, value, i);
        }
      } else {
        forall i | 0 <= i < |sorted| ensures !ActsBefore(value, sorted[i]) {
          assert i == |sorted| - 1 || !ActsBefore(last, sorted[i]);
        }
      }
    }
  }

  lemma {:induction false} InsertionKeepsDistinct(sorted: seq<Participant>, value: Participant)
    requires DistinctActors(sorted) && forall i :: 0 <= i < |sorted| ==> sorted[i].actor != value.actor
    ensures DistinctActors(InsertByInitiative(sorted, value))
    decreases |sorted|
  {
    if sorted != [] && ActsBefore(value, sorted[|sorted| - 1]) {
      var front, last := sorted[..|sorted| - 1], sorted[|sorted| - 1];
      InsertionKeepsDistinct(front, value);
      forall i: nat | i < |sorted| ensures InsertByInitiative(front, value)[i].actor != last.actor {
        InsertedIsOldOrNew(front, value, i);
      }
    }
  }

  /** The sort is a sort: the same participants, in initiative order. */
  lemma {:induction false} SortSettles(s: seq<Participant>)
    ensures multiset(SortByInitiative(s)) == multiset(s)
    ensures Settled(SortByInitiative(s))
    ensures DistinctActors(s) ==> DistinctActors(SortByInitiative(s))
    decreases |s|
  {
    if s != [] {
      var front, last := s[..|s| - 1], s[|s| - 1];
      assert s == front + [last];
      SortSettles(front);
      var inner := SortByInitiative(front);
      InsertionPermutes(inner, last);
      InsertionSettles(inner, last);
      if DistinctActors(s) {
        forall i | 0 <= i < |inner| ensures inner[i].actor != last.actor {
          assert inner[i] in multiset(inner);
          assert inner[i] in front;
        }
        InsertionKeepsDistinct(inner, last);
      }
    }
  }

  // --------------------------------------------------------------- structure

  predicate ParticipantOk(actors: seq<Actor>, p: Participant) {
    FindActor(actors, p.actor) < |actors| && (p.side == 1 || p.side == 2)
  }

  /** Two to sixteen distinct known participants on two sides, in initiative
      order, with the turn index among them. */
  predicate ListOk(actors: seq<Actor>, e: Encounter) {
    && 2 <= |e.participants| <= MAX_PARTICIPANTS
    && e.current < |e.participants|
    && Settled(e.participants) && DistinctActors(e.participants)
    && forall j :: 0 <= j < |e.participants| ==> ParticipantOk(actors, e.participants[j])
  }

  predicate Stands(actors: seq<Actor>, id: Id, location: Id) {
    var i := FindActor(actors, id);
    i < |actors| && actors[i].location == location
  }

  /** Whoever still fights here stands here. */
  predicate Mustered(actors: seq<Actor>, e: Encounter) {
    forall j :: 0 <= j < |e.participants| && !e.participants[j].escaped ==>
      Stands(actors, e.participants[j].actor, e.location)
  }

  predicate EncounterOk(actors: seq<Actor>, e: Encounter) {
    e.id != 0 && ListOk(actors, e) && (e.status == Ongoing ==> Mustered(actors, e))
  }

  ghost predicate FightsOnce(encounters: seq<Encounter>) {
    forall i, j, id :: 0 <= i < j < |encounters| ==> !(Engages(encounters[i], id) && Engages(encounters[j], id))
  }

  ghost predicate CombatOk(w: World) {
    && |w.encounters| <= MAX_ENCOUNTERS
    && (forall i, j :: 0 <= i < j < |w.encounters| ==> w.encounters[i].id != w.encounters[j].id)
    && (forall i :: 0 <= i < |w.encounters| ==> EncounterOk(w.actors, w.encounters[i]))
    && FightsOnce(w.encounters)
  }

  // ---------------------------------------------- how an update can keep it

  /** The record at `mover`, if there is one, is nobody who fights outside slot `k`. */
  predicate MoverIsFree(w: World, mover: nat, k: nat) {
    mover < |w.actors| ==>
      forall i :: 0 <= i < |w.encounters| && i != k ==> !Engages(w.encounters[i], w.actors[mover].id)
  }

  lemma StaysMustered(before: seq<Actor>, after: seq<Actor>, e: Encounter, mover: nat)
    requires EncounterOk(before, e) && KeepsActors(before, after) && OnlyMoves(before, after, mover)
    requires mover < |before| ==> !Engages(e, before[mover].id)
    ensures EncounterOk(after, e)
  {
    hide FirstIndex;
    forall j | 0 <= j < |e.participants|
      ensures FindActor(after, e.participants[j].actor) == FindActor(before, e.participants[j].actor)
    {
      assert ParticipantOk(before, e.participants[j]);
      ActorPrefix(before, after, e.participants[j].actor);
    }
    if e.status == Ongoing {
      forall j | 0 <= j < |e.participants| && !e.participants[j].escaped
        ensures Stands(after, e.participants[j].actor, e.location)
      {
        assert Fights(e.participants, e.participants[j].actor);
        assert Stands(before, e.participants[j].actor, e.location);
      }
    }
    forall j | 0 <= j < |e.participants| ensures ParticipantOk(after, e.participants[j]) {
      assert ParticipantOk(before, e.participants[j]);
    }
  }

  /** Only the actor table changed, and nobody moved who fights. */
  lemma ActorEditKeepsCombat(w: World, r: World, mover: nat)
    requires CombatOk(w) && r.encounters == w.encounters
    requires KeepsActors(w.actors, r.actors) && OnlyMoves(w.actors, r.actors, mover)
    requires MoverIsFree(w, mover, |w.encounters|)
    ensures CombatOk(r)
  {
    forall i | 0 <= i < |w.encounters| ensures EncounterOk(r.actors, w.encounters[i]) {
      assert EncounterOk(w.actors, w.encounters[i]);
      hide EncounterOk;
      StaysMustered(w.actors, r.actors, w.encounters[i], mover);
    }
  }

  /** One encounter changed, and engaged nobody who already fought elsewhere. */
  lemma PlacementKeepsCombat(w: World, r: World, k: nat, e: Encounter, mover: nat)
    requires CombatOk(w) && k <= |w.encounters| && k < MAX_ENCOUNTERS
    requires r.encounters == PlaceEncounter(w.encounters, k, e)
    requires KeepsActors(w.actors, r.actors) && OnlyMoves(w.actors, r.actors, mover) && MoverIsFree(w, mover, k)
    requires EncounterOk(r.actors, e)
    requires forall i :: 0 <= i < |w.encounters| && i != k ==> w.encounters[i].id != e.id
    requires forall i, id :: 0 <= i < |w.encounters| && i != k && Engages(e, id) ==> !Engages(w.encounters[i], id)
    ensures CombatOk(r)
  {
    forall i | 0 <= i < |r.encounters| ensures EncounterOk(r.actors, r.encounters[i]) {
      if i != k {
        assert EncounterOk(w.actors, w.encounters[i]);
        hide EncounterOk;
        StaysMustered(w.actors, r.actors, w.encounters[i], mover);
      }
    }
    hide EncounterOk;
    hide Engages;
    assert FightsOnce(r.encounters) by {
      forall i, j, id | 0 <= i < j < |r.encounters|
        ensures !(Engages(r.encounters[i], id) && Engages(r.encounters[j], id))
      {}
    }
  }

  // ------------------------------------------------------------ never stuck

  /** Both sides can act, and so can whoever holds the turn. */
  predicate Playable(w: World, e: Encounter) {
    && SideCanAct(w, e, 1) && SideCanAct(w, e, 2)
    && e.current < |e.participants| && CanAct(w, e.participants[e.current])
  }

  predicate NeverStuck(w: World) {
    forall i :: 0 <= i < |w.encounters| && w.encounters[i].status == Ongoing ==> Playable(w, w.encounters[i])
  }

  /** Nobody able lost that. */
  predicate KeepsAble(before: seq<Actor>, after: seq<Actor>) {
    && KeepsActors(before, after)
    && forall i :: 0 <= i < |before| && before[i].status == Active ==> after[i].status == Active
  }

  lemma AbleStaysAble(w: World, r: World, p: Participant)
    requires KeepsAble(w.actors, r.actors) && CanAct(w, p)
    ensures CanAct(r, p)
  {
    ActorPrefix(w.actors, r.actors, p.actor);
  }

  lemma PlayableStays(w: World, r: World, e: Encounter)
    requires KeepsAble(w.actors, r.actors) && Playable(w, e)
    ensures Playable(r, e)
  {
    forall p | CanAct(w, p) ensures CanAct(r, p) { AbleStaysAble(w, r, p); }
    hide CanAct;
  }

  /** Around the table, every seat is at some step between one and the table's size. */
  lemma EverySeatIsAhead(e: Encounter, j: nat)
    requires j < |e.participants| && e.current < |e.participants|
    ensures var step := if j > e.current then j - e.current else j - e.current + |e.participants|;
            1 <= step <= |e.participants| && Seat(e, step) == j
  {}

  lemma AbleSeatIsFound(w: World, e: Encounter)
    requires SideCanAct(w, e, 1) && e.current < |e.participants|
    ensures NextStep(w, e, 1) <= |e.participants|
  {
    var j: nat :| j < |e.participants| && CanAct(w, e.participants[j]);
    EverySeatIsAhead(e, j);
    hide CanAct;
  }

  lemma StopDodgingKeepsAble(w: World, actor: Id)
    ensures KeepsAble(w.actors, StopDodging(w, actor).actors)
  {
    hide FirstIndex;
  }

  /** Finishing a turn resolves its encounter or leaves it playable, whatever
      state it was in; nobody is added, removed or reseated. */
  lemma FinishedTurnIsPlayable(w: World, k: nat)
    requires k < |w.encounters| && w.encounters[k].current < |w.encounters[k].participants|
    ensures var e, r := w.encounters[k], FinishTurn(w, k).world;
            && |r.encounters| == |w.encounters| && r.encounters == w.encounters[k := r.encounters[k]]
            && r.encounters[k] == e.(status := r.encounters[k].status, current := r.encounters[k].current,
                                     round := r.encounters[k].round)
            && r.encounters[k].current < |e.participants|
            && (r.encounters[k].status == Resolved || (r.encounters[k].status == e.status && Playable(r, r.encounters[k])))
  {
    var e := w.encounters[k];
    if SideCanAct(w, e, 1) && SideCanAct(w, e, 2) {
      AbleSeatIsFound(w, e);
      var next := AdvanceTurn(w, e);
      assert CanAct(w, next.participants[next.current]);
      var turned := w.(encounters := w.encounters[k := next]);
      StopDodgingKeepsAble(turned, CurrentActor(next));
      hide NextStep;
      hide CanAct;
      assert Playable(w, next);
      PlayableStays(w, StopDodging(turned, CurrentActor(next)), next);
    }
    hide Playable;
    hide SideCanAct;
    hide StopDodging;
    hide AdvanceTurn;
  }

  predicate OthersPlayable(w: World, k: nat) {
    forall i :: 0 <= i < |w.encounters| && i != k && w.encounters[i].status == Ongoing ==> Playable(w, w.encounters[i])
  }

  lemma FinishTurnKeepsAble(w: World, k: nat)
    requires k < |w.encounters|
    ensures KeepsAble(w.actors, FinishTurn(w, k).world.actors)
  {
    var next := AdvanceTurn(w, w.encounters[k]);
    StopDodgingKeepsAble(w.(encounters := w.encounters[k := next]), CurrentActor(next));
    hide StopDodging;
    hide AdvanceTurn;
    hide SideCanAct;
  }

  /** However a turn came to end, ending it keeps the structure and leaves no
      encounter stuck, provided the others were not. */
  lemma EndOfTurnIsSafe(w: World, k: nat)
    requires CombatOk(w) && k < |w.encounters|
    ensures CombatOk(FinishTurn(w, k).world)
    ensures OthersPlayable(w, k) ==> NeverStuck(FinishTurn(w, k).world)
  {
    var r := FinishTurn(w, k).world;
    assert EncounterOk(w.actors, w.encounters[k]);
    FinishedTurnIsPlayable(w, k);
    FinishTurnEffect(w, w, k, |w.actors|);
    FinishTurnKeepsAble(w, k);
    hide FinishTurn;
    StaysMustered(w.actors, r.actors, w.encounters[k], |w.actors|);
    var e := r.encounters[k];
    assert EncounterOk(r.actors, e);
    forall id | Engages(e, id) ensures Engages(w.encounters[k], id) {}
    hide EncounterOk;
    hide Engages;
    PlacementKeepsCombat(w, r, k, e, |w.actors|);
    if OthersPlayable(w, k) {
      forall i | 0 <= i < |w.encounters| && i != k && w.encounters[i].status == Ongoing
        ensures Playable(r, r.encounters[i])
      {
        PlayableStays(w, r, w.encounters[i]);
      }
    }
  }

  // ------------------------------------------------------- turn by turn

  lemma TurnHolderFights(w: World, a: Action)
    requires HoldsTurn(w, a)
    ensures var k := ReferredEncounter(w, a);
            && k < |w.encounters| && w.encounters[k].status == Ongoing
            && CurrentActor(w.encounters[k]) == a.actor && Engages(w.encounters[k], a.actor)
  {
    var e := w.encounters[ReferredEncounter(w, a)];
    assert Fights(e.participants, a.actor) by {
      var j := FindParticipant(e.participants, a.actor);
      assert e.participants[j].actor == a.actor && !e.participants[j].escaped;
    }
  }

  /** Nobody able lost that, save perhaps `id`. */
  predicate KeepsOthersAble(before: seq<Actor>, after: seq<Actor>, id: Id) {
    && KeepsActors(before, after)
    && forall i :: 0 <= i < |before| && before[i].status == Active && before[i].id != id ==> after[i].status == Active
  }

  lemma PlayableWithout(w: World, r: World, e: Encounter, id: Id)
    requires KeepsOthersAble(w.actors, r.actors, id) && Playable(w, e) && e.status == Ongoing && !Engages(e, id)
    ensures Playable(r, e)
  {
    forall j | 0 <= j < |e.participants| && CanAct(w, e.participants[j]) ensures CanAct(r, e.participants[j]) {
      var p := e.participants[j];
      assert Fights(e.participants, p.actor);
      ActorPrefix(w.actors, r.actors, p.actor);
    }
    hide CanAct;
  }

  /** What is done to one fighter touches no encounter but that fighter's own. */
  lemma OthersStayPlayable(w: World, r: World, k: nat, id: Id)
    requires CombatOk(w) && NeverStuck(w) && k < |w.encounters| && Engages(w.encounters[k], id)
    requires |r.encounters| == |w.encounters| && r.encounters == w.encounters[k := r.encounters[k]]
    requires KeepsOthersAble(w.actors, r.actors, id)
    ensures OthersPlayable(r, k)
  {
    forall i | 0 <= i < |r.encounters| && i != k && r.encounters[i].status == Ongoing
      ensures Playable(r, r.encounters[i])
    {
      assert !Engages(w.encounters[i], id);
      hide Engages;
      PlayableWithout(w, r, w.encounters[i], id);
    }
  }

  lemma StrikeSparesOthers(w: World, target: Id, blow: Blow)
    requires Known(w, target)
    ensures KeepsOthersAble(w.actors, Strike(w, target, blow).actors, target)
  {
    StrikeEffect(w, target, blow, |w.actors|);
    hide Damaged;
  }

  lemma CombatAttackIsSafe(w: World, a: Action, seed: Seed, finesse: bool)
    requires CombatOk(w)
    ensures var r := ApplyCombatAttack(w, a, seed, finesse).world;
            CombatOk(r) && (NeverStuck(w) ==> NeverStuck(r))
  {
    hide CombatBlow;
    if HoldsTurn(w, a) && CombatAttackRefusal(w, a) == NoReason {
      TurnHolderFights(w, a);
      var k := ReferredEncounter(w, a);
      var e := w.encounters[k];
      assert Known(w, a.target);
      assert Engages(e, a.target) by {
        var j := FindParticipant(e.participants, a.target);
        assert e.participants[j].actor == a.target && !e.participants[j].escaped;
      }
      hide CombatAttackRefusal;
      hide TurnRefusal;
      var struck := Strike(w, a.target, CombatBlow(w, a, seed, finesse));
      StrikeEffect(w, a.target, CombatBlow(w, a, seed, finesse), |w.actors|);
      StrikeSparesOthers(w, a.target, CombatBlow(w, a, seed, finesse));
      hide Strike;
      hide Engages;
      ActorEditKeepsCombat(w, struck, |w.actors|);
      if NeverStuck(w) {
        OthersStayPlayable(w, struck, k, a.target);
      }
      EndOfTurnIsSafe(struck, k);
      hide FinishTurn;
      hide NeverStuck;
      hide CombatOk;
    }
  }

  lemma SameFightersSameSafety(w: World, r: World)
    requires r.encounters == w.encounters && KeepsAble(w.actors, r.actors) && StaysPut(w.actors, r.actors)
    requires CombatOk(w)
    ensures CombatOk(r)
    ensures NeverStuck(w) ==> NeverStuck(r)
  {
    ActorEditKeepsCombat(w, r, |w.actors|);
    if NeverStuck(w) {
      forall i | 0 <= i < |r.encounters| && r.encounters[i].status == Ongoing ensures Playable(r, r.encounters[i]) {
        PlayableStays(w, r, w.encounters[i]);
      }
    }
  }

  lemma StartDodgingKeepsAble(w: World, actor: Id)
    requires Known(w, actor)
    ensures var r := StartDodging(w, actor); KeepsAble(w.actors, r.actors) && StaysPut(w.actors, r.actors)
  {}

  lemma WaitingIsSafe(w: World, a: Action)
    requires CombatOk(w)
    ensures CombatOk(ApplyPass(w, a).world) && CombatOk(ApplyDodge(w, a).world) && CombatOk(ApplyNeedTime(w, a).world)
    ensures NeverStuck(w) ==>
              NeverStuck(ApplyPass(w, a).world) && NeverStuck(ApplyDodge(w, a).world)
              && NeverStuck(ApplyNeedTime(w, a).world)
  {
    hide CombatOk;
    if HoldsTurn(w, a) {
      var k := ReferredEncounter(w, a);
      TurnHolderFights(w, a);
      hide TurnRefusal;
      EndOfTurnIsSafe(w, k);
      StartDodgingKeepsAble(w, a.actor);
      SameFightersSameSafety(w, StartDodging(w, a.actor));
      EndOfTurnIsSafe(StartDodging(w, a.actor), k);
      assert NeverStuck(w) ==> OthersPlayable(w, k) && OthersPlayable(StartDodging(w, a.actor), k);
    }
    hide FinishTurn;
    hide StartDodging;
    hide NeverStuck;
  }

  // -------------------------------------------------------- leaving a fight

  lemma OneFewerFights(e: Encounter, actor: Id)
    requires DistinctActors(e.participants)
    ensures var r := MarkEscaped(e, actor);
            && r == e.(participants := r.participants) && |r.participants| == |e.participants|
            && (forall i :: 0 <= i < |e.participants| ==>
                  r.participants[i] == e.participants[i].(escaped := r.participants[i].escaped))
            && (forall i :: 0 <= i < |e.participants| && !r.participants[i].escaped ==>
                  !e.participants[i].escaped && e.participants[i].actor != actor)
    ensures !Engages(MarkEscaped(e, actor), actor)
    ensures forall id :: Engages(MarkEscaped(e, actor), id) ==> Engages(e, id)
  {
    var r := MarkEscaped(e, actor);
    forall i | 0 <= i < |e.participants| && !r.participants[i].escaped
      ensures !e.participants[i].escaped && e.participants[i].actor != actor
    {}
    hide FirstIndex;
    hide MarkEscaped;
    forall id | Engages(r, id) ensures Engages(e, id) && id != actor {
      var i :| 0 <= i < |r.participants| && r.participants[i].actor == id && !r.participants[i].escaped;
      assert e.participants[i].actor == id;
    }
  }

  lemma EscapeeMovesAlone(w: World, a: Action, k: nat)
    requires Known(w, a.actor) && k < |w.encounters|
    ensures var r := CommitEscape(w, a, k);
            KeepsAble(w.actors, r.actors) && OnlyMoves(w.actors, r.actors, FindActor(w.actors, a.actor))
  {
    hide MarkEscaped;
  }

  lemma EscapeKeepsCombat(w: World, a: Action, k: nat)
    requires CombatOk(w) && k < |w.encounters| && Known(w, a.actor) && Engages(w.encounters[k], a.actor)
    ensures CombatOk(CommitEscape(w, a, k))
  {
    var e, r := w.encounters[k], CommitEscape(w, a, k);
    var e' := r.encounters[k];
    assert EncounterOk(w.actors, e);
    OneFewerFights(e, a.actor);
    EscapeeMovesAlone(w, a, k);
    hide CommitEscape;
    hide MarkEscaped;
    hide FirstIndex;
    forall i | 0 <= i < |e'.participants|
      ensures ParticipantOk(r.actors, e'.participants[i])
      ensures !e'.participants[i].escaped && e.status == Ongoing ==> Stands(r.actors, e'.participants[i].actor, e'.location)
    {
      assert ParticipantOk(w.actors, e.participants[i]);
      assert !e'.participants[i].escaped && e.status == Ongoing ==> Stands(w.actors, e.participants[i].actor, e.location);
      ActorPrefix(w.actors, r.actors, e.participants[i].actor);
    }
    assert EncounterOk(r.actors, e');
    hide EncounterOk;
    hide Engages;
    PlacementKeepsCombat(w, r, k, e', FindActor(w.actors, a.actor));
  }

  lemma EscapeIsSafe(w: World, a: Action)
    requires CombatOk(w)
    ensures var r := ApplyEscape(w, a).world;
            CombatOk(r) && (NeverStuck(w) ==> NeverStuck(r))
  {
    if HoldsTurn(w, a) && EscapeRefusal(w, a) == NoReason {
      TurnHolderFights(w, a);
      hide TurnRefusal;
      hide EscapeRefusal;
      var k := ReferredEncounter(w, a);
      var r := CommitEscape(w, a, k);
      EscapeKeepsCombat(w, a, k);
      EscapeeMovesAlone(w, a, k);
      hide CommitEscape;
      hide Engages;
      if NeverStuck(w) {
        OthersStayPlayable(w, r, k, a.actor);
      }
      EndOfTurnIsSafe(r, k);
      hide FinishTurn;
      hide CombatOk;
      hide NeverStuck;
    }
  }

  lemma {:induction false} StopAllDodgingKeepsAble(w: World, participants: seq<Participant>, j: nat)
    requires j <= |participants|
    ensures KeepsAble(w.actors, StopAllDodging(w, participants, j).actors)
    decreases |participants| - j
  {
    if j < |participants| {
      StopDodgingKeepsAble(w, participants[j].actor);
      hide StopDodging;
      StopAllDodgingKeepsAble(StopDodging(w, participants[j].actor), participants, j + 1);
    }
  }

  lemma ResolvingIsSafe(w: World, r: World, k: nat)
    requires CombatOk(w) && k < |w.encounters|
    requires r.encounters == w.encounters[k := w.encounters[k].(status := Resolved)]
    requires KeepsAble(w.actors, r.actors) && StaysPut(w.actors, r.actors)
    ensures CombatOk(r) && (NeverStuck(w) ==> NeverStuck(r))
  {
    var e := w.encounters[k];
    assert EncounterOk(w.actors, e);
    StaysMustered(w.actors, r.actors, e, |w.actors|);
    assert EncounterOk(r.actors, e.(status := Resolved));
    hide EncounterOk;
    PlacementKeepsCombat(w, r, k, e.(status := Resolved), |w.actors|);
    if NeverStuck(w) {
      forall i | 0 <= i < |r.encounters| && r.encounters[i].status == Ongoing ensures Playable(r, r.encounters[i]) {
        PlayableStays(w, r, w.encounters[i]);
      }
    }
  }

  lemma AbandonIsSafe(w: World, a: Action)
    requires CombatOk(w)
    ensures var r := ApplyAbandon(w, a).world;
            CombatOk(r) && (NeverStuck(w) ==> NeverStuck(r))
  {
    hide CombatOk;
    hide NeverStuck;
    hide StopAllDodging;
    if ApplyAbandon(w, a).status == Success {
      var k := FindEncounter(w.encounters, a.content);
      StopAllDodgingKeepsAble(w, w.encounters[k].participants, 0);
      StopAllDodgingEffect(w, w.encounters[k].participants, 0);
      ResolvingIsSafe(w, ApplyAbandon(w, a).world, k);
    }
  }

  // ------------------------------------------------------ entering a fight

  lemma OpenedList(w: World, a: Action, seed: Seed)
    requires Known(w, a.actor) && Known(w, a.target) && a.actor != a.target
    ensures var e := OpenEncounter(w, a, seed);
            && e.id == a.content && e.location == GetActor(w, a.actor).location && e.status == Ongoing && e.current == 0
            && Settled(e.participants) && DistinctActors(e.participants) && |e.participants| == 2
            && (forall p :: p in e.participants ==> !p.escaped && ((p.actor == a.actor && p.side == 1)
                                                                   || (p.actor == a.target && p.side == 2)))
            && (exists p :: p in e.participants && p.side == 1) && (exists p :: p in e.participants && p.side == 2)
  {
    var e := OpenEncounter(w, a, seed);
    var first := Participant(a.actor, 1, false, Initiative(GetActor(w, a.actor), seed, 101));
    var second := Participant(a.target, 2, false, Initiative(GetActor(w, a.target), seed, 102));
    hide Initiative;
    SortSettles([first, second]);
    assert e.participants == SortByInitiative([first, second]);
    hide SortByInitiative;
    hide FirstIndex;
    hide Settled;
    hide DistinctActors;
    assert forall p :: p in e.participants <==> p in multiset(e.participants);
    assert first in e.participants && second in e.participants;
  }

  lemma OpenedEncounterIsOk(w: World, a: Action, seed: Seed)
    requires a.content != 0 && IsActive(w, a.actor) && StartRefusal(w, a) == NoReason
    ensures var e := OpenEncounter(w, a, seed);
            && EncounterOk(w.actors, e) && Playable(w, e)
            && forall id :: Engages(e, id) ==> id == a.actor || id == a.target
  {
    var e := OpenEncounter(w, a, seed);
    assert IsActive(w, a.target) && GetActor(w, a.target).location == GetActor(w, a.actor).location;
    OpenedList(w, a, seed);
    hide OpenEncounter;
    hide StartRefusal;
    hide FirstIndex;
    hide Settled;
    hide DistinctActors;
    forall j | 0 <= j < |e.participants|
      ensures CanAct(w, e.participants[j])
      ensures ParticipantOk(w.actors, e.participants[j])
      ensures Stands(w.actors, e.participants[j].actor, e.location)
      ensures e.participants[j].actor == a.actor || e.participants[j].actor == a.target
    {
      assert e.participants[j] in e.participants;
    }
    hide CanAct;
    hide ParticipantOk;
    hide Stands;
    hide StartRefusal;
  }

  lemma NewSlotIsFree(w: World, id: Id)
    requires CombatOk(w)
    ensures forall i :: 0 <= i < |w.encounters| && i != StartSlot(w.encounters, id) ==> w.encounters[i].id != id
  {}

  /** A playable encounter between two who fight nowhere takes a free slot. */
  lemma OpeningIsSafe(w: World, k: nat, e: Encounter, one: Id, other: Id)
    requires CombatOk(w) && k <= |w.encounters| && k < MAX_ENCOUNTERS
    requires EncounterOk(w.actors, e) && Playable(w, e)
    requires forall i :: 0 <= i < |w.encounters| && i != k ==> w.encounters[i].id != e.id
    requires forall id :: Engages(e, id) ==> id == one || id == other
    requires !Engaged(w, one) && !Engaged(w, other)
    ensures var r := w.(encounters := PlaceEncounter(w.encounters, k, e));
            CombatOk(r) && (NeverStuck(w) ==> NeverStuck(r))
  {
    var r := w.(encounters := PlaceEncounter(w.encounters, k, e));
    hide EncounterOk;
    hide Engages;
    hide CanAct;
    PlacementKeepsCombat(w, r, k, e, |w.actors|);
    hide CombatOk;
    forall e | Playable(w, e) ensures Playable(r, e) {
      PlayableStays(w, r, e);
    }
    hide Playable;
  }

  lemma StartMeans(w: World, a: Action, seed: Seed)
    requires ApplyStart(w, a, seed).status == Success
    ensures a.content != 0 && IsActive(w, a.actor) && StartRefusal(w, a) == NoReason
    ensures !Engaged(w, a.actor) && !Engaged(w, a.target)
    ensures var k, e := StartSlot(w.encounters, a.content), OpenEncounter(w, a, seed);
            && (k == |w.encounters| ==> k < MAX_ENCOUNTERS)
            && ApplyStart(w, a, seed).world
               == StopDodging(w.(encounters := PlaceEncounter(w.encounters, k, e)), CurrentActor(e))
  {
    hide OpenEncounter;
    hide StopDodging;
    hide FirstIndex;
  }

  lemma StartIsSafe(w: World, a: Action, seed: Seed)
    requires CombatOk(w)
    ensures var r := ApplyStart(w, a, seed).world;
            CombatOk(r) && (NeverStuck(w) ==> NeverStuck(r))
  {
    var o := ApplyStart(w, a, seed);
    if o.status == Success {
      hide ApplyStart;
      hide StartRefusal;
      hide StartSlot;
      hide StopDodging;
      hide EncounterOk;
      hide Engages;
      hide Engaged;
      hide Playable;
      StartMeans(w, a, seed);
      var k, e := StartSlot(w.encounters, a.content), OpenEncounter(w, a, seed);
      OpenedEncounterIsOk(w, a, seed);
      NewSlotIsFree(w, a.content);
      assert e.id == a.content;
      hide OpenEncounter;
      OpeningIsSafe(w, k, e, a.actor, a.target);
      hide CombatOk;
      hide NeverStuck;
      var placed := w.(encounters := PlaceEncounter(w.encounters, k, e));
      StopDodgingKeepsAble(placed, CurrentActor(e));
      StopDodgingEffect(placed, CurrentActor(e), |w.actors|);
      SameFightersSameSafety(placed, o.world);
    }
  }

  lemma NewcomerIsAbsent(e: Encounter, actor: Id)
    requires FindParticipant(e.participants, actor) == |e.participants|
    ensures !Engages(e, actor) && forall j :: 0 <= j < |e.participants| ==> e.participants[j].actor != actor
  {}

  /** A join re-sorts, but whoever held the turn still holds it. */
  lemma AdmissionKeepsTheTurn(e: Encounter, p: Participant)
    requires e.current < |e.participants| && DistinctActors(e.participants)
    requires forall j :: 0 <= j < |e.participants| ==> e.participants[j].actor != p.actor
    ensures var r := Admit(e, p);
            && r == e.(participants := r.participants, current := r.current)
            && multiset(r.participants) == multiset(e.participants) + multiset{p}
            && Settled(r.participants) && DistinctActors(r.participants)
            && r.current < |r.participants| && r.participants[r.current] == e.participants[e.current]
            && CurrentActor(r) == CurrentActor(e)
  {
    var longer := e.participants + [p];
    SortSettles(longer);
    var sorted := SortByInitiative(longer);
    hide SortByInitiative;
    hide FirstIndex;
    hide Settled;
    var holder := e.participants[e.current];
    assert longer[e.current] == holder;
    assert holder in multiset(sorted);
    var j :| 0 <= j < |sorted| && sorted[j] == holder;
    assert j == FindParticipant(sorted, holder.actor);
  }

  lemma MoreFightersStillPlayable(w: World, e: Encounter, r: Encounter)
    requires Playable(w, e) && forall q :: q in e.participants ==> q in r.participants
    requires r.current < |r.participants| && r.participants[r.current] == e.participants[e.current]
    ensures Playable(w, r)
  {
    hide CanAct;
    forall side | SideCanAct(w, e, side) ensures SideCanAct(w, r, side) {
      var j :| 0 <= j < |e.participants| && e.participants[j].side == side && CanAct(w, e.participants[j]);
      assert e.participants[j] in r.participants;
    }
  }

  lemma AdmissionAddsOne(e: Encounter, p: Participant)
    requires e.current < |e.participants| && DistinctActors(e.participants)
    requires FindParticipant(e.participants, p.actor) == |e.participants|
    ensures var r := Admit(e, p);
            && |r.participants| == |e.participants| + 1
            && r == e.(participants := r.participants, current := r.current)
            && Settled(r.participants) && DistinctActors(r.participants)
            && r.current < |r.participants| && r.participants[r.current] == e.participants[e.current]
            && (forall q :: q in r.participants <==> q in e.participants || q == p)
            && forall id :: Engages(r, id) ==> Engages(e, id) || id == p.actor
  {
    var r := Admit(e, p);
    NewcomerIsAbsent(e, p.actor);
    AdmissionKeepsTheTurn(e, p);
    hide Admit;
    hide FirstIndex;
    hide Settled;
    hide DistinctActors;
    assert |r.participants| == |multiset(r.participants)|;
    assert forall q :: q in r.participants <==> q in multiset(r.participants);
    forall id | Engages(r, id) ensures Engages(e, id) || id == p.actor {
      var j :| 0 <= j < |r.participants| && r.participants[j].actor == id && !r.participants[j].escaped;
      assert r.participants[j] in r.participants;
    }
  }

  lemma AdmittedEncounterIsOk(w: World, e: Encounter, p: Participant)
    requires EncounterOk(w.actors, e) && e.status == Ongoing && |e.participants| < MAX_PARTICIPANTS
    requires FindParticipant(e.participants, p.actor) == |e.participants|
    requires ParticipantOk(w.actors, p) && Stands(w.actors, p.actor, e.location)
    ensures EncounterOk(w.actors, Admit(e, p))
    ensures Playable(w, e) ==> Playable(w, Admit(e, p))
  {
    var r := Admit(e, p);
    AdmissionAddsOne(e, p);
    if Playable(w, e) {
      MoreFightersStillPlayable(w, e, r);
    }
    hide Playable;
    hide Admit;
    hide FirstIndex;
    hide Settled;
    hide DistinctActors;
    hide Engages;
    hide Stands;
    hide ParticipantOk;
    forall j | 0 <= j < |r.participants|
      ensures ParticipantOk(w.actors, r.participants[j])
      ensures !r.participants[j].escaped ==> Stands(w.actors, r.participants[j].actor, r.location)
    {
      assert r.participants[j] in r.participants;
    }
  }

  /** One encounter gains a fighter who fought nowhere. */
  lemma AdmittingIsSafe(w: World, k: nat, e: Encounter, newcomer: Id)
    requires CombatOk(w) && k < |w.encounters| && EncounterOk(w.actors, e) && e.id == w.encounters[k].id
    requires forall id :: Engages(e, id) ==> Engages(w.encounters[k], id) || id == newcomer
    requires !Engaged(w, newcomer) && e.status == w.encounters[k].status
    requires Playable(w, w.encounters[k]) ==> Playable(w, e)
    ensures var r := w.(encounters := w.encounters[k := e]);
            CombatOk(r) && (NeverStuck(w) ==> NeverStuck(r))
  {
    var r := w.(encounters := w.encounters[k := e]);
    hide EncounterOk;
    hide Engages;
    hide CanAct;
    PlacementKeepsCombat(w, r, k, e, |w.actors|);
    hide CombatOk;
    forall e | Playable(w, e) ensures Playable(r, e) {
      PlayableStays(w, r, e);
    }
    hide Playable;
  }

  lemma JoinIsSafe(w: World, a: Action, seed: Seed)
    requires CombatOk(w)
    ensures var r := ApplyJoin(w, a, seed).world;
            CombatOk(r) && (NeverStuck(w) ==> NeverStuck(r))
  {
    var o, k := ApplyJoin(w, a, seed), FindEncounter(w.encounters, a.content);
    if o.world != w {
      var e, actor := w.encounters[k], GetActor(w, a.actor);
      var p := Participant(a.actor, JoinSide(actor, a), false, Initiative(actor, seed, 103));
      assert o.world == w.(encounters := w.encounters[k := Admit(e, p)]);
      assert actor.location == e.location && e.status == Ongoing && |e.participants| < MAX_PARTICIPANTS;
      assert FindParticipant(e.participants, a.actor) == |e.participants|;
      assert !Engaged(w, a.actor);
      assert ParticipantOk(w.actors, p);
      hide ApplyJoin;
      hide FirstIndex;
      hide Admit;
      hide Initiative;
      hide JoinSide;
      hide ParticipantOk;
      assert Stands(w.actors, a.actor, e.location);
      hide Stands;
      hide Playable;
      assert EncounterOk(w.actors, e);
      AdmittedEncounterIsOk(w, e, p);
      AdmissionAddsOne(e, p);
      hide EncounterOk;
      hide Engages;
      hide Engaged;
      hide DistinctActors;
      AdmittingIsSafe(w, k, Admit(e, p), a.actor);
    }
  }

  lemma CombatRuleIsSafe(w: World, c: Call)
    requires IsCombatRule(c.action.kind) && CombatOk(w)
    ensures var r := ApplyCombatRule(w, c).world;
            CombatOk(r) && (NeverStuck(w) ==> NeverStuck(r))
  {
    hide CombatOk;
    hide NeverStuck;
    var a := c.action;
    match a.kind
    case CombatStart => StartIsSafe(w, a, c.seed);
    case CombatJoin => JoinIsSafe(w, a, c.seed);
    case CombatAttack => CombatAttackIsSafe(w, a, c.seed, false);
    case CombatFinesseAttack => CombatAttackIsSafe(w, a, c.seed, true);
    case CombatAbandon => AbandonIsSafe(w, a);
    case CombatEscape => EscapeIsSafe(w, a);
    case CombatDodge => WaitingIsSafe(w, a);
    case CombatPass => WaitingIsSafe(w, a);
    case CombatNeedTime => WaitingIsSafe(w, a);
  }

  // -------------------------------------------------------- the other rules

  lemma RescueKeepsAble(w: World, a: Action)
    ensures KeepsAble(w.actors, ApplyCompleteRescue(w, a).world.actors)
  {
    if RescueRefusal(w, a) == NoReason {
      RevivalEffect(w, a);
      assert GetActor(w, a.target).status == KnockedOut;
      hide RescueRefusal;
      forall i | 0 <= i < |w.actors| && w.actors[i].status == Active
        ensures RevivePair(w, a).actors[i].status == Active
      {}
    }
    hide RevivePair;
  }

  lemma ReplacementKeepsAble(w: World, a: Action, seed: Seed)
    ensures KeepsAble(w.actors, ApplyReplaceRescuer(w, a, seed).world.actors)
  {
    if ReplaceRefusal(w, a) == NoReason {
      assert GetActor(w, a.target).status == KnockedOut;
      assert KeepsAble(w.actors, ReplaceActors(w, a, seed).actors);
    }
    hide ReplaceActors;
    hide ReplaceRefusal;
  }

  lemma JourneysKeepAble(w: World, a: Action)
    ensures KeepsAble(w.actors, ApplyMove(w, a).world.actors)
    ensures KeepsAble(w.actors, ApplyFlee(w, a).world.actors)
    ensures KeepsAble(w.actors, ApplyDefend(w, a).world.actors)
  {
    hide MoveRefusal;
    hide AllowsCombat;
  }

  lemma ActorRuleKeepsAble(w: World, c: Call)
    requires IsActorRule(c.action.kind) && c.action.kind != Attack
    ensures KeepsAble(w.actors, ApplyActorRule(w, c).world.actors)
  {
    var a := c.action;
    match a.kind
    case CreateActor =>
    case CompleteAvatarRescue => RescueKeepsAble(w, a);
    case ReplaceAvatarRescuer => ReplacementKeepsAble(w, a, c.seed);
    case Move => JourneysKeepAble(w, a);
    case Flee => JourneysKeepAble(w, a);
    case Defend => JourneysKeepAble(w, a);
    case UnlockExit => UnlockEffect(w, a);
  }

  /** What a rule outside combat may do to actors: move the caller, if anyone. */
  lemma OrdinaryRuleEffect(w: World, c: Call)
    requires !IsCombatRule(c.action.kind)
    ensures var r := ApplyRule(w, c).world;
            && r.encounters == w.encounters && KeepsActors(w.actors, r.actors)
            && OnlyMoves(w.actors, r.actors,
                         if c.action.kind == Move || c.action.kind == Flee then FindActor(w.actors, c.action.actor)
                         else |w.actors|)
            && (c.action.kind != Attack ==> KeepsAble(w.actors, r.actors))
  {
    hide ApplyItemRule;
    hide ApplyActorRule;
    hide ApplyGateTransition;
    hide ApplyReport;
    if IsItemRule(c.action.kind) {
      ItemRuleEffect(w, c);
    } else if c.action.kind == GateTransition {
      GateTransitionEffect(w, c.action, c.seed);
    } else if IsActorRule(c.action.kind) {
      ActorRuleEffect(w, c);
      if c.action.kind != Attack {
        ActorRuleKeepsAble(w, c);
      }
      if c.action.kind == Move || c.action.kind == Flee {
        TravelEffect(w, c.action);
        assert ApplyActorRule(w, c) == (if c.action.kind == Move then ApplyMove(w, c.action) else ApplyFlee(w, c.action)) by {
          TravelIsAnActorRule(w, c);
        }
      }
    }
  }

  lemma TravelIsAnActorRule(w: World, c: Call)
    requires c.action.kind == Move || c.action.kind == Flee
    ensures ApplyActorRule(w, c) == (if c.action.kind == Move then ApplyMove(w, c.action) else ApplyFlee(w, c.action))
  {
    hide ApplyMove;
    hide ApplyFlee;
  }

  lemma RuleKeepsCombat(w: World, c: Call)
    requires CombatOk(w) && !BarredByCombat(w, c.action)
    ensures CombatOk(ApplyRule(w, c).world)
    ensures NeverStuck(w) && c.action.kind != Attack ==> NeverStuck(ApplyRule(w, c).world)
  {
    hide ApplyItemRule;
    hide ApplyCombatRule;
    hide ApplyActorRule;
    hide ApplyGateTransition;
    hide ApplyReport;
    if IsCombatRule(c.action.kind) {
      CombatRuleIsSafe(w, c);
    } else {
      var r := ApplyRule(w, c).world;
      OrdinaryRuleEffect(w, c);
      hide ApplyRule;
      var mover := if c.action.kind == Move || c.action.kind == Flee then FindActor(w.actors, c.action.actor) else |w.actors|;
      assert MoverIsFree(w, mover, |w.encounters|);
      ActorEditKeepsCombat(w, r, mover);
      hide CombatOk;
      if NeverStuck(w) && c.action.kind != Attack {
        forall e | Playable(w, e) ensures Playable(r, e) {
          PlayableStays(w, r, e);
        }
        hide Playable;
      }
    }
  }

  lemma SameTablesSameSafety(w: World, v: World)
    requires w.actors == v.actors && w.encounters == v.encounters
    ensures CombatOk(w) == CombatOk(v)
    ensures NeverStuck(w) == NeverStuck(v)
  {}

  /** The structure survives every call; that nobody is stuck survives every
      call but the unordered attack. */
  lemma StepKeepsCombat(w: World, c: Call)
    requires CombatOk(w)
    ensures CombatOk(Step(w, c).world)
    ensures NeverStuck(w) && c.action.kind != Attack ==> NeverStuck(Step(w, c).world)
  {
    hide ApplyRule;
    hide CombatOk;
    hide NeverStuck;
    if !NamesRecordedClaim(w.claims, c.action) && !BarredByCombat(w, c.action) {
      var v := Clocked(w, c);
      var o := ApplyRule(v, c);
      SameTablesSameSafety(w, v);
      assert !BarredByCombat(v, c.action);
      RuleKeepsCombat(v, c);
      SameTablesSameSafety(o.world, Step(w, c).world);
    }
  }

  // --------------------------------------------------- the outsider's attack

  /** The unordered attack knocks its target out. */
  predicate KnocksOut(w: World, c: Call) {
    && !BarredByCombat(w, c.action) && IsActive(w, c.action.actor) && AttackRefusal(w, c.action) == NoReason
    && ResolveAttack(w, c.action, c.seed).Hit? && ResolveAttack(w, c.action, c.seed).knocksOut
  }

  /** Nobody on the side can act, except perhaps `id`. */
  predicate OnlyAble(w: World, e: Encounter, side: nat, id: Id) {
    forall j :: 0 <= j < |e.participants| && e.participants[j].side == side && CanAct(w, e.participants[j]) ==>
      e.participants[j].actor == id
  }

  /** The encounter cannot go on without `id`: it holds the turn, or nobody else
      on one of the sides can act. */
  predicate Essential(w: World, e: Encounter, id: Id) {
    Engages(e, id) && (CurrentActor(e) == id || OnlyAble(w, e, 1, id) || OnlyAble(w, e, 2, id))
  }

  predicate Fells(w: World, c: Call) {
    KnocksOut(w, c) && exists i :: 0 <= i < |w.encounters| && Essential(w, w.encounters[i], c.action.target)
  }

  lemma KnockoutDisables(w: World, a: Action, seed: Seed, p: Participant)
    requires IsActive(w, a.actor) && AttackRefusal(w, a) == NoReason
    ensures var blow := ResolveAttack(w, a, seed);
            CanAct(ApplyAttack(w, a, seed).world, p)
            == (CanAct(w, p) && !(blow.Hit? && blow.knocksOut && p.actor == a.target))
  {
    hide ResolveAttack;
    hide FirstIndex;
  }

  /** An encounter survives the loss of one fighter unless it was essential. */
  lemma LosingOneFighter(w: World, r: World, e: Encounter, id: Id)
    requires ListOk(w.actors, e) && e.status == Ongoing && Playable(w, e)
    requires forall p :: CanAct(r, p) == (CanAct(w, p) && p.actor != id)
    ensures Playable(r, e) <==> !Essential(w, e, id)
  {
    hide CanAct;
    var current := e.participants[e.current];
    assert CanAct(w, current) ==> !current.escaped by { AbleIsUnescaped(w, current); }
    assert SideCanAct(r, e, 1) == !OnlyAble(w, e, 1, id);
    assert SideCanAct(r, e, 2) == !OnlyAble(w, e, 2, id);
    if !Engages(e, id) {
      forall j | 0 <= j < |e.participants| && CanAct(w, e.participants[j]) ensures e.participants[j].actor != id {
        AbleIsUnescaped(w, e.participants[j]);
        assert Fights(e.participants, e.participants[j].actor);
      }
    }
  }

  lemma AbleIsUnescaped(w: World, p: Participant)
    requires CanAct(w, p)
    ensures !p.escaped
  {}

  lemma AttackStuckIff(w: World, c: Call)
    requires c.action.kind == Attack && CombatOk(w) && NeverStuck(w) && !BarredByCombat(w, c.action)
    ensures NeverStuck(ApplyAttack(w, c.action, c.seed).world) <==> !Fells(w, c)
  {
    var a, r := c.action, ApplyAttack(w, c.action, c.seed).world;
    AttackEffect(w, a, c.seed);
    if IsActive(w, a.actor) && AttackRefusal(w, a) == NoReason {
      forall p ensures CanAct(r, p) == (CanAct(w, p) && !(KnocksOut(w, c) && p.actor == a.target)) {
        KnockoutDisables(w, a, c.seed, p);
      }
      hide ApplyAttack;
      hide CanAct;
      if KnocksOut(w, c) {
        hide KnocksOut;
        forall i | 0 <= i < |w.encounters| && w.encounters[i].status == Ongoing
          ensures Playable(r, w.encounters[i]) <==> !Essential(w, w.encounters[i], a.target)
        {
          assert EncounterOk(w.actors, w.encounters[i]);
          LosingOneFighter(w, r, w.encounters[i], a.target);
        }
        assert forall i :: 0 <= i < |w.encounters| && Essential(w, w.encounters[i], a.target) ==>
                 w.encounters[i].status == Ongoing;
        hide Playable;
        hide Essential;
        hide EncounterOk;
      }
    }
  }

  lemma TickDoesNotMatter(w: World, v: World, c: Call)
    requires v == w.(tick := v.tick)
    ensures Fells(w, c) == Fells(v, c) && BarredByCombat(w, c.action) == BarredByCombat(v, c.action)
  {
    hide RollD20;
    hide RollDie;
    assert KnocksOut(w, c) == KnocksOut(v, c);
    hide KnocksOut;
    forall i | 0 <= i < |w.encounters|
      ensures Essential(w, w.encounters[i], c.action.target) == Essential(v, v.encounters[i], c.action.target)
    {
      forall p ensures CanAct(w, p) == CanAct(v, p) {}
    }
    hide Essential;
  }

  lemma AttackStep(w: World, c: Call)
    requires c.action.kind == Attack && !BarredByCombat(w, c.action)
    ensures var r, s := ApplyAttack(Clocked(w, c), c.action, c.seed).world, Step(w, c).world;
            r.actors == s.actors && r.encounters == s.encounters
  {
    hide Step;
    hide ApplyAttack;
    hide BarredByCombat;
    hide ApplyItemRule;
    hide ApplyCombatRule;
    hide ApplyGateTransition;
    hide ApplyReport;
    StepIsTheRule(w, c);
  }

  /** From a world where no encounter is stuck, a call leaves one stuck exactly
      when it is an unordered attack that fells an essential fighter. */
  lemma StuckExactlyWhenFelled(w: World, c: Call)
    requires CombatOk(w) && NeverStuck(w)
    ensures NeverStuck(Step(w, c).world) <==> !(c.action.kind == Attack && Fells(w, c))
  {
    hide CombatOk;
    hide NeverStuck;
    hide ApplyRule;
    hide ApplyAttack;
    hide Essential;
    if c.action.kind != Attack {
      StepKeepsCombat(w, c);
    } else if BarredByCombat(w, c.action) {
      assert Step(w, c).world == w;
    } else {
      hide Fells;
      var v := Clocked(w, c);
      TickDoesNotMatter(w, v, c);
      SameTablesSameSafety(w, v);
      AttackStuckIff(v, c);
      AttackStep(w, c);
      hide Step;
      SameTablesSameSafety(ApplyAttack(v, c.action, c.seed).world, Step(w, c).world);
    }
  }

  // ------------------------------------------------------------ whole runs

  /** No call of the run, where it stands, fells an essential fighter. */
  predicate Peaceful(k: Kernel, calls: seq<Call>)
    decreases |calls|
  {
    calls == [] || (!(calls[0].action.kind == Attack && Fells(k.world, calls[0]))
                    && Peaceful(Advance(k, calls[0]), calls[1..]))
  }

  lemma {:induction false} RunKeepsCombat(k: Kernel, calls: seq<Call>)
    requires CombatOk(k.world)
    ensures CombatOk(Run(k, calls).world)
    decreases |calls|
  {
    hide Step;
    hide CombatOk;
    if calls != [] {
      StepKeepsCombat(k.world, calls[0]);
      RunKeepsCombat(Advance(k, calls[0]), calls[1..]);
    }
  }

  /** Over any run without such an attack, no encounter is ever stuck. */
  lemma {:induction false} PeacefulRunIsNeverStuck(k: Kernel, calls: seq<Call>, n: nat)
    requires CombatOk(k.world) && NeverStuck(k.world) && Peaceful(k, calls) && n <= |calls|
    ensures CombatOk(Run(k, calls[..n]).world) && NeverStuck(Run(k, calls[..n]).world)
    decreases |calls|
  {
    hide Step;
    hide CombatOk;
    hide NeverStuck;
    hide Fells;
    if n != 0 {
      StepKeepsCombat(k.world, calls[0]);
      StuckExactlyWhenFelled(k.world, calls[0]);
      PeacefulRunIsNeverStuck(Advance(k, calls[0]), calls[1..], n - 1);
      assert calls[..n][0] == calls[0] && calls[..n][1..] == calls[1..][..n - 1];
    }
  }

  /** An attack on somebody who fights nowhere never fells. */
  lemma BystandersAreNotEssential(w: World, c: Call)
    requires !Engaged(w, c.action.target)
    ensures !Fells(w, c)
  {
    hide KnocksOut;
  }

  // --------------------------------------------------- passing and abandoning

  predicate TakesTurn(kind: ActionKind) {
    || kind == CombatAttack || kind == CombatFinesseAttack || kind == CombatDodge
    || kind == CombatEscape || kind == CombatPass || kind == CombatNeedTime
  }

  lemma TurnRulesNeedTheTurn(w: World, c: Call)
    requires TakesTurn(c.action.kind) && !HoldsTurn(w, c.action)
    ensures ApplyCombatRule(w, c).status != Success
  {
    hide HoldsTurn;
    hide TurnRefusal;
  }

  lemma TurnHolderIsAble(w: World, a: Action)
    requires HoldsTurn(w, a) && CombatOk(w)
    ensures var k := ReferredEncounter(w, a);
            k < |w.encounters| && w.encounters[k].current < |w.encounters[k].participants|
            && CanAct(w, w.encounters[k].participants[w.encounters[k].current])
  {
    var k := ReferredEncounter(w, a);
    assert EncounterOk(w.actors, w.encounters[k]);
  }

  lemma HolderMayPass(w: World, k: nat, a: Action)
    requires CombatOk(w) && k < |w.encounters| && w.encounters[k].status == Ongoing
    requires a.actor == CurrentActor(w.encounters[k]) && ReferredEncounter(w, a) == k
    ensures HoldsTurn(w, a) <==> CanAct(w, w.encounters[k].participants[w.encounters[k].current])
  {
    var e := w.encounters[k];
    assert EncounterOk(w.actors, e);
    hide ReferredEncounter;
    assert FindParticipant(e.participants, a.actor) == e.current;
  }

  /** An action refers to an encounter by its identifier, or, with none, when its
      actor stands in that encounter unescaped. */
  lemma ReferringToAnEncounter(w: World, k: nat, a: Action)
    requires CombatOk(w) && k < |w.encounters| && w.encounters[k].status == Ongoing
    ensures a.content != 0 ==> (ReferredEncounter(w, a) == k <==> a.content == w.encounters[k].id)
    ensures a.content == 0 ==> (ReferredEncounter(w, a) == k <==> Engages(w.encounters[k], a.actor))
  {
    if a.content == w.encounters[k].id {
      var f := FindEncounter(w.encounters, a.content);
      assert f == k;
    }
    if a.content == 0 && Engages(w.encounters[k], a.actor) {
      var f := FindEngagement(w.encounters, a.actor);
      assert f <= k && Engages(w.encounters[f], a.actor);
    }
  }

  lemma CombatRuleStatus(w: World, c: Call)
    requires TakesTurn(c.action.kind) || c.action.kind == CombatAbandon
    ensures Step(w, c).status == ApplyCombatRule(Clocked(w, c), c).status
  {
    hide Step;
    hide ApplyCombatRule;
    hide Engaged;
    hide ApplyItemRule;
    StepIsTheRule(w, c);
  }

  /** The holder of the turn can pass exactly when it can act: always, while the
      encounter is not stuck. */
  lemma PassSucceedsIff(w: World, k: nat, c: Call)
    requires CombatOk(w) && k < |w.encounters| && w.encounters[k].status == Ongoing
    requires c.action.kind == CombatPass && c.action.actor == CurrentActor(w.encounters[k])
    requires ReferredEncounter(w, c.action) == k
    ensures Step(w, c).status == Success <==> CanAct(w, w.encounters[k].participants[w.encounters[k].current])
    ensures NeverStuck(w) ==> Step(w, c).status == Success
  {
    hide Step;
    hide ApplyCombatRule;
    hide HoldsTurn;
    var v := Clocked(w, c);
    SameTablesSameSafety(w, v);
    HolderMayPass(v, k, c.action);
    assert EncounterOk(w.actors, w.encounters[k]);
    assert CanAct(v, w.encounters[k].participants[w.encounters[k].current])
        == CanAct(w, w.encounters[k].participants[w.encounters[k].current]);
    assert NeverStuck(w) ==> Playable(w, w.encounters[k]);
    hide CanAct;
    CombatRuleStatus(w, c);
    PassingNeedsOnlyTheTurn(v, c);
  }

  lemma PassingNeedsOnlyTheTurn(w: World, c: Call)
    requires c.action.kind == CombatPass
    ensures ApplyCombatRule(w, c).status == Success <==> HoldsTurn(w, c.action)
  {
    hide HoldsTurn;
    hide TurnRefusal;
    hide FinishTurn;
  }

  lemma StuckTurnIsNobodys(w: World, k: nat, a: Action)
    requires CombatOk(w) && k < |w.encounters| && ReferredEncounter(w, a) == k
    requires w.encounters[k].current < |w.encounters[k].participants|
    requires !CanAct(w, w.encounters[k].participants[w.encounters[k].current])
    ensures !HoldsTurn(w, a)
  {
    if HoldsTurn(w, a) {
      TurnHolderIsAble(w, a);
      assert false;
    }
  }

  /** When the holder of the turn cannot act, every call that takes a turn in
      that encounter is refused: nothing in turn order can free it. */
  lemma StuckTurnIsRefused(w: World, k: nat, c: Call)
    requires CombatOk(w) && k < |w.encounters| && w.encounters[k].status == Ongoing
    requires TakesTurn(c.action.kind) && ReferredEncounter(w, c.action) == k
    requires w.encounters[k].current < |w.encounters[k].participants|
    requires !CanAct(w, w.encounters[k].participants[w.encounters[k].current])
    ensures Step(w, c).status != Success
  {
    hide Step;
    hide ApplyCombatRule;
    hide HoldsTurn;
    var v := Clocked(w, c);
    SameTablesSameSafety(w, v);
    hide CombatOk;
    StuckTurnIsNobodys(v, k, c.action);
    TurnRulesNeedTheTurn(v, c);
    CombatRuleStatus(w, c);
  }

  lemma AbandoningResolves(w: World, a: Action)
    requires a.content != 0 && FindEncounter(w.encounters, a.content) < |w.encounters|
    requires var e := w.encounters[FindEncounter(w.encounters, a.content)];
             e.status == Ongoing && FindParticipant(e.participants, a.actor) < |e.participants|
    ensures var k, o := FindEncounter(w.encounters, a.content), ApplyAbandon(w, a);
            && o.status == Success
            && o.world.encounters == w.encounters[k := w.encounters[k].(status := Resolved)]
  {
    StopAllDodgingEffect(w, w.encounters[FindEncounter(w.encounters, a.content)].participants, 0);
    hide StopAllDodging;
  }

  lemma AbandonStep(w: World, c: Call)
    requires c.action.kind == CombatAbandon
    ensures var o, s := ApplyAbandon(Clocked(w, c), c.action), Step(w, c);
            o.status == s.status && o.world.encounters == s.world.encounters
  {
    hide Step;
    hide ApplyAbandon;
    hide Engaged;
    hide ApplyItemRule;
    StepIsTheRule(w, c);
  }

  /** Abandoning is the way out: any participant's call resolves the encounter
      in one step, stuck or not, whoever holds the turn. */
  lemma AbandonResolves(w: World, k: nat, c: Call)
    requires k < |w.encounters| && w.encounters[k].status == Ongoing
    requires c.action.kind == CombatAbandon && c.action.content != 0
    requires FindEncounter(w.encounters, c.action.content) == k
    requires FindParticipant(w.encounters[k].participants, c.action.actor) < |w.encounters[k].participants|
    ensures var o := Step(w, c);
            && o.status == Success
            && o.world.encounters == w.encounters[k := w.encounters[k].(status := Resolved)]
  {
    hide Step;
    hide ApplyAbandon;
    AbandonStep(w, c);
    AbandoningResolves(Clocked(w, c), c.action);
  }

  // ------------------------------------------------- the guarantee's one gap

  function Duellist(id: Id, hp: int): Actor {
    Actor(id, Human, Active, 7, Stats(10, 10, 10, 10, 10, 10, hp, 1), 0, NO_CONDITIONS)
  }

  /** Actors 1 and 2 are fighting, 1 holds the turn, and 3 looks on. */
  function Duel(): World {
    World(0, [Duellist(1, 5), Duellist(2, 5), Duellist(3, 5)], [], [Location(7, true)], [], [],
          [Encounter(40, 7, Ongoing, 0, 1, [Participant(1, 1, false, 9), Participant(2, 2, false, 4)])],
          0, [], [], [], [], [])
  }

  function Onslaught(): Call {
    Call(PlainAction(Attack, 3).(target := 1), Seed((salt: nat, second: bool) => 19, (id: Id, n: nat) => 0), true, true)
  }

  lemma DuelIsSound()
    ensures CombatOk(Duel()) && NeverStuck(Duel())
  {
    var w := Duel();
    var e := w.encounters[0];
    assert w.actors[0].id == 1 && w.actors[1].id == 2;
    assert e.participants[0].side == 1 && e.participants[1].side == 2;
    assert CanAct(w, e.participants[0]) && CanAct(w, e.participants[1]);
  }

  lemma DuelPeople()
    ensures var w := Duel();
            && Known(w, 3) && Known(w, 1) && GetActor(w, 3) == Duellist(3, 5) && GetActor(w, 1) == Duellist(1, 5)
            && AllowsCombat(w, 7) && !Engaged(w, 3)
  {
    var w := Duel();
    assert w.actors[0].id == 1 && w.actors[1].id == 2 && w.actors[2].id == 3;
    assert w.locations[0].id == 7;
  }

  lemma OnlookerKnocksOut()
    ensures KnocksOut(Duel(), Onslaught())
  {
    var w, c := Duel(), Onslaught();
    DuelPeople();
    hide Duel, FindActor, FindLocation, Engages;
    assert AttackRefusal(w, c.action) == NoReason;
    assert RollD20(c.seed, 1, 0) == 20;
    assert ResolveAttack(w, c.action, c.seed) == Hit(8, true);
  }

  lemma OnlookerFells()
    ensures Fells(Duel(), Onslaught())
  {
    OnlookerKnocksOut();
    hide KnocksOut;
    var w := Duel();
    assert w.encounters[0].participants[0].actor == 1;
    hide CanAct;
    assert Essential(w, w.encounters[0], 1);
  }

  /** One attack by an onlooker strands a sound encounter. */
  lemma OnlookerStrandsDuel()
    ensures CombatOk(Duel()) && NeverStuck(Duel())
    ensures !NeverStuck(Step(Duel(), Onslaught()).world)
  {
    hide Step;
    DuelIsSound();
    OnlookerFells();
    hide CombatOk;
    hide NeverStuck;
    hide Fells;
    StuckExactlyWhenFelled(Duel(), Onslaught());
  }
}
