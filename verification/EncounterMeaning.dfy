/**
  How encounters open, grow, lose a fighter and close, how a fighter dodges and
  waits, and the attack outside turn order, told without the rules' own helpers.
 */
module EncounterMeaning {
  import opened KernelTypes
  import opened Lookup
  import opened GateRules
  import opened CombatRules
  import opened ActorRules
  import opened CombatLaws
  import opened Travel
  import opened CombatMeaning

  // ------------------------------------------------------- the unordered attack

  /** Both stand active at one place where fighting is allowed. */
  predicate FaceToFace(w: World, a: Action) {
    var x, y := FindActor(w.actors, a.actor), FindActor(w.actors, a.target);
    && ActiveActor(w, a.actor) && ActiveActor(w, a.target) && w.actors[x].location == w.actors[y].location
    && FightingAllowed(w, w.actors[x].location)
  }

  predicate FightingAllowed(w: World, location: Id) {
    var l := FindLocation(w.locations, location);
    l < |w.locations| && w.locations[l].allowCombat
  }

  /** A twenty lands and a one does not; else die and strength must reach ten, the
      target's dexterity modifier and two more while it defends. */
  predicate LandsOutside(attacker: Actor, target: Actor, a: Action, seed: Seed) {
    var die := RollD20(seed, 1, a.rollMode);
    || die == 20
    || (die != 1 && ToI16(10 + AbilityModifier(target.stats.dexterity)) + (if target.conditions.defending then 2 else 0)
                    <= ToI16(die + AbilityModifier(attacker.stats.strength)))
  }

  /** An eight-sided die, twice on a twenty, and strength, but at least one. */
  function HarmOutside(attacker: Actor, a: Action, seed: Seed): int {
    var dice := RollDie(seed, 2, 8) + if RollD20(seed, 1, a.rollMode) == 20 then RollDie(seed, 3, 8) else 0;
    var harm := ToI16(dice + AbilityModifier(attacker.stats.strength));
    if harm < 1 then 1 else harm
  }

  /** What the unordered attack does to everybody, and tells. */
  predicate StruckOutside(w: World, r: World, a: Action, seed: Seed, events: seq<EventKind>) {
    var x, y := FindActor(w.actors, a.actor), FindActor(w.actors, a.target);
    && x < |w.actors| && y < |w.actors| && |r.actors| == |w.actors|
    && (forall i :: 0 <= i < |w.actors| && i != y ==> r.actors[i] == w.actors[i])
    && !r.actors[y].conditions.defending && r.actors[y].location == w.actors[y].location
    && var lands, harm := LandsOutside(w.actors[x], w.actors[y], a, seed), HarmOutside(w.actors[x], a, seed);
       && (lands ==> Wounded(w.actors[y], r.actors[y], harm))
       && (!lands ==> Unharmed(w.actors[y], r.actors[y]))
       && events == if !lands then [AttackAttempt, AttackMiss]
                    else if harm >= HitPointsLeft(w.actors[y]) then [AttackAttempt, AttackHit, KnockedOutEvent]
                    else [AttackAttempt, AttackHit]
  }

  /** Main result: when the unordered attack is accepted, and what it does. */
  lemma OutsideAttackMeans(w: World, a: Action, seed: Seed)
    ensures var o := ApplyAttack(w, a, seed);
            && (o.status == Success <==> a.rollMode <= 2 && a.actor != a.target && FaceToFace(w, a))
            && (o.status == Success ==> StruckOutside(w, o.world, a, seed, o.events) && o.world == w.(actors := o.world.actors))
  {
    if a.rollMode <= 2 && a.actor != a.target && FaceToFace(w, a) {
      OutsideBlowMeans(w, a, seed);
      StrikeMeans(w, a.target, ResolveAttack(w, a, seed));
    }
    hide ResolveAttack, Strike, LandsOutside, HarmOutside, HitPointsLeft, ToI16, FirstIndex;
  }

  lemma OutsideBlowMeans(w: World, a: Action, seed: Seed)
    requires FaceToFace(w, a) && Known(w, a.actor) && Known(w, a.target)
    ensures var blow := ResolveAttack(w, a, seed);
            var x, y := w.actors[FindActor(w.actors, a.actor)], w.actors[FindActor(w.actors, a.target)];
            && (blow.Hit? <==> LandsOutside(x, y, a, seed))
            && (blow.Hit? ==> blow.damage == HarmOutside(x, a, seed) && blow.damage > 0
                              && (blow.knocksOut <==> blow.damage >= HitPointsLeft(y)))
  {
    hide ToI16, RollD20, RollDie, AbilityModifier, FirstIndex;
  }

  /** Defending is accepted of any active actor, and raises its guard. */
  lemma DefendMeans(w: World, a: Action)
    ensures var o, i := ApplyDefend(w, a), FindActor(w.actors, a.actor);
            && (o.status == Success <==> ActiveActor(w, a.actor))
            && (o.status == Success ==>
                  && o.world == w.(actors := w.actors[i := w.actors[i].(conditions := w.actors[i].conditions.(defending := true))])
                  && o.events == [CombatDefended])
  {
    hide FirstIndex;
  }

  // ---------------------------------------------------------- turns in a fight

  /** The world once the actor has begun to dodge. */
  function Dodging(w: World, id: Id): World
    requires ActiveActor(w, id)
  {
    var i := FindActor(w.actors, id);
    w.(actors := w.actors[i := w.actors[i].(conditions := w.actors[i].conditions.(dodging := true))])
  }

  /** Dodging, passing and asking for time need the turn and nothing else; the first
      two end it. */
  lemma WaitingMeans(w: World, a: Action, k: nat)
    requires MayTakeTurn(w, a, k)
    ensures ActiveActor(w, a.actor)
    ensures ApplyNeedTime(w, a) == Outcome(Success, w, [NeededTime])
    ensures var t := FinishTurn(w, k); ApplyPass(w, a) == Outcome(Success, t.world, [Passed] + t.events)
    ensures var t := FinishTurn(Dodging(w, a.actor), k); ApplyDodge(w, a) == Outcome(Success, t.world, [Dodged] + t.events)
  {
    TurnMeans(w, a);
    assert HoldsTurn(w, a) && k == ReferredEncounter(w, a);
    hide HoldsTurn, FinishTurn, ReferredEncounter, FirstIndex;
  }

  lemma WaitingNeedsTheTurn(w: World, a: Action)
    requires forall k :: !MayTakeTurn(w, a, k)
    ensures ApplyNeedTime(w, a).status != Success && ApplyPass(w, a).status != Success && ApplyDodge(w, a).status != Success
  {
    TurnMeans(w, a);
    hide HoldsTurn, TurnRefusal;
  }

  /** Whether a side has somebody able to act left. */
  predicate SideFights(w: World, e: Encounter, side: nat) {
    exists j: nat :: j < |e.participants| && AbleAt(w, e, j) && e.participants[j].side == side
  }

  lemma SidesMean(w: World, e: Encounter)
    ensures forall side: nat :: SideCanAct(w, e, side) <==> SideFights(w, e, side)
  {
    forall j: nat | j < |e.participants| ensures CanAct(w, e.participants[j]) <==> AbleAt(w, e, j) {}
    hide CanAct, AbleAt;
  }

  /** The seat comes after this one and before that one, around the table. */
  predicate Between(from: nat, to: nat, j: nat) {
    if from < to then from < j < to else j > from || j < to
  }

  /** The turn goes to the next able seat around the table, and the round rises when
      that is no later in the list. */
  predicate Passes(w: World, e: Encounter, next: Encounter) {
    && next == e.(current := next.current, round := next.round)
    && AbleAt(w, e, next.current)
    && (forall j: nat :: j < |e.participants| && Between(e.current, next.current, j) ==> !AbleAt(w, e, j))
    && next.round == if next.current > e.current || e.round >= 0xFFFF then e.round else e.round + 1
  }

  lemma NextTurnMeans(w: World, e: Encounter)
    requires e.current < |e.participants| && SideCanAct(w, e, 1)
    ensures NextStep(w, e, 1) <= |e.participants| && Passes(w, e, AdvanceTurn(w, e))
  {
    AbleSeatIsFound(w, e);
    forall j: nat | j < |e.participants| ensures CanAct(w, e.participants[j]) <==> AbleAt(w, e, j) {}
    var n, s, next := |e.participants|, NextStep(w, e, 1), AdvanceTurn(w, e);
    hide CanAct, AbleAt;
    forall j: nat | j < n && Between(e.current, next.current, j) ensures !AbleAt(w, e, j) {
      var t := if j > e.current then j - e.current else j - e.current + n;
      assert 1 <= t < s && Seat(e, t) == j;
    }
  }

  /** The end of a turn: the encounter is over if a side has nobody able left; else
      the turn passes, and whoever has it stops dodging. */
  lemma EndingMeans(w: World, k: nat)
    requires k < |w.encounters| && w.encounters[k].current < |w.encounters[k].participants|
    ensures var e, t := w.encounters[k], FinishTurn(w, k);
            if SideFights(w, e, 1) && SideFights(w, e, 2) then
              && |t.world.encounters| == |w.encounters|
              && t.world == w.(actors := t.world.actors, encounters := w.encounters[k := t.world.encounters[k]])
              && Passes(w, e, t.world.encounters[k]) && t.events == [TurnEnded, TurnStarted]
              && t.world.encounters[k].current < |e.participants|
              && StoppedDodging(w.actors, t.world.actors, e.participants[t.world.encounters[k].current].actor)
            else
              t.world == w.(encounters := w.encounters[k := e.(status := Resolved)]) && t.events == [TurnEnded, EncounterResolved]
  {
    var e := w.encounters[k];
    SidesMean(w, e);
    hide SideFights, SideCanAct, FirstIndex;
    if SideCanAct(w, e, 1) && SideCanAct(w, e, 2) {
      NextTurnMeans(w, e);
      var next := AdvanceTurn(w, e);
      PassingIsToSomebody(w, e, next);
      StopDodgingMeans(w.(encounters := w.encounters[k := next]), CurrentActor(next));
      hide AdvanceTurn, Passes, StopDodging, StoppedDodging, NextStep;
    }
  }

  lemma PassingIsToSomebody(w: World, e: Encounter, next: Encounter)
    requires Passes(w, e, next)
    ensures next.current < |e.participants| && next.participants == e.participants
    ensures CurrentActor(next) == e.participants[next.current].actor
  {}

  // ------------------------------------------------- opening and joining a fight

  predicate InNoFight(w: World, id: Id) {
    forall k :: 0 <= k < |w.encounters| ==> !Unescaped(w.encounters[k], id)
  }

  lemma EngagedMeans(w: World, id: Id)
    ensures Engaged(w, id) <==> !InNoFight(w, id)
  {
    forall e: Encounter ensures Engages(e, id) <==> Unescaped(e, id) {}
    hide Engages, Unescaped, FirstIndex;
    if Engaged(w, id) {
      assert Unescaped(w.encounters[FindEngagement(w.encounters, id)], id);
    }
  }

  /** The slot a new encounter takes: that of its own name, else the first resolved
      one, else a new one while there is room. */
  predicate IsSlot(encounters: seq<Encounter>, id: Id, k: nat) {
    var own := FindEncounter(encounters, id);
    if own < |encounters| then k == own && encounters[k].status != Ongoing
    else if exists j :: 0 <= j < |encounters| && encounters[j].status == Resolved
    then k < |encounters| && encounters[k].status == Resolved && forall j :: 0 <= j < k ==> encounters[j].status != Resolved
    else k == |encounters| < 32
  }

  predicate MayStart(w: World, a: Action, k: nat) {
    a.content != 0 && a.actor != a.target && FaceToFace(w, a) && InNoFight(w, a.actor) && InNoFight(w, a.target)
    && IsSlot(w.encounters, a.content, k)
  }

  /** An initiative: a die, by its own salt, and the dexterity modifier. */
  function InitiativeOf(actor: Actor, seed: Seed, salt: nat): int {
    ToI16(RollD20(seed, salt, 0) + AbilityModifier(actor.stats.dexterity))
  }

  /** The new encounter: the challenger on side one, the challenged on side two, the
      higher initiative first and the lower identifier on a tie. */
  predicate Opened(w: World, e: Encounter, a: Action, seed: Seed)
    requires ActiveActor(w, a.actor) && ActiveActor(w, a.target)
  {
    var x, y := w.actors[FindActor(w.actors, a.actor)], w.actors[FindActor(w.actors, a.target)];
    var p := Participant(a.actor, 1, false, InitiativeOf(x, seed, 101));
    var q := Participant(a.target, 2, false, InitiativeOf(y, seed, 102));
    && e == Encounter(a.content, x.location, Ongoing, 0, 1, e.participants)
    && e.participants == if q.initiative > p.initiative || (q.initiative == p.initiative && q.actor < p.actor)
                         then [q, p] else [p, q]
  }

  /** Everybody as before, except that one actor does not dodge. */
  predicate StoppedDodging(before: seq<Actor>, after: seq<Actor>, id: Id) {
    && |after| == |before|
    && forall i :: 0 <= i < |before| ==>
         after[i] == if i == FindActor(before, id)
                     then before[i].(conditions := before[i].conditions.(dodging := false)) else before[i]
  }

  lemma SortedPair(p: Participant, q: Participant)
    ensures SortByInitiative([p, q])
         == if q.initiative > p.initiative || (q.initiative == p.initiative && q.actor < p.actor) then [q, p] else [p, q]
  {
    assert [p, q][..1] == [p] && [p][..0] == [];
    assert SortByInitiative([p]) == InsertByInitiative([], p) == [p];
    assert SortByInitiative([p, q]) == InsertByInitiative([p], q);
    assert InsertByInitiative([], q) + [p] == [q, p];
  }

  lemma RefusingToStart(w: World, a: Action)
    requires IsActive(w, a.actor)
    ensures StartRefusal(w, a) == NoReason <==>
              a.actor != a.target && FaceToFace(w, a) && InNoFight(w, a.actor) && InNoFight(w, a.target)
  {
    EngagedMeans(w, a.actor);
    EngagedMeans(w, a.target);
    hide Engaged, InNoFight, FirstIndex;
  }

  lemma SlotMeans(encounters: seq<Encounter>, id: Id)
    ensures var own, k := FindEncounter(encounters, id), StartSlot(encounters, id);
            (!(own < |encounters| && encounters[own].status == Ongoing) && !(k == |encounters| && k >= MAX_ENCOUNTERS))
            <==> IsSlot(encounters, id, k)
    ensures forall k :: IsSlot(encounters, id, k) ==> k == StartSlot(encounters, id)
  {
    hide FirstIndex;
  }

  lemma StopDodgingMeans(w: World, id: Id)
    ensures var r := StopDodging(w, id); r == w.(actors := r.actors) && StoppedDodging(w.actors, r.actors, id)
  {
    hide FirstIndex;
  }

  /** Main result: when a fight can be started, */
  lemma StartingIff(w: World, a: Action, seed: Seed)
    ensures ApplyStart(w, a, seed).status == Success <==> exists k: nat :: MayStart(w, a, k)
  {
    SlotMeans(w.encounters, a.content);
    if IsActive(w, a.actor) {
      RefusingToStart(w, a);
      if ApplyStart(w, a, seed).status == Success {
        assert MayStart(w, a, StartSlot(w.encounters, a.content));
      }
    }
    hide StartRefusal, OpenEncounter, StopDodging, InNoFight, IsSlot, StartSlot, FirstIndex;
  }

  /** And what the world then looks like. */
  lemma StartingMeans(w: World, a: Action, seed: Seed, k: nat)
    requires MayStart(w, a, k)
    ensures var o := ApplyStart(w, a, seed);
            var n, r := |w.encounters|, o.world;
            && k <= n && |r.encounters| == (if k == n then n + 1 else n)
            && (forall j :: 0 <= j < n && j != k ==> r.encounters[j] == w.encounters[j])
            && Opened(w, r.encounters[k], a, seed)
            && r == w.(encounters := r.encounters, actors := r.actors)
            && StoppedDodging(w.actors, r.actors, r.encounters[k].participants[0].actor)
            && o.events == [EncounterStarted, InitiativeRolled, InitiativeRolled, TurnStarted]
  {
    SlotMeans(w.encounters, a.content);
    RefusingToStart(w, a);
    StartedLooks(w, a, seed);
    hide StartRefusal, OpenEncounter, StopDodging, InNoFight, IsSlot, Opened, StoppedDodging, StartSlot, FirstIndex;
  }

  lemma StartedLooks(w: World, a: Action, seed: Seed)
    requires FaceToFace(w, a) && Known(w, a.actor) && Known(w, a.target)
    ensures var e, k := OpenEncounter(w, a, seed), StartSlot(w.encounters, a.content);
            var v := w.(encounters := PlaceEncounter(w.encounters, k, e));
            var r := StopDodging(v, CurrentActor(e));
            && r == v.(actors := r.actors) && Opened(w, e, a, seed) && CurrentActor(e) == e.participants[0].actor
            && StoppedDodging(w.actors, r.actors, e.participants[0].actor)
  {
    var x, y := GetActor(w, a.actor), GetActor(w, a.target);
    SortedPair(Participant(a.actor, 1, false, Initiative(x, seed, 101)), Participant(a.target, 2, false, Initiative(y, seed, 102)));
    var e, k := OpenEncounter(w, a, seed), StartSlot(w.encounters, a.content);
    StopDodgingMeans(w.(encounters := PlaceEncounter(w.encounters, k, e)), CurrentActor(e));
    hide SortByInitiative, StopDodging, StoppedDodging, RollD20, AbilityModifier, ToI16, FirstIndex;
  }

  /** The action names an active encounter, the first of its name. */
  predicate NamesFight(w: World, a: Action) {
    var k := FindEncounter(w.encounters, a.content);
    a.content != 0 && k < |w.encounters| && w.encounters[k].status == Ongoing
  }

  predicate Listed(e: Encounter, id: Id) {
    exists j :: 0 <= j < |e.participants| && e.participants[j].actor == id
  }

  /** Joining needs an active actor where the fight is; somebody new must fight
      nowhere else, and there must be room. */
  predicate MayJoin(w: World, a: Action) {
    && NamesFight(w, a) && ActiveActor(w, a.actor)
    && var e := w.encounters[FindEncounter(w.encounters, a.content)];
       w.actors[FindActor(w.actors, a.actor)].location == e.location
       && (Listed(e, a.actor) || (InNoFight(w, a.actor) && |e.participants| < 16))
  }

  /** The newcomer: on the side asked for, else humans on side one and others on
      side two. */
  function Newcomer(w: World, a: Action, seed: Seed): Participant
    requires ActiveActor(w, a.actor)
  {
    var x := w.actors[FindActor(w.actors, a.actor)];
    Participant(a.actor, if a.modifier == 1 then 1 else if a.modifier == 2 then 2 else if x.kind == Human then 1 else 2,
                false, InitiativeOf(x, seed, 103))
  }

  lemma ListedMeans(e: Encounter, id: Id)
    ensures Listed(e, id) <==> FindParticipant(e.participants, id) < |e.participants|
  {
    hide FirstIndex;
  }

  /** Main result: who may join, */
  lemma JoiningIff(w: World, a: Action, seed: Seed)
    ensures ApplyJoin(w, a, seed).status == Success <==> MayJoin(w, a)
  {
    EngagedMeans(w, a.actor);
    if NamesFight(w, a) {
      ListedMeans(w.encounters[FindEncounter(w.encounters, a.content)], a.actor);
    }
    hide Engaged, InNoFight, Listed, Admit, Initiative, JoinSide, FirstIndex;
  }

  lemma NewcomerIs(w: World, a: Action, seed: Seed)
    requires ActiveActor(w, a.actor) && Known(w, a.actor)
    ensures Participant(a.actor, JoinSide(GetActor(w, a.actor), a), false, Initiative(GetActor(w, a.actor), seed, 103))
         == Newcomer(w, a, seed)
  {
    hide RollD20, AbilityModifier, ToI16, FirstIndex;
  }

  /** And that a newcomer is added in initiative order while the turn stays with its
      holder; somebody listed already changes nothing. */
  lemma JoiningMeans(w: World, a: Action, seed: Seed)
    requires MayJoin(w, a)
    ensures var o, k := ApplyJoin(w, a, seed), FindEncounter(w.encounters, a.content);
            var e := w.encounters[k];
            if Listed(e, a.actor) then o.world == w && o.events == []
            else
              && |o.world.encounters| == |w.encounters|
              && o.world == w.(encounters := w.encounters[k := o.world.encounters[k]])
              && o.events == [ParticipantJoined, InitiativeRolled]
              && Joined(e, o.world.encounters[k], Newcomer(w, a, seed))
  {
    JoiningIff(w, a, seed);
    NewcomerIs(w, a, seed);
    var e := w.encounters[FindEncounter(w.encounters, a.content)];
    ListedMeans(e, a.actor);
    AdmittedIsJoined(e, Newcomer(w, a, seed));
    hide Engaged, InNoFight, Listed, Admit, Joined, Newcomer, Initiative, JoinSide, FirstIndex;
  }

  /** One more participant, in initiative order; whoever had the turn has it. */
  ghost predicate Joined(before: Encounter, after: Encounter, p: Participant) {
    && after == before.(participants := after.participants, current := after.current)
    && multiset(after.participants) == multiset(before.participants) + multiset{p}
    && Settled(after.participants)
    && (before.current < |before.participants| ==>
          after.current < |after.participants|
          && after.participants[after.current].actor == before.participants[before.current].actor)
  }

  lemma AdmittedIsJoined(e: Encounter, p: Participant)
    ensures Joined(e, Admit(e, p), p)
  {
    SortSettles(e.participants + [p]);
    var sorted := SortByInitiative(e.participants + [p]);
    hide SortByInitiative, Settled, DistinctActors, FirstIndex;
    assert multiset(sorted) == multiset(e.participants) + multiset{p};
    if e.current < |e.participants| {
      var holder := e.participants[e.current];
      assert holder in multiset(sorted);
      assert holder in sorted;
      var i :| 0 <= i < |sorted| && sorted[i] == holder;
      assert FindParticipant(sorted, holder.actor) <= i;
    }
  }

  // ------------------------------------------------------- leaving and closing

  /** Any listed actor may abandon an active encounter: it is resolved, and nobody
      of it dodges any more. */
  lemma AbandoningMeans(w: World, a: Action)
    ensures var o, k := ApplyAbandon(w, a), FindEncounter(w.encounters, a.content);
            && (o.status == Success <==> NamesFight(w, a) && Listed(w.encounters[k], a.actor))
            && (o.status == Success ==>
                  && o.world == w.(actors := o.world.actors, encounters := w.encounters[k := w.encounters[k].(status := Resolved)])
                  && o.events == [EncounterResolved] && |o.world.actors| == |w.actors|
                  && forall i :: 0 <= i < |w.actors| ==>
                       o.world.actors[i] == if Among(w.actors, w.encounters[k].participants, i)
                                            then w.actors[i].(conditions := w.actors[i].conditions.(dodging := false))
                                            else w.actors[i])
  {
    if NamesFight(w, a) {
      var e := w.encounters[FindEncounter(w.encounters, a.content)];
      assert Listed(e, a.actor) <==> FindParticipant(e.participants, a.actor) < |e.participants|;
      StoppingAllMeans(w, e.participants, 0);
      assert e.participants[0..] == e.participants;
    }
    hide StopAllDodging, Among, Listed, FirstIndex;
  }

  /** The actor at this index is listed. */
  predicate Among(actors: seq<Actor>, participants: seq<Participant>, i: nat) {
    exists j :: 0 <= j < |participants| && FindActor(actors, participants[j].actor) == i
  }

  lemma {:induction false} StoppingAllMeans(w: World, participants: seq<Participant>, j: nat)
    requires j <= |participants|
    ensures var r := StopAllDodging(w, participants, j);
            && |r.actors| == |w.actors|
            && forall i :: 0 <= i < |w.actors| ==>
                 r.actors[i] == if Among(w.actors, participants[j..], i)
                                then w.actors[i].(conditions := w.actors[i].conditions.(dodging := false)) else w.actors[i]
    decreases |participants| - j
  {
    if j < |participants| {
      var one := StopDodging(w, participants[j].actor);
      StopDodgingMeans(w, participants[j].actor);
      StoppingAllMeans(one, participants, j + 1);
      forall i | 0 <= i < |w.actors|
        ensures Among(w.actors, participants[j..], i)
           <==> i == FindActor(w.actors, participants[j].actor) || Among(one.actors, participants[j + 1..], i)
      {
        AmongSplits(w.actors, one.actors, participants, j, i);
      }
      hide StopDodging, StopAllDodging, Among, FirstIndex;
    }
  }

  lemma AmongSplits(before: seq<Actor>, after: seq<Actor>, participants: seq<Participant>, j: nat, i: nat)
    requires j < |participants| && |before| == |after| && forall k :: 0 <= k < |before| ==> before[k].id == after[k].id
    ensures Among(before, participants[j..], i)
       <==> i == FindActor(before, participants[j].actor) || Among(after, participants[j + 1..], i)
  {
    forall id ensures FindActor(before, id) == FindActor(after, id) {
      SameActorIds(before, after, id);
    }
    hide FirstIndex;
    if Among(before, participants[j..], i) {
      var k :| 0 <= k < |participants[j..]| && FindActor(before, participants[j..][k].actor) == i;
      if k > 0 {
        assert participants[j + 1..][k - 1] == participants[j..][k];
      }
    }
    if i == FindActor(before, participants[j].actor) {
      assert participants[j..][0] == participants[j];
    }
    if Among(after, participants[j + 1..], i) {
      var k :| 0 <= k < |participants[j + 1..]| && FindActor(after, participants[j + 1..][k].actor) == i;
      assert participants[j..][k + 1] == participants[j + 1..][k];
    }
  }

  /** The world once the actor has left for its destination, marked as escaped. */
  function Left(w: World, a: Action, k: nat): World
    requires MayTakeTurn(w, a, k)
  {
    var i, e := FindActor(w.actors, a.actor), w.encounters[k];
    var j := FindParticipant(e.participants, a.actor);
    w.(actors := w.actors[i := w.actors[i].(location := a.destination,
                                            conditions := w.actors[i].conditions.(dodging := false, defending := false,
                                                                                  hidden := false))],
       encounters := w.encounters[k := e.(participants := e.participants[j := e.participants[j].(escaped := true)])])
  }

  /** Main result: escaping needs the turn and a legal crossing, and ends the turn
      in the world left behind. */
  lemma EscapingMeans(w: World, a: Action, k: nat)
    requires MayTakeTurn(w, a, k)
    ensures var o, here := ApplyEscape(w, a), w.actors[FindActor(w.actors, a.actor)].location;
            && (o.status == Success <==>
                  a.destination != 0 && FindLocation(w.locations, a.destination) < |w.locations|
                  && LegalCrossing(w, a.actor, here, a.destination, a.threshold))
            && (o.status == Success ==>
                  var t := FinishTurn(Left(w, a, k), k);
                  o.world == t.world && o.events == [FleeSuccess] + t.events)
  {
    TurnMeans(w, a);
    assert HoldsTurn(w, a) && k == ReferredEncounter(w, a);
    var here := w.actors[FindActor(w.actors, a.actor)].location;
    if FindExit(w.exits, here, a.destination) < |w.exits| {
      ClearMeansLegal(w, w, a.actor, here, a.destination, a.threshold);
    } else if LegalCrossing(w, a.actor, here, a.destination, a.threshold) {
      LegalMeansThereIsAnExit(w, a.actor, here, a.destination, a.threshold);
    }
    hide HoldsTurn, FinishTurn, ReferredEncounter, LegalCrossing, CrossingOf, FirstIndex;
  }

  lemma EscapingNeedsTheTurn(w: World, a: Action)
    requires forall k :: !MayTakeTurn(w, a, k)
    ensures ApplyEscape(w, a).status != Success
  {
    TurnMeans(w, a);
    hide HoldsTurn, TurnRefusal;
  }
}
