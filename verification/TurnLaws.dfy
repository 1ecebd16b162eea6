/**
  Fair turns.  While membership and ability stay as they are, consecutive passes
  give every able participant the turn exactly once before it comes back to
  where it started, and that is exactly one round.
 */
module TurnLaws {
  import opened KernelTypes
  import opened Lookup
  import opened CombatRules
  import opened Dispatcher
  import opened Effects
  import opened CombatLaws

  /** How many of the first `n` participants can act. */
  function AbleBefore(w: World, ps: seq<Participant>, n: nat): (count: nat)
    requires n <= |ps|
    ensures count <= n
  {
    if n == 0 then 0 else AbleBefore(w, ps, n - 1) + if CanAct(w, ps[n - 1]) then 1 else 0
  }

  lemma {:induction false} CountGrows(w: World, ps: seq<Participant>, lo: nat, hi: nat)
    requires lo <= hi <= |ps|
    ensures AbleBefore(w, ps, lo) <= AbleBefore(w, ps, hi)
    ensures (forall t :: lo <= t < hi ==> !CanAct(w, ps[t])) ==> AbleBefore(w, ps, lo) == AbleBefore(w, ps, hi)
    decreases hi - lo
  {
    if lo < hi {
      CountGrows(w, ps, lo, hi - 1);
    }
  }

  /** Able participants are told apart by how many able ones precede them. */
  lemma RankIsUnique(w: World, ps: seq<Participant>, i: nat, j: nat)
    requires i < |ps| && j < |ps| && CanAct(w, ps[i]) && CanAct(w, ps[j])
    ensures AbleBefore(w, ps, i) == AbleBefore(w, ps, j) <==> i == j
    ensures AbleBefore(w, ps, i) < AbleBefore(w, ps, |ps|)
  {
    hide CanAct;
    CountGrows(w, ps, i + 1, |ps|);
    if i < j {
      CountGrows(w, ps, i + 1, j);
    } else if j < i {
      CountGrows(w, ps, j + 1, i);
    }
  }

  /** The next turn goes to the able participant of the next rank; after the
      last one, to the first, and only then does the round rise. */
  lemma AdvanceMovesOneRank(w: World, e: Encounter)
    requires e.current < |e.participants| && CanAct(w, e.participants[e.current])
    ensures var ps, next := e.participants, AdvanceTurn(w, e);
            && next == e.(current := next.current, round := next.round)
            && next.current < |ps| && CanAct(w, ps[next.current])
            && var rank := AbleBefore(w, ps, e.current) + 1;
               if rank < AbleBefore(w, ps, |ps|)
               then AbleBefore(w, ps, next.current) == rank && next.round == e.round
               else AbleBefore(w, ps, next.current) == 0
                    && next.round == if e.round < U16_MAX then e.round + 1 else e.round
  {
    hide CanAct;
    var ps, n := e.participants, |e.participants|;
    var s := NextStep(w, e, 1);
    assert Seat(e, n) == e.current;
    assert s <= n;
    var next := Seat(e, s);
    hide NextStep;
    if e.current + s < n {
      forall j | e.current + 1 <= j < next ensures !CanAct(w, ps[j]) {
        assert j == Seat(e, j - e.current);
      }
      CountGrows(w, ps, e.current + 1, next);
      CountGrows(w, ps, next + 1, n);
    } else {
      forall j | e.current + 1 <= j < n ensures !CanAct(w, ps[j]) {
        assert j == Seat(e, j - e.current);
      }
      forall j | 0 <= j < next ensures !CanAct(w, ps[j]) {
        assert j == Seat(e, j - e.current + n);
      }
      CountGrows(w, ps, e.current + 1, n);
      CountGrows(w, ps, 0, next);
    }
  }

  /** The encounter after `i` turns have passed. */
  function Turns(w: World, e: Encounter, i: nat): Encounter {
    if i == 0 then e else AdvanceTurn(w, Turns(w, e, i - 1))
  }

  /** The table of able participants, as far as one round goes. */
  lemma {:induction false} TurnsFollowRanks(w: World, e: Encounter, i: nat)
    requires e.current < |e.participants| && CanAct(w, e.participants[e.current]) && e.round < U16_MAX
    requires i <= AbleBefore(w, e.participants, |e.participants|)
    ensures var ps, later := e.participants, Turns(w, e, i);
            && later == e.(current := later.current, round := later.round)
            && later.current < |ps| && CanAct(w, ps[later.current])
            && var able, rank := AbleBefore(w, ps, |ps|), AbleBefore(w, ps, e.current) + i;
               if rank < able then AbleBefore(w, ps, later.current) == rank && later.round == e.round
               else AbleBefore(w, ps, later.current) == rank - able && later.round == e.round + 1
  {
    hide AdvanceTurn;
    hide CanAct;
    RankIsUnique(w, e.participants, e.current, e.current);
    if i > 0 {
      TurnsFollowRanks(w, e, i - 1);
      var earlier := Turns(w, e, i - 1);
      RankIsUnique(w, e.participants, earlier.current, earlier.current);
      AdvanceMovesOneRank(w, earlier);
    }
  }

  /** How many participants of the encounter can act. */
  function AbleCount(w: World, e: Encounter): nat {
    AbleBefore(w, e.participants, |e.participants|)
  }

  /** The pass, counted from now, at which seat `j` holds the turn. */
  function TurnOf(w: World, e: Encounter, j: nat): nat
    requires j < |e.participants| && e.current < |e.participants|
    requires CanAct(w, e.participants[j]) && CanAct(w, e.participants[e.current])
  {
    RankIsUnique(w, e.participants, e.current, e.current);
    var here, there := AbleBefore(w, e.participants, e.current), AbleBefore(w, e.participants, j);
    if here <= there then there - here else there - here + AbleCount(w, e)
  }

  lemma TurnComesOnTime(w: World, e: Encounter, i: nat, j: nat)
    requires e.current < |e.participants| && CanAct(w, e.participants[e.current]) && e.round < U16_MAX
    requires i < AbleCount(w, e) && j < |e.participants| && CanAct(w, e.participants[j])
    ensures Turns(w, e, i).current == j <==> i == TurnOf(w, e, j)
    ensures TurnOf(w, e, j) < AbleCount(w, e)
  {
    hide CanAct;
    TurnsFollowRanks(w, e, i);
    hide Turns;
    RankIsUnique(w, e.participants, e.current, e.current);
    RankIsUnique(w, e.participants, Turns(w, e, i).current, j);
    RankIsUnique(w, e.participants, j, j);
    hide AbleBefore;
  }

  lemma RoundTripReturns(w: World, e: Encounter)
    requires e.current < |e.participants| && CanAct(w, e.participants[e.current]) && e.round < U16_MAX
    ensures Turns(w, e, AbleCount(w, e)) == e.(round := e.round + 1)
  {
    hide CanAct;
    TurnsFollowRanks(w, e, AbleCount(w, e));
    hide Turns;
    RankIsUnique(w, e.participants, Turns(w, e, AbleCount(w, e)).current, e.current);
    hide AbleBefore;
  }

  /** One round: every able seat has the turn at exactly one of the next
      `AbleCount` turns, only able seats do, and then the turn and nothing but
      the round number is back. */
  lemma OneRound(w: World, e: Encounter)
    requires e.current < |e.participants| && CanAct(w, e.participants[e.current]) && e.round < U16_MAX
    ensures forall i: nat :: i < AbleCount(w, e) ==>
              Turns(w, e, i).current < |e.participants| && CanAct(w, e.participants[Turns(w, e, i).current])
    ensures forall i: nat, j: nat :: i < AbleCount(w, e) && j < |e.participants| && CanAct(w, e.participants[j]) ==>
              (Turns(w, e, i).current == j <==> i == TurnOf(w, e, j))
    ensures forall j: nat :: j < |e.participants| && CanAct(w, e.participants[j]) ==> TurnOf(w, e, j) < AbleCount(w, e)
    ensures Turns(w, e, AbleCount(w, e)) == e.(round := e.round + 1)
  {
    hide CanAct;
    hide AbleCount;
    hide Turns;
    hide TurnOf;
    RoundTripReturns(w, e);
    RankIsUnique(w, e.participants, e.current, e.current);
    assert AbleCount(w, e) == AbleBefore(w, e.participants, |e.participants|) by { CountIsAll(w, e); }
    hide AbleBefore;
    forall i: nat | i < AbleCount(w, e)
      ensures Turns(w, e, i).current < |e.participants| && CanAct(w, e.participants[Turns(w, e, i).current])
    {
      TurnsFollowRanks(w, e, i);
    }
    forall j: nat, i: nat | i < AbleCount(w, e) && j < |e.participants| && CanAct(w, e.participants[j])
      ensures Turns(w, e, i).current == j <==> i == TurnOf(w, e, j)
    {
      TurnComesOnTime(w, e, i, j);
    }
    forall j: nat | j < |e.participants| && CanAct(w, e.participants[j]) ensures TurnOf(w, e, j) < AbleCount(w, e) {
      TurnComesOnTime(w, e, 0, j);
    }
  }

  lemma CountIsAll(w: World, e: Encounter)
    ensures AbleCount(w, e) == AbleBefore(w, e.participants, |e.participants|)
  {}

  // ------------------------------------------------------------ real passes

  /** The call is the current holder's pass in the encounter at slot `k`. */
  predicate IsHoldersPass(w: World, k: nat, c: Call) {
    && k < |w.encounters| && c.action.kind == CombatPass
    && c.action.actor == CurrentActor(w.encounters[k]) && ReferredEncounter(w, c.action) == k
  }

  /** Whoever could act still can, and nobody else can. */
  ghost predicate SameAbility(w: World, v: World) {
    forall p {:trigger CanAct(v, p)} :: CanAct(w, p) == CanAct(v, p)
  }

  lemma StopDodgingKeepsAbility(w: World, actor: Id)
    ensures SameAbility(w, StopDodging(w, actor))
  {}

  lemma PassAdvances(w: World, k: nat, a: Action)
    requires k < |w.encounters| && HoldsTurn(w, a) && ReferredEncounter(w, a) == k && Playable(w, w.encounters[k])
    ensures var r := ApplyPass(w, a).world;
            && SameAbility(w, r)
            && r.encounters == w.encounters[k := AdvanceTurn(w, w.encounters[k])]
  {
    hide HoldsTurn;
    hide TurnRefusal;
    AbleSeatIsFound(w, w.encounters[k]);
    var next := AdvanceTurn(w, w.encounters[k]);
    StopDodgingKeepsAbility(w.(encounters := w.encounters[k := next]), CurrentActor(next));
    hide AdvanceTurn;
    hide SideCanAct;
    hide StopDodging;
    assert SameAbility(w, w.(encounters := w.encounters[k := next]));
    hide CanAct;
  }

  lemma {:induction false} SameAbilitySameStep(w: World, v: World, e: Encounter, step: nat)
    requires SameAbility(w, v) && |e.participants| > 0 && 1 <= step <= |e.participants| + 1
    ensures NextStep(w, e, step) == NextStep(v, e, step)
    decreases |e.participants| + 1 - step
  {
    hide CanAct;
    hide Seat;
    if step <= |e.participants| {
      assert CanAct(v, e.participants[Seat(e, step)]) == CanAct(w, e.participants[Seat(e, step)]);
      SameAbilitySameStep(w, v, e, step + 1);
    }
  }

  lemma SameAbilitySameAdvance(w: World, v: World, e: Encounter)
    requires SameAbility(w, v)
    ensures AdvanceTurn(w, e) == AdvanceTurn(v, e) && Playable(w, e) == Playable(v, e)
  {
    if |e.participants| > 0 {
      SameAbilitySameStep(w, v, e, 1);
    }
    hide NextStep;
    hide Seat;
    assert forall j :: 0 <= j < |e.participants| ==> CanAct(v, e.participants[j]) == CanAct(w, e.participants[j]);
    hide CanAct;
  }

  lemma HolderPasses(w: World, k: nat, c: Call)
    requires CombatOk(w) && IsHoldersPass(w, k, c) && w.encounters[k].status == Ongoing && Playable(w, w.encounters[k])
    ensures var r := ApplyPass(w, c.action).world;
            SameAbility(w, r) && r.encounters == w.encounters[k := AdvanceTurn(w, w.encounters[k])]
  {
    hide ApplyPass;
    assert EncounterOk(w.actors, w.encounters[k]);
    hide CombatOk;
    hide FirstIndex;
    hide ReferredEncounter;
    HolderMayPass(w, k, c.action);
    hide HoldsTurn;
    PassAdvances(w, k, c.action);
  }

  lemma PassIsApplyPass(w: World, c: Call)
    requires c.action.kind == CombatPass
    ensures var o, s := ApplyPass(Clocked(w, c), c.action), Step(w, c);
            o.world.actors == s.world.actors && o.world.encounters == s.world.encounters
  {
    hide Step;
    hide ApplyPass;
    hide Engaged;
    hide ApplyItemRule;
    StepIsTheRule(w, c);
  }

  lemma SameActorsSameAbility(w: World, v: World)
    requires w.actors == v.actors
    ensures SameAbility(w, v)
  {}

  lemma AbilityIsTransitive(w: World, v: World, r: World, s: World)
    requires SameAbility(w, v) && SameAbility(v, r) && SameAbility(r, s)
    ensures SameAbility(w, s)
  {
    hide CanAct;
    forall p ensures CanAct(w, p) == CanAct(s, p) {
      assert CanAct(w, p) == CanAct(v, p) == CanAct(r, p);
    }
  }

  /** A holder's pass succeeds, advances its encounter, and disables nobody. */
  lemma PassStep(w: World, k: nat, c: Call)
    requires CombatOk(w) && IsHoldersPass(w, k, c) && w.encounters[k].status == Ongoing && Playable(w, w.encounters[k])
    ensures var o := Step(w, c);
            && o.status == Success && CombatOk(o.world) && SameAbility(w, o.world)
            && o.world.encounters == w.encounters[k := AdvanceTurn(w, w.encounters[k])]
  {
    hide Step;
    hide ApplyPass;
    hide AdvanceTurn;
    hide SideCanAct;
    var v, e := Clocked(w, c), w.encounters[k];
    SameTablesSameSafety(w, v);
    assert EncounterOk(w.actors, e);
    PassSucceedsIff(w, k, c);
    StepKeepsCombat(w, c);
    hide CombatOk;
    SameActorsSameAbility(w, v);
    SameAbilitySameAdvance(w, v, e);
    hide CanAct;
    hide SameAbility;
    hide Playable;
    HolderPasses(v, k, c);
    PassIsApplyPass(w, c);
    SameActorsSameAbility(ApplyPass(v, c.action).world, Step(w, c).world);
    AbilityIsTransitive(w, v, ApplyPass(v, c.action).world, Step(w, c).world);
  }

  // ---------------------------------------------------- a whole round of them

  /** Every call is the pass of whoever then holds the turn at slot `k`. */
  predicate AllPass(kernel: Kernel, k: nat, calls: seq<Call>)
    decreases |calls|
  {
    calls == [] || (IsHoldersPass(kernel.world, k, calls[0]) && AllPass(Advance(kernel, calls[0]), k, calls[1..]))
  }

  lemma {:induction false} TurnsShift(w: World, v: World, e: Encounter, i: nat)
    requires SameAbility(w, v)
    ensures Turns(w, e, i + 1) == Turns(v, AdvanceTurn(w, e), i)
  {
    hide AdvanceTurn;
    hide SameAbility;
    if i > 0 {
      TurnsShift(w, v, e, i - 1);
      SameAbilitySameAdvance(w, v, Turns(w, e, i));
    }
  }

  lemma AdvanceStaysPlayable(w: World, v: World, e: Encounter)
    requires SameAbility(w, v) && Playable(w, e)
    ensures Playable(v, AdvanceTurn(w, e))
    ensures AdvanceTurn(w, e).status == e.status && AdvanceTurn(w, e).id == e.id
  {
    AdvanceMovesOneRank(w, e);
    hide AdvanceTurn;
    hide AbleBefore;
    assert forall j :: 0 <= j < |e.participants| ==> CanAct(v, e.participants[j]) == CanAct(w, e.participants[j]);
    hide CanAct;
  }

  lemma {:induction false} PassesAreTurns(kernel: Kernel, k: nat, calls: seq<Call>)
    requires CombatOk(kernel.world) && k < |kernel.world.encounters| && kernel.world.encounters[k].status == Ongoing
    requires Playable(kernel.world, kernel.world.encounters[k]) && AllPass(kernel, k, calls)
    ensures var w := kernel.world;
            Run(kernel, calls).world.encounters == w.encounters[k := Turns(w, w.encounters[k], |calls|)]
    decreases |calls|
  {
    hide Step;
    hide AdvanceTurn;
    hide CombatOk;
    hide Playable;
    hide SameAbility;
    if calls != [] {
      var w := kernel.world;
      var v, e := Step(w, calls[0]).world, w.encounters[k];
      PassStep(w, k, calls[0]);
      AdvanceStaysPlayable(w, v, e);
      PassesAreTurns(Advance(kernel, calls[0]), k, calls[1..]);
      TurnsShift(w, v, e, |calls| - 1);
    }
  }

  lemma {:induction false} PrefixPasses(kernel: Kernel, k: nat, calls: seq<Call>, i: nat)
    requires AllPass(kernel, k, calls) && i <= |calls|
    ensures AllPass(kernel, k, calls[..i])
    ensures i < |calls| ==> IsHoldersPass(Run(kernel, calls[..i]).world, k, calls[i])
    decreases i
  {
    hide Step;
    if i > 0 {
      PrefixPasses(Advance(kernel, calls[0]), k, calls[1..], i - 1);
      assert calls[..i][0] == calls[0] && calls[..i][1..] == calls[1..][..i - 1];
    }
  }

  lemma PasserIsTheHolder(kernel: Kernel, k: nat, calls: seq<Call>, i: nat)
    requires CombatOk(kernel.world) && k < |kernel.world.encounters| && kernel.world.encounters[k].status == Ongoing
    requires Playable(kernel.world, kernel.world.encounters[k]) && AllPass(kernel, k, calls) && i < |calls|
    ensures calls[i].action.actor == CurrentActor(Turns(kernel.world, kernel.world.encounters[k], i))
  {
    hide Run;
    hide AllPass;
    hide CombatOk;
    hide Playable;
    hide Turns;
    PrefixPasses(kernel, k, calls, i);
    PassesAreTurns(kernel, k, calls[..i]);
  }

  lemma HolderIsSeatedAndAble(w: World, e: Encounter, i: nat)
    requires ListOk(w.actors, e) && CanAct(w, e.participants[e.current]) && e.round < U16_MAX && i < AbleCount(w, e)
    ensures exists j: nat :: j < |e.participants| && CanAct(w, e.participants[j])
                             && e.participants[j].actor == CurrentActor(Turns(w, e, i))
    ensures forall j: nat :: j < |e.participants| && CanAct(w, e.participants[j]) ==>
              (CurrentActor(Turns(w, e, i)) == e.participants[j].actor <==> i == TurnOf(w, e, j))
  {
    hide CanAct;
    OneRound(w, e);
    TurnsKeepParticipants(w, e, i);
    hide Turns;
    hide AbleCount;
    hide TurnOf;
    hide Settled;
    var seat := Turns(w, e, i).current;
    assert CanAct(w, e.participants[seat]);
    assert CurrentActor(Turns(w, e, i)) == e.participants[seat].actor;
  }

  /** Fair turns.  From a sound encounter, as many consecutive passes as it has
      able participants are made by able participants, by each exactly once, and
      change nothing about the encounter but its round, which rises by one. */
  lemma FairTurns(kernel: Kernel, k: nat, calls: seq<Call>)
    requires CombatOk(kernel.world) && k < |kernel.world.encounters| && kernel.world.encounters[k].status == Ongoing
    requires Playable(kernel.world, kernel.world.encounters[k]) && kernel.world.encounters[k].round < U16_MAX
    requires AllPass(kernel, k, calls) && |calls| == AbleCount(kernel.world, kernel.world.encounters[k])
    ensures var w, e := kernel.world, kernel.world.encounters[k];
            && (forall i: nat :: i < |calls| ==>
                  exists j: nat :: j < |e.participants| && CanAct(w, e.participants[j])
                                   && e.participants[j].actor == calls[i].action.actor)
            && (forall i: nat, j: nat :: i < |calls| && j < |e.participants| && CanAct(w, e.participants[j]) ==>
                  TurnOf(w, e, j) < |calls|
                  && (calls[i].action.actor == e.participants[j].actor <==> i == TurnOf(w, e, j)))
            && Run(kernel, calls).world.encounters == w.encounters[k := e.(round := e.round + 1)]
  {
    hide Step;
    hide Run;
    hide AllPass;
    hide AbleCount;
    hide TurnOf;
    hide Turns;
    var w, e := kernel.world, kernel.world.encounters[k];
    assert EncounterOk(w.actors, e);
    assert CanAct(w, e.participants[e.current]);
    hide CanAct;
    forall i: nat | i < |calls|
      ensures calls[i].action.actor == CurrentActor(Turns(w, e, i))
      ensures exists j: nat :: j < |e.participants| && CanAct(w, e.participants[j])
                               && e.participants[j].actor == CurrentActor(Turns(w, e, i))
      ensures forall j: nat :: j < |e.participants| && CanAct(w, e.participants[j]) ==>
                (CurrentActor(Turns(w, e, i)) == e.participants[j].actor <==> i == TurnOf(w, e, j))
    {
      PasserIsTheHolder(kernel, k, calls, i);
      HolderIsSeatedAndAble(w, e, i);
    }
    PassesAreTurns(kernel, k, calls);
    hide CombatOk;
    hide Playable;
    OneRound(w, e);
    hide CurrentActor;
    hide EncounterOk;
  }

  lemma {:induction false} TurnsKeepParticipants(w: World, e: Encounter, i: nat)
    ensures Turns(w, e, i).participants == e.participants
  {
    hide NextStep;
    hide Seat;
    if i > 0 {
      TurnsKeepParticipants(w, e, i - 1);
    }
  }

  // ------------------------------------------------------------------- joins

  lemma JoiningKeepsTheTurn(w: World, a: Action, seed: Seed, k: nat)
    requires CombatOk(w) && k < |w.encounters|
    ensures var r := ApplyJoin(w, a, seed).world;
            && k < |r.encounters| && r.encounters[k].round == w.encounters[k].round
            && CurrentActor(r.encounters[k]) == CurrentActor(w.encounters[k])
  {
    var o, at := ApplyJoin(w, a, seed), FindEncounter(w.encounters, a.content);
    if o.world != w && at == k {
      var e, actor := w.encounters[k], GetActor(w, a.actor);
      var p := Participant(a.actor, JoinSide(actor, a), false, Initiative(actor, seed, 103));
      assert o.world == w.(encounters := w.encounters[k := Admit(e, p)]);
      assert FindParticipant(e.participants, a.actor) == |e.participants|;
      assert EncounterOk(w.actors, e);
      hide ApplyJoin;
      hide Admit;
      hide Initiative;
      hide JoinSide;
      NewcomerIsAbsent(e, a.actor);
      AdmissionKeepsTheTurn(e, p);
    }
    hide Admit;
    hide Initiative;
    hide Engaged;
  }

  /** A join, successful or not, leaves the turn with whoever holds it. */
  lemma JoinKeepsTheTurn(w: World, c: Call, k: nat)
    requires CombatOk(w) && k < |w.encounters| && c.action.kind == CombatJoin
    ensures var r := Step(w, c).world;
            && k < |r.encounters| && r.encounters[k].round == w.encounters[k].round
            && CurrentActor(r.encounters[k]) == CurrentActor(w.encounters[k])
  {
    hide Step;
    hide ApplyJoin;
    hide CombatOk;
    hide ApplyItemRule;
    hide BarredByCombat;
    SameTablesSameSafety(w, Clocked(w, c));
    JoiningKeepsTheTurn(Clocked(w, c), c.action, c.seed, k);
    if BarredByCombat(w, c.action) {
      BarredCallIsRefused(w, c);
    } else {
      StepIsTheRule(w, c);
    }
  }
}
