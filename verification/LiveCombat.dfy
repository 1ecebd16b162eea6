/**
  Encounters in place: the insertion sort over the participant array, the turn
  loops, and the handlers that start, join, fight, leave and close a fight.
 */
module LiveCombat {
  import opened KernelTypes
  import opened Lookup
  import opened GateRules
  import opened CombatRules
  import opened LiveState
  import opened LiveGates

  // --------------------------------------------------------------- the sort

  lemma {:induction false} InsertionPlaces(s: seq<Participant>, value: Participant, j: nat)
    requires j <= |s| && (j == 0 || !ActsBefore(value, s[j - 1]))
    requires forall k :: j <= k < |s| ==> ActsBefore(value, s[k])
    ensures InsertByInitiative(s, value) == s[..j] + [value] + s[j..]
    decreases |s|
  {
    hide ActsBefore;
    if j < |s| {
      InsertionPlaces(s[..|s| - 1], value, j);
      assert s[..|s| - 1][..j] == s[..j] && s[..|s| - 1][j..] + [s[|s| - 1]] == s[j..];
    } else {
      assert s[..j] == s && s[j..] == [];
    }
  }

  /** One insertion: the record at `i` moves left past everyone it acts before. */
  method InsertAt(a: array<Participant>, i: nat)
    requires i < a.Length
    modifies a
    ensures a[..i + 1] == InsertByInitiative(old(a[..i]), old(a[i]))
    ensures forall k :: i < k < a.Length ==> a[k] == old(a[k])
  {
    ghost var was := a[..];
    var value, j := a[i], i;
    while j > 0 && ActsBefore(value, a[j - 1])
      invariant j <= i
      invariant forall k :: 0 <= k < j || i < k < a.Length ==> a[k] == was[k]
      invariant forall k :: j < k <= i ==> a[k] == was[k - 1]
      invariant forall k :: j <= k < i ==> ActsBefore(value, was[k])
    {
      a[j] := a[j - 1];
      j := j - 1;
    }
    a[j] := value;
    InsertionPlaces(was[..i], value, j);
    hide ActsBefore;
    hide InsertByInitiative;
    ghost var r := was[..i][..j] + [value] + was[..i][j..];
    forall k | 0 <= k <= i ensures a[k] == r[k] {
      if k > j {
        assert r[k] == was[..i][j..][k - j - 1];
      }
    }
    assert a[..i + 1] == r;
  }

  lemma SortExtends(s: seq<Participant>, i: nat)
    requires i < |s|
    ensures SortByInitiative(s[..i + 1]) == InsertByInitiative(SortByInitiative(s[..i]), s[i])
    ensures i == 0 ==> SortByInitiative(s[..1]) == s[..1]
  {
    hide InsertByInitiative;
    assert s[..i + 1][..i] == s[..i] && s[..i + 1][i] == s[i];
    if i == 0 {
      assert s[..0] == [] && s[..1] == [s[0]];
      assert InsertByInitiative([], s[0]) == [s[0]] by { InsertionPlaces([], s[0], 0); }
    }
  }

  /** The in-place insertion sort. */
  method SortParticipants(a: array<Participant>)
    modifies a
    ensures a[..] == SortByInitiative(old(a[..]))
  {
    hide SortByInitiative;
    hide InsertByInitiative;
    ghost var was := a[..];
    if a.Length == 0 {
      assert was == [] && SortByInitiative([]) == [] by { NothingToSort(); }
      return;
    }
    SortExtends(was, 0);
    assert a[..1] == was[..1];
    var i := 1;
    while i < a.Length
      invariant 1 <= i <= a.Length && a[..i] == SortByInitiative(was[..i])
      invariant forall k :: i <= k < a.Length ==> a[k] == was[k]
    {
      SortExtends(was, i);
      InsertAt(a, i);
      i := i + 1;
    }
    assert was[..i] == was && a[..i] == a[..];
  }

  lemma NothingToSort()
    ensures SortByInitiative([]) == []
  {}

  method Sorted(list: seq<Participant>) returns (r: seq<Participant>)
    ensures r == SortByInitiative(list)
  {
    var a := new Participant[|list|](k requires 0 <= k < |list| => list[k]);
    assert a[..] == list;
    SortParticipants(a);
    r := a[..];
  }

  // ------------------------------------------------------------------ turns

  method CheckAble(m: WorldState, p: Participant) returns (able: bool)
    ensures able == CanAct(m.Now(), p)
  {
    hide FindActor;
    if p.escaped {
      return false;
    }
    var i := m.LocateActor(p.actor);
    able := i < |m.actors| && m.actors[i].status == Active;
  }

  method CheckSide(m: WorldState, e: Encounter, side: nat) returns (able: bool)
    ensures able == SideCanAct(m.Now(), e, side)
  {
    hide CanAct;
    var j := 0;
    while j < |e.participants|
      invariant j <= |e.participants|
      invariant forall i :: 0 <= i < j ==> !(e.participants[i].side == side && CanAct(m.Now(), e.participants[i]))
    {
      if e.participants[j].side == side {
        able := CheckAble(m, e.participants[j]);
        if able {
          return;
        }
      }
      j := j + 1;
    }
    able := false;
  }

  method CalmDodger(m: WorldState, actor: Id)
    modifies m`actors
    ensures m.Now() == StopDodging(old(m.Now()), actor)
  {
    var i := m.LocateActor(actor);
    if i < |m.actors| {
      m.actors := m.actors[i := m.actors[i].(conditions := m.actors[i].conditions.(dodging := false))];
    }
  }

  /** The search around the table for the next participant able to act. */
  method LocateNext(m: WorldState, e: Encounter) returns (step: nat)
    requires |e.participants| > 0
    ensures step == NextStep(m.Now(), e, 1)
  {
    hide CanAct;
    hide Seat;
    step := 1;
    while step <= |e.participants|
      invariant 1 <= step <= |e.participants| + 1
      invariant NextStep(m.Now(), e, 1) == NextStep(m.Now(), e, step)
    {
      var able := CheckAble(m, e.participants[Seat(e, step)]);
      if able {
        return;
      }
      step := step + 1;
    }
  }

  /** Moves the turn on, if anybody can take it; `moved` says whether it did. */
  method PassOn(m: WorldState, k: nat) returns (moved: bool)
    requires k < |m.encounters|
    modifies m`encounters, m`actors
    ensures var w, e := old(m.Now()), old(m.encounters)[k];
            && moved == (|e.participants| > 0 && NextStep(w, e, 1) <= |e.participants|)
            && m.Now() == if moved
                          then StopDodging(w.(encounters := w.encounters[k := AdvanceTurn(w, e)]),
                                           CurrentActor(AdvanceTurn(w, e)))
                          else w
  {
    hide StopDodging;
    var e := m.encounters[k];
    if |e.participants| == 0 {
      return false;
    }
    var step := LocateNext(m, e);
    hide NextStep;
    if step > |e.participants| {
      return false;
    }
    var next := Seat(e, step);
    if next <= e.current && e.round < U16_MAX {
      e := e.(round := e.round + 1);
    }
    e := e.(current := next);
    m.encounters := m.encounters[k := e];
    CalmDodger(m, CurrentActor(e));
    moved := true;
  }

  /** Ends the current turn of the encounter at slot `k`. */
  method EndTurn(m: WorldState, k: nat, out: EventBuffer?, ghost log: Log, ghost before: seq<EventKind>)
    requires k < |m.encounters| && m.LogOf(out) == AppendAll(log, before)
    modifies m, out
    ensures m.Now() == FinishTurn(old(m.Now()), k).world
    ensures m.LogOf(out) == AppendAll(log, before + FinishTurn(old(m.Now()), k).events)
  {
    hide SideCanAct;
    hide NextStep;
    hide StopDodging;
    hide AdvanceTurn;
    AppendAllConcat(log, before, FinishTurn(m.Now(), k).events);
    AppendOne(m.LogOf(out), TurnEnded);
    AppendPair(m.LogOf(out), TurnEnded, EncounterResolved);
    AppendPair(m.LogOf(out), TurnEnded, TurnStarted);
    m.Emit(TurnEnded, out);
    hide AppendEvent;
    hide AppendAll;
    var e := m.encounters[k];
    var one := CheckSide(m, e, 1);
    var two := CheckSide(m, e, 2);
    if !one || !two {
      m.encounters := m.encounters[k := e.(status := Resolved)];
      m.Emit(EncounterResolved, out);
    } else {
      var moved := PassOn(m, k);
      if moved {
        m.Emit(TurnStarted, out);
      }
    }
  }

  method CheckTurn(m: WorldState, a: Action) returns (reason: Reason, k: nat)
    requires IsActive(m.Now(), a.actor)
    ensures reason == TurnRefusal(m.Now(), a) && k == ReferredEncounter(m.Now(), a)
    ensures reason == NoReason ==> k < |m.encounters|
  {
    hide FindActor;
    hide Engages;
    hide CanAct;
    if a.content != 0 {
      k := m.LocateEncounter(a.content);
    } else {
      k := m.LocateEngagement(a.actor);
    }
    if k == |m.encounters| || m.encounters[k].status != Ongoing {
      return EncounterNotFound, k;
    }
    var e := m.encounters[k];
    var j := LocateParticipant(e.participants, a.actor);
    var able := false;
    if j < |e.participants| {
      able := CheckAble(m, e.participants[j]);
    }
    if !able {
      return NotParticipant, k;
    }
    reason := if CurrentActor(e) != a.actor then NotCurrentTurn else NoReason;
  }

  /** The shared opening of the handlers that take a turn. */
  method RequireTurn(m: WorldState, a: Action, out: EventBuffer?) returns (status: Status, at: nat, k: nat)
    modifies m`nextSeq, out
    ensures status == Success <==> HoldsTurn(old(m.Now()), a)
    ensures status == Success ==>
              at == FindActor(m.actors, a.actor) < |m.actors| && k == ReferredEncounter(m.Now(), a) < |m.encounters|
              && m.LogOf(out) == old(m.LogOf(out))
    ensures status != Success ==> m.Did(old(m.LogOf(out)), RejectTurn(old(m.Now()), a), status, out)
  {
    hide TurnRefusal;
    hide ReferredEncounter;
    k := 0;
    status, at := m.RequireActive(a.actor, out);
    if status != Success {
      return;
    }
    var reason;
    reason, k := CheckTurn(m, a);
    if reason != NoReason {
      status := m.Refuse(reason, out);
    }
  }

  // -------------------------------------------------------- start and join

  method CheckStart(m: WorldState, a: Action, actor: Actor) returns (reason: Reason, j: nat)
    requires IsActive(m.Now(), a.actor) && actor == GetActor(m.Now(), a.actor)
    ensures reason == StartRefusal(m.Now(), a)
    ensures reason == NoReason ==> j == FindActor(m.actors, a.target) < |m.actors|
  {
    hide FindActor;
    hide Engages;
    j := |m.actors|;
    if a.actor == a.target {
      return InvalidAction, j;
    }
    j := m.LocateActor(a.target);
    if j == |m.actors| {
      return TargetNotFound, j;
    }
    if m.actors[j].status != Active {
      return TargetUnavailable, j;
    }
    if m.actors[j].location != actor.location {
      return NotSameLocation, j;
    }
    var l := m.LocateLocation(actor.location);
    if l == |m.locations| || !m.locations[l].allowCombat {
      return CombatNotAllowed, j;
    }
    var mine := m.LocateEngagement(a.actor);
    var theirs := m.LocateEngagement(a.target);
    reason := if mine < |m.encounters| || theirs < |m.encounters| then EncounterActive else NoReason;
  }

  method LocateResolved(m: WorldState) returns (i: nat)
    ensures i == FindResolved(m.encounters)
  {
    i := 0;
    while i < |m.encounters| && m.encounters[i].status != Resolved
      invariant i <= |m.encounters| && forall j :: 0 <= j < i ==> m.encounters[j].status != Resolved
    {
      i := i + 1;
    }
  }

  method PlaceIn(m: WorldState, k: nat, e: Encounter)
    requires k <= |m.encounters|
    modifies m`encounters
    ensures m.encounters == PlaceEncounter(old(m.encounters), k, e)
  {
    if k == |m.encounters| {
      m.encounters := m.encounters + [e];
    } else {
      m.encounters := m.encounters[k := e];
    }
  }

  /** The slot for a new encounter, unless its identifier is in use or none is left. */
  method ClaimSlot(m: WorldState, id: Id) returns (reason: Reason, k: nat)
    ensures k == StartSlot(m.encounters, id)
    ensures var own := FindEncounter(m.encounters, id);
            reason == if own < |m.encounters| && m.encounters[own].status == Ongoing then EncounterActive
                      else if k == |m.encounters| && k >= MAX_ENCOUNTERS then EncounterFull else NoReason
  {
    k := m.LocateEncounter(id);
    if k < |m.encounters| {
      return if m.encounters[k].status == Ongoing then EncounterActive else NoReason, k;
    }
    k := LocateResolved(m);
    reason := if k == |m.encounters| && k >= MAX_ENCOUNTERS then EncounterFull else NoReason;
  }

  method Start(m: WorldState, a: Action, seed: Seed, out: EventBuffer?) returns (status: Status)
    modifies m, out
    ensures m.Did(old(m.LogOf(out)), ApplyStart(old(m.Now()), a, seed), status, out)
  {
    hide WorldState.Did;
    hide FindActor;
    hide FindItem;
    hide StartRefusal;
    hide StartSlot;
    hide StopDodging;
    hide OpenEncounter;
    if a.content == 0 {
      status := m.Refuse(InvalidAction, out);
      return;
    }
    var at, k;
    status, at := m.RequireActive(a.actor, out);
    if status != Success {
      return;
    }
    var reason, j := CheckStart(m, a, m.actors[at]);
    if reason == NoReason {
      reason, k := ClaimSlot(m, a.content);
    }
    if reason != NoReason {
      status := m.Refuse(reason, out);
      return;
    }
    StartKnowsTarget(m.Now(), a);
    status := OpenAndAnnounce(m, a, seed, at, j, k, out);
  }

  method OpenAndAnnounce(m: WorldState, a: Action, seed: Seed, at: nat, j: nat, k: nat, out: EventBuffer?)
    returns (status: Status)
    requires at == FindActor(m.actors, a.actor) < |m.actors| && j == FindActor(m.actors, a.target) < |m.actors|
    requires k <= |m.encounters|
    modifies m, out
    ensures var w, e := old(m.Now()), OpenEncounter(old(m.Now()), a, seed);
            m.Did(old(m.LogOf(out)),
                  Outcome(Success, StopDodging(w.(encounters := PlaceEncounter(w.encounters, k, e)), CurrentActor(e)),
                          [EncounterStarted, InitiativeRolled, InitiativeRolled, TurnStarted]),
                  status, out)
  {
    hide OpenEncounter;
    hide StopDodging;
    hide FindActor;
    EmitStart(m, out);
    Open(m, a, seed, at, j, k);
    status := Success;
  }

  /** Writes the new encounter into its slot and starts its first turn. */
  method Open(m: WorldState, a: Action, seed: Seed, at: nat, j: nat, k: nat)
    requires at == FindActor(m.actors, a.actor) < |m.actors| && j == FindActor(m.actors, a.target) < |m.actors|
    requires k <= |m.encounters|
    modifies m`encounters, m`actors
    ensures var w, e := old(m.Now()), OpenEncounter(old(m.Now()), a, seed);
            m.Now() == StopDodging(w.(encounters := PlaceEncounter(w.encounters, k, e)), CurrentActor(e))
  {
    hide StopDodging;
    hide SortByInitiative;
    hide Initiative;
    var list := Sorted([Participant(a.actor, 1, false, Initiative(m.actors[at], seed, 101)),
                        Participant(a.target, 2, false, Initiative(m.actors[j], seed, 102))]);
    var e := Encounter(a.content, m.actors[at].location, Ongoing, 0, 1, list);
    assert e == OpenEncounter(m.Now(), a, seed);
    hide OpenEncounter;
    PlaceIn(m, k, e);
    CalmDodger(m, CurrentActor(e));
  }

  lemma StartKnowsTarget(w: World, a: Action)
    requires IsActive(w, a.actor) && StartRefusal(w, a) == NoReason
    ensures Known(w, a.target)
  {}

  method EmitStart(m: WorldState, out: EventBuffer?)
    modifies m`nextSeq, out
    ensures m.LogOf(out)
         == AppendAll(old(m.LogOf(out)), [EncounterStarted, InitiativeRolled, InitiativeRolled, TurnStarted])
  {
    ghost var log := m.LogOf(out);
    m.Emit(EncounterStarted, out);
    m.Emit(InitiativeRolled, out);
    m.Emit(InitiativeRolled, out);
    m.Emit(TurnStarted, out);
    AppendPair(log, EncounterStarted, InitiativeRolled);
    AppendPair(AppendAll(log, [EncounterStarted, InitiativeRolled]), InitiativeRolled, TurnStarted);
    AppendAllConcat(log, [EncounterStarted, InitiativeRolled], [InitiativeRolled, TurnStarted]);
    assert [EncounterStarted, InitiativeRolled] + [InitiativeRolled, TurnStarted]
        == [EncounterStarted, InitiativeRolled, InitiativeRolled, TurnStarted];
  }

  method CheckJoin(m: WorldState, a: Action, actor: Actor) returns (reason: Reason, k: nat, present: bool)
    requires IsActive(m.Now(), a.actor) && actor == GetActor(m.Now(), a.actor)
    ensures k == FindEncounter(m.encounters, a.content)
    ensures reason == NoReason ==> k < |m.encounters|
    ensures present <==> k < |m.encounters| && m.encounters[k].status == Ongoing
                         && actor.location == m.encounters[k].location
                         && FindParticipant(m.encounters[k].participants, a.actor) < |m.encounters[k].participants|
    ensures reason == if k == |m.encounters| || m.encounters[k].status != Ongoing then EncounterNotFound
                      else if actor.location != m.encounters[k].location then NotSameLocation
                      else if present then NoReason
                      else if Engaged(m.Now(), a.actor) then EncounterActive
                      else if |m.encounters[k].participants| >= MAX_PARTICIPANTS then EncounterFull
                      else NoReason
  {
    hide FindActor;
    hide Engages;
    present := false;
    k := m.LocateEncounter(a.content);
    if k == |m.encounters| || m.encounters[k].status != Ongoing {
      return EncounterNotFound, k, present;
    }
    var e := m.encounters[k];
    if actor.location != e.location {
      return NotSameLocation, k, present;
    }
    var j := LocateParticipant(e.participants, a.actor);
    if j < |e.participants| {
      return NoReason, k, true;
    }
    var own := m.LocateEngagement(a.actor);
    reason := if own < |m.encounters| then EncounterActive
              else if |e.participants| >= MAX_PARTICIPANTS then EncounterFull else NoReason;
  }

  /** Appends the newcomer, re-sorts, and moves the turn index with its holder. */
  method AdmitTo(m: WorldState, k: nat, p: Participant)
    requires k < |m.encounters|
    modifies m`encounters
    ensures m.encounters == old(m.encounters)[k := Admit(old(m.encounters)[k], p)]
  {
    hide SortByInitiative;
    var e := m.encounters[k];
    var holder := CurrentActor(e);
    var list := Sorted(e.participants + [p]);
    var j := LocateParticipant(list, holder);
    if j < |list| {
      e := e.(current := j);
    }
    m.encounters := m.encounters[k := e.(participants := list)];
  }

  method Join(m: WorldState, a: Action, seed: Seed, out: EventBuffer?) returns (status: Status)
    modifies m, out
    ensures m.Did(old(m.LogOf(out)), ApplyJoin(old(m.Now()), a, seed), status, out)
  {
    hide WorldState.Did;
    hide FindActor;
    hide FindItem;
    hide Admit;
    hide Engaged;
    hide Initiative;
    hide JoinSide;
    hide FindParticipant;
    if a.content == 0 {
      status := m.Refuse(InvalidAction, out);
      return;
    }
    var at;
    status, at := m.RequireActive(a.actor, out);
    if status != Success {
      return;
    }
    var reason, k, present := CheckJoin(m, a, m.actors[at]);
    if reason != NoReason {
      status := m.Refuse(reason, out);
      return;
    }
    if present {
      m.Conclude(old(m.LogOf(out)), ApplyJoin(old(m.Now()), a, seed), status, out);
      return;
    }
    status := SeatNewcomer(m, k, Participant(a.actor, JoinSide(m.actors[at], a), false, Initiative(m.actors[at], seed, 103)), out);
  }

  method SeatNewcomer(m: WorldState, k: nat, p: Participant, out: EventBuffer?) returns (status: Status)
    requires k < |m.encounters|
    modifies m, out
    ensures var w := old(m.Now());
            m.Did(old(m.LogOf(out)),
                  Outcome(Success, w.(encounters := w.encounters[k := Admit(w.encounters[k], p)]),
                          [ParticipantJoined, InitiativeRolled]),
                  status, out)
  {
    hide Admit;
    AppendPair(m.LogOf(out), ParticipantJoined, InitiativeRolled);
    AdmitTo(m, k, p);
    m.Emit(ParticipantJoined, out);
    m.Emit(InitiativeRolled, out);
    status := Success;
  }

  // --------------------------------------------------------------- fighting

  method CheckStrike(m: WorldState, a: Action, k: nat) returns (reason: Reason, target: nat)
    requires HoldsTurn(m.Now(), a) && k == ReferredEncounter(m.Now(), a)
    ensures reason == CombatAttackRefusal(m.Now(), a)
    ensures reason == NoReason ==> target == FindActor(m.actors, a.target) < |m.actors|
  {
    hide FindActor;
    hide TurnRefusal;
    HolderIsListed(m.Now(), a);
    hide CanAct;
    hide ReferredEncounter;
    var e := m.encounters[k];
    target := |m.actors|;
    if a.actor == a.target {
      return SelfTarget, target;
    }
    target := m.LocateActor(a.target);
    var i := LocateParticipant(e.participants, a.actor);
    var j := LocateParticipant(e.participants, a.target);
    if target == |m.actors| || j == |e.participants| {
      return NotParticipant, target;
    }
    var able := CheckAble(m, e.participants[j]);
    if !able {
      return TargetUnavailable, target;
    }
    if e.participants[i].side == e.participants[j].side {
      return NotHostile, target;
    }
    reason := NoReason;
    if a.item != 0 {
      var w := m.LocateItem(a.item);
      if w == |m.items| || m.items[w].holder != a.actor || m.items[w].role != ROLE_WEAPON || m.items[w].zone != Equipped {
        reason := ItemNotAvailable;
      }
    }
  }

  lemma HolderIsListed(w: World, a: Action)
    requires HoldsTurn(w, a)
    ensures var k := ReferredEncounter(w, a);
            k < |w.encounters| && FindParticipant(w.encounters[k].participants, a.actor) < |w.encounters[k].participants|
  {}

  /** The damage die: the weapon's, if there is one with two sides or more. */
  method WeaponDie(m: WorldState, item: Id) returns (die: nat)
    ensures die >= 2
    ensures die == if item != 0 && HasItem(m.Now(), item) && GetItem(m.Now(), item).flags >= 2
                   then GetItem(m.Now(), item).flags else 8
  {
    die := 8;
    if item != 0 {
      var i := m.LocateItem(item);
      if i < |m.items| && m.items[i].flags >= 2 {
        die := m.items[i].flags;
      }
    }
  }

  method RollBlow(m: WorldState, a: Action, seed: Seed, finesse: bool, at: nat, target: nat) returns (blow: Blow)
    requires at == FindActor(m.actors, a.actor) < |m.actors| && target == FindActor(m.actors, a.target) < |m.actors|
    ensures blow == CombatBlow(m.Now(), a, seed, finesse)
  {
    hide FindActor, FindItem, RollD20, RollDie, AttackAbilityModifier, ToI16, AbilityModifier, Proficiency, CurrentHp;
    hide FirstIndex;
    var attacker, defender := m.actors[at], m.actors[target];
    assert attacker == GetActor(m.Now(), a.actor) && defender == GetActor(m.Now(), a.target);
    var raw := RollD20(seed, 1, if defender.conditions.dodging then ROLL_DISADVANTAGE else ROLL_NORMAL);
    var modifier := AttackAbilityModifier(attacker, a, finesse);
    var total := ToI16(raw + ToI16(modifier + Proficiency(attacker)));
    var ac := ToI16(10 + AbilityModifier(defender.stats.dexterity));
    var die := WeaponDie(m, a.item);
    hide GetActor, GetItem, HasItem;
    if !(raw == 20 || (raw != 1 && total >= ac)) {
      return Miss;
    }
    var second := 0;
    if raw == 20 {
      second := RollDie(seed, 3, die);
    }
    var damage := ToI16(ToI16(RollDie(seed, 2, die) + second) + modifier);
    if damage < 0 {
      damage := 0;
    }
    blow := Hit(damage, damage >= CurrentHp(defender) && damage > 0);
  }

  method StrikeTarget(m: WorldState, target: nat, id: Id, blow: Blow)
    requires target == FindActor(m.actors, id) < |m.actors|
    modifies m`actors
    ensures m.Now() == Strike(old(m.Now()), id, blow)
  {
    match blow {
      case Miss =>
      case Hit(damage, knocksOut) =>
        var victim := m.actors[target];
        if knocksOut {
          m.actors := m.actors[target := victim.(
                                damage := if victim.stats.hpBase > 1 then victim.stats.hpBase - 1 else 0,
                                status := KnockedOut, conditions := victim.conditions.(unconscious := true))];
        } else {
          m.actors := m.actors[target := victim.(damage := ToI16(victim.damage + damage))];
        }
    }
  }

  method EmitBlow(m: WorldState, blow: Blow, out: EventBuffer?)
    modifies m`nextSeq, out
    ensures m.LogOf(out) == AppendAll(old(m.LogOf(out)), BlowEvents(blow))
  {
    ghost var log := m.LogOf(out);
    m.Emit(AttackAttempt, out);
    if blow.Miss? {
      m.Emit(AttackMiss, out);
      AppendPair(log, AttackAttempt, AttackMiss);
      return;
    }
    m.Emit(AttackHit, out);
    AppendPair(log, AttackAttempt, AttackHit);
    assert [AttackAttempt, AttackHit] + [] == [AttackAttempt, AttackHit];
    if blow.knocksOut {
      AppendOne(m.LogOf(out), KnockedOutEvent);
      AppendAllConcat(log, [AttackAttempt, AttackHit], [KnockedOutEvent]);
      m.Emit(KnockedOutEvent, out);
    }
  }

  method StrikeInTurn(m: WorldState, a: Action, seed: Seed, finesse: bool, out: EventBuffer?) returns (status: Status)
    modifies m, out
    ensures m.Did(old(m.LogOf(out)), ApplyCombatAttack(old(m.Now()), a, seed, finesse), status, out)
  {
    hide WorldState.Did;
    hide FindActor;
    hide FindItem;
    hide HoldsTurn;
    hide RejectTurn;
    hide CombatAttackRefusal;
    hide CombatBlow;
    hide Strike;
    hide FinishTurn;
    hide ReferredEncounter;
    var at, k;
    status, at, k := RequireTurn(m, a, out);
    if status != Success {
      return;
    }
    var reason, target := CheckStrike(m, a, k);
    if reason != NoReason {
      status := m.Refuse(reason, out);
      return;
    }
    var blow := RollBlow(m, a, seed, finesse, at, target);
    ghost var log := m.LogOf(out);
    EmitBlow(m, blow, out);
    StrikeTarget(m, target, a.target, blow);
    EndTurn(m, k, out, log, BlowEvents(blow));
    m.Conclude(old(m.LogOf(out)), ApplyCombatAttack(old(m.Now()), a, seed, finesse), status, out);
  }

  method Dodge(m: WorldState, a: Action, out: EventBuffer?) returns (status: Status)
    modifies m, out
    ensures m.Did(old(m.LogOf(out)), ApplyDodge(old(m.Now()), a), status, out)
  {
    hide WorldState.Did;
    hide FindActor;
    hide FindItem;
    hide RejectTurn;
    hide FinishTurn;
    hide TurnRefusal;
    hide ReferredEncounter;
    var at, k;
    status, at, k := RequireTurn(m, a, out);
    if status != Success {
      return;
    }
    ghost var start, log := m.Now(), m.LogOf(out);
    m.actors := m.actors[at := m.actors[at].(conditions := m.actors[at].conditions.(dodging := true))];
    assert m.Now() == StartDodging(start, a.actor);
    hide StartDodging;
    m.Emit(Dodged, out);
    AppendOne(log, Dodged);
    EndTurn(m, k, out, log, [Dodged]);
    m.Conclude(old(m.LogOf(out)), ApplyDodge(old(m.Now()), a), status, out);
  }

  method PassTurn(m: WorldState, a: Action, out: EventBuffer?) returns (status: Status)
    modifies m, out
    ensures m.Did(old(m.LogOf(out)), ApplyPass(old(m.Now()), a), status, out)
  {
    hide WorldState.Did;
    hide FindActor;
    hide FindItem;
    hide HoldsTurn;
    hide RejectTurn;
    hide FinishTurn;
    hide ReferredEncounter;
    var at, k;
    status, at, k := RequireTurn(m, a, out);
    if status != Success {
      return;
    }
    ghost var log := m.LogOf(out);
    m.Emit(Passed, out);
    AppendOne(log, Passed);
    EndTurn(m, k, out, log, [Passed]);
    m.Conclude(old(m.LogOf(out)), ApplyPass(old(m.Now()), a), status, out);
  }

  method NeedTime(m: WorldState, a: Action, out: EventBuffer?) returns (status: Status)
    modifies m, out
    ensures m.Did(old(m.LogOf(out)), ApplyNeedTime(old(m.Now()), a), status, out)
  {
    hide WorldState.Did;
    hide FindActor;
    hide FindItem;
    hide HoldsTurn;
    hide RejectTurn;
    hide ReferredEncounter;
    var at, k;
    status, at, k := RequireTurn(m, a, out);
    if status != Success {
      return;
    }
    AppendOne(m.LogOf(out), NeededTime);
    m.Emit(NeededTime, out);
    m.Conclude(old(m.LogOf(out)), ApplyNeedTime(old(m.Now()), a), status, out);
  }

  // ---------------------------------------------------- leaving and closing

  method CalmAll(m: WorldState, participants: seq<Participant>)
    modifies m`actors
    ensures m.Now() == StopAllDodging(old(m.Now()), participants, 0)
  {
    hide StopDodging;
    ghost var start := m.Now();
    var j := 0;
    while j < |participants|
      invariant j <= |participants|
      invariant StopAllDodging(start, participants, 0) == StopAllDodging(m.Now(), participants, j)
    {
      CalmDodger(m, participants[j].actor);
      j := j + 1;
    }
  }

  method Abandon(m: WorldState, a: Action, out: EventBuffer?) returns (status: Status)
    modifies m, out
    ensures m.Did(old(m.LogOf(out)), ApplyAbandon(old(m.Now()), a), status, out)
  {
    hide WorldState.Did;
    hide FindActor;
    hide FindItem;
    hide StopAllDodging;
    if a.content == 0 {
      status := m.Refuse(InvalidAction, out);
      return;
    }
    var k := m.LocateEncounter(a.content);
    if k == |m.encounters| || m.encounters[k].status != Ongoing {
      status := m.Refuse(EncounterNotFound, out);
      return;
    }
    var e := m.encounters[k];
    var j := LocateParticipant(e.participants, a.actor);
    if j == |e.participants| {
      status := m.Refuse(NotParticipant, out);
      return;
    }
    status := Close(m, k, out);
  }

  method Close(m: WorldState, k: nat, out: EventBuffer?) returns (status: Status)
    requires k < |m.encounters|
    modifies m, out
    ensures var w, e := old(m.Now()), old(m.encounters)[k];
            var calm := StopAllDodging(w, e.participants, 0);
            && k < |calm.encounters|
            && m.Did(old(m.LogOf(out)),
                     Outcome(Success, calm.(encounters := calm.encounters[k := e.(status := Resolved)]), [EncounterResolved]),
                     status, out)
  {
    hide StopAllDodging;
    var e := m.encounters[k];
    CalmAll(m, e.participants);
    m.encounters := m.encounters[k := e.(status := Resolved)];
    AppendOne(m.LogOf(out), EncounterResolved);
    m.Emit(EncounterResolved, out);
    status := Success;
  }

  method CheckEscape(m: WorldState, a: Action, actor: Actor) returns (reason: Reason)
    requires Known(m.Now(), a.actor) && actor == GetActor(m.Now(), a.actor)
    ensures reason == EscapeRefusal(m.Now(), a)
  {
    hide FindActor;
    hide CrossingOf;
    var l := m.LocateLocation(a.destination);
    if a.destination == 0 || l == |m.locations| {
      return LocationNotFound;
    }
    var x := m.LocateExit(actor.location, a.destination);
    if x == |m.exits| {
      return NoExit;
    }
    var c := CheckCrossing(m, a.actor, m.exits[x], a.threshold);
    reason := CrossingReason(c);
  }

  method LeaveFight(m: WorldState, a: Action, at: nat, k: nat)
    requires at == FindActor(m.actors, a.actor) < |m.actors| && k < |m.encounters|
    modifies m`actors, m`encounters
    ensures m.Now() == CommitEscape(old(m.Now()), a, k)
  {
    var actor, e := m.actors[at], m.encounters[k];
    m.actors := m.actors[at := actor.(location := a.destination,
                                      conditions := actor.conditions.(dodging := false, defending := false,
                                                                      hidden := false))];
    var j := LocateParticipant(e.participants, a.actor);
    if j < |e.participants| {
      e := e.(participants := e.participants[j := e.participants[j].(escaped := true)]);
    }
    m.encounters := m.encounters[k := e];
  }

  method Escape(m: WorldState, a: Action, out: EventBuffer?) returns (status: Status)
    modifies m, out
    ensures m.Did(old(m.LogOf(out)), ApplyEscape(old(m.Now()), a), status, out)
  {
    hide WorldState.Did;
    hide FindActor;
    hide FindItem;
    hide RejectTurn;
    hide TurnRefusal;
    hide FinishTurn;
    hide EscapeRefusal;
    hide CommitEscape;
    hide ReferredEncounter;
    var at, k;
    status, at, k := RequireTurn(m, a, out);
    if status != Success {
      return;
    }
    var reason := CheckEscape(m, a, m.actors[at]);
    if reason != NoReason {
      status := m.Refuse(reason, out);
      return;
    }
    ghost var log := m.LogOf(out);
    LeaveFight(m, a, at, k);
    m.Emit(FleeSuccess, out);
    AppendOne(log, FleeSuccess);
    EndTurn(m, k, out, log, [FleeSuccess]);
    m.Conclude(old(m.LogOf(out)), ApplyEscape(old(m.Now()), a), status, out);
  }
}
