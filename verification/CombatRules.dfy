/**
  Combat: initiative order, the turn index, and the rules that start, join,
  fight, leave and close an encounter.
 */
module CombatRules {
  import opened KernelTypes
  import opened Lookup
  import opened GateRules

  // -------------------------------------------------------- initiative order

  predicate ActsBefore(p: Participant, q: Participant) {
    p.initiative > q.initiative || (p.initiative == q.initiative && p.actor < q.actor)
  }

  /** One step of the insertion sort: `value` moves left past everyone it acts before. */
  function InsertByInitiative(sorted: seq<Participant>, value: Participant): (r: seq<Participant>)
    ensures |r| == |sorted| + 1
  {
    if sorted == [] || !ActsBefore(value, sorted[|sorted| - 1]) then sorted + [value]
    else InsertByInitiative(sorted[..|sorted| - 1], value) + [sorted[|sorted| - 1]]
  }

  function SortByInitiative(s: seq<Participant>): (r: seq<Participant>)
    ensures |r| == |s|
  {
    if s == [] then []
    else InsertByInitiative(SortByInitiative(s[..|s| - 1]), s[|s| - 1])
  }

  // ------------------------------------------------------------------- turns

  predicate CanAct(w: World, p: Participant) {
    !p.escaped && IsActive(w, p.actor)
  }

  predicate SideCanAct(w: World, e: Encounter, side: nat) {
    exists j :: 0 <= j < |e.participants| && e.participants[j].side == side && CanAct(w, e.participants[j])
  }

  /** The participant holding the turn; actor zero when the turn index is off the list. */
  function CurrentActor(e: Encounter): Id {
    if e.current < |e.participants| then e.participants[e.current].actor else 0
  }

  /** The seat `step` places after the current one, around the table. */
  function Seat(e: Encounter, step: nat): (j: nat)
    requires |e.participants| > 0
    ensures j < |e.participants|
    ensures e.current < |e.participants| && step <= |e.participants| ==>
              j == if e.current + step < |e.participants| then e.current + step
                   else e.current + step - |e.participants|
  {
    var n, at := |e.participants|, e.current + step;
    if e.current < n && step <= n then (if at < n then at else at - n) else at % n
  }

  /** The first step from `step` on whose participant can act, or one past the last. */
  function NextStep(w: World, e: Encounter, step: nat): (s: nat)
    requires |e.participants| > 0 && 1 <= step <= |e.participants| + 1
    ensures step <= s <= |e.participants| + 1
    ensures s <= |e.participants| ==> CanAct(w, e.participants[Seat(e, s)])
    ensures forall t :: step <= t < s ==> !CanAct(w, e.participants[Seat(e, t)])
    decreases |e.participants| + 1 - step
  {
    if step > |e.participants| then step
    else if CanAct(w, e.participants[Seat(e, step)]) then step
    else NextStep(w, e, step + 1)
  }

  function AdvanceTurn(w: World, e: Encounter): Encounter {
    if |e.participants| == 0 then e
    else
      var s := NextStep(w, e, 1);
      if s > |e.participants| then e
      else
        var next := Seat(e, s);
        e.(current := next, round := if next <= e.current && e.round < U16_MAX then e.round + 1 else e.round)
  }

  /** A turn that starts ends its holder's dodge. */
  function StopDodging(w: World, actor: Id): World {
    if Known(w, actor)
    then PutActor(w, GetActor(w, actor).(conditions := GetActor(w, actor).conditions.(dodging := false)))
    else w
  }

  datatype Turn = Turn(world: World, events: seq<EventKind>)

  /** Ends the current turn: the encounter resolves once a side is spent, and
      otherwise the turn passes to the next participant able to act. */
  function FinishTurn(w: World, k: nat): Turn
    requires k < |w.encounters|
  {
    var e := w.encounters[k];
    if !SideCanAct(w, e, 1) || !SideCanAct(w, e, 2) then
      Turn(w.(encounters := w.encounters[k := e.(status := Resolved)]), [TurnEnded, EncounterResolved])
    else if |e.participants| == 0 || NextStep(w, e, 1) > |e.participants| then
      Turn(w, [TurnEnded])
    else
      var next := AdvanceTurn(w, e);
      Turn(StopDodging(w.(encounters := w.encounters[k := next]), CurrentActor(next)), [TurnEnded, TurnStarted])
  }

  /** The encounter an action refers to: by identifier, or the actor's own. */
  function ReferredEncounter(w: World, a: Action): (k: nat)
    ensures k <= |w.encounters|
  {
    if a.content != 0 then FindEncounter(w.encounters, a.content)
    else FindEngagement(w.encounters, a.actor)
  }

  function TurnRefusal(w: World, a: Action): Reason
    requires IsActive(w, a.actor)
  {
    var k := ReferredEncounter(w, a);
    if k == |w.encounters| || w.encounters[k].status != Ongoing then EncounterNotFound
    else
      var e := w.encounters[k];
      var j := FindParticipant(e.participants, a.actor);
      if j == |e.participants| || !CanAct(w, e.participants[j]) then NotParticipant
      else if CurrentActor(e) != a.actor then NotCurrentTurn
      else NoReason
  }

  predicate HoldsTurn(w: World, a: Action) {
    IsActive(w, a.actor) && TurnRefusal(w, a) == NoReason
  }

  function RejectTurn(w: World, a: Action): Outcome {
    if !IsActive(w, a.actor) then RejectInactive(w, a.actor) else Reject(w, TurnRefusal(w, a))
  }

  // ---------------------------------------------------------- start and join

  function StartRefusal(w: World, a: Action): Reason
    requires IsActive(w, a.actor)
  {
    if a.actor == a.target then InvalidAction
    else if !Known(w, a.target) then TargetNotFound
    else if !IsActive(w, a.target) then TargetUnavailable
    else if GetActor(w, a.target).location != GetActor(w, a.actor).location then NotSameLocation
    else if !AllowsCombat(w, GetActor(w, a.actor).location) then CombatNotAllowed
    else if Engaged(w, a.actor) || Engaged(w, a.target) then EncounterActive
    else NoReason
  }

  function FindResolved(encounters: seq<Encounter>): (i: nat)
    ensures i <= |encounters|
    ensures i < |encounters| ==> encounters[i].status == Resolved
    ensures forall j :: 0 <= j < i ==> encounters[j].status != Resolved
  {
    FirstIndex(encounters, (e: Encounter) => e.status == Resolved)
  }

  /** The slot a new encounter takes: its own earlier one, else the first
      resolved one, else a new one at the end. */
  function StartSlot(encounters: seq<Encounter>, id: Id): (k: nat)
    ensures k <= |encounters|
  {
    var own := FindEncounter(encounters, id);
    if own < |encounters| then own else FindResolved(encounters)
  }

  function Initiative(actor: Actor, seed: Seed, salt: nat): int {
    ToI16(RollD20(seed, salt, ROLL_NORMAL) + AbilityModifier(actor.stats.dexterity))
  }

  function OpenEncounter(w: World, a: Action, seed: Seed): Encounter
    requires Known(w, a.actor) && Known(w, a.target)
  {
    Encounter(a.content, GetActor(w, a.actor).location, Ongoing, 0, 1,
              SortByInitiative([
                Participant(a.actor, 1, false, Initiative(GetActor(w, a.actor), seed, 101)),
                Participant(a.target, 2, false, Initiative(GetActor(w, a.target), seed, 102))]))
  }

  function PlaceEncounter(encounters: seq<Encounter>, k: nat, e: Encounter): seq<Encounter>
    requires k <= |encounters|
  {
    if k == |encounters| then encounters + [e] else encounters[k := e]
  }

  function ApplyStart(w: World, a: Action, seed: Seed): Outcome {
    if a.content == 0 then Reject(w, InvalidAction)
    else if !IsActive(w, a.actor) then RejectInactive(w, a.actor)
    else if StartRefusal(w, a) != NoReason then Reject(w, StartRefusal(w, a))
    else
      var own := FindEncounter(w.encounters, a.content);
      if own < |w.encounters| && w.encounters[own].status == Ongoing then Reject(w, EncounterActive)
      else
        var k := StartSlot(w.encounters, a.content);
        if k == |w.encounters| && k >= MAX_ENCOUNTERS then Reject(w, EncounterFull)
        else
          var e := OpenEncounter(w, a, seed);
          Outcome(Success, StopDodging(w.(encounters := PlaceEncounter(w.encounters, k, e)), CurrentActor(e)),
                  [EncounterStarted, InitiativeRolled, InitiativeRolled, TurnStarted])
  }

  function JoinSide(actor: Actor, a: Action): nat {
    if a.modifier == 1 || a.modifier == 2 then a.modifier
    else if actor.kind == Human then 1 else 2
  }

  /** Adds a participant, re-sorts, and moves the turn index to whoever held it. */
  function Admit(e: Encounter, p: Participant): Encounter {
    var sorted := SortByInitiative(e.participants + [p]);
    var j := FindParticipant(sorted, CurrentActor(e));
    e.(participants := sorted, current := if j < |sorted| then j else e.current)
  }

  function ApplyJoin(w: World, a: Action, seed: Seed): Outcome {
    if a.content == 0 then Reject(w, InvalidAction)
    else if !IsActive(w, a.actor) then RejectInactive(w, a.actor)
    else
      var k := FindEncounter(w.encounters, a.content);
      var actor := GetActor(w, a.actor);
      if k == |w.encounters| || w.encounters[k].status != Ongoing then Reject(w, EncounterNotFound)
      else
        var e := w.encounters[k];
        if actor.location != e.location then Reject(w, NotSameLocation)
        else if FindParticipant(e.participants, a.actor) < |e.participants| then Outcome(Success, w, [])
        else if Engaged(w, a.actor) then Reject(w, EncounterActive)
        else if |e.participants| >= MAX_PARTICIPANTS then Reject(w, EncounterFull)
        else
          var p := Participant(a.actor, JoinSide(actor, a), false, Initiative(actor, seed, 103));
          Outcome(Success, w.(encounters := w.encounters[k := Admit(e, p)]),
                  [ParticipantJoined, InitiativeRolled])
  }

  // -------------------------------------------------------------- fighting

  function Proficiency(actor: Actor): int {
    var level := if actor.stats.level > 0 then actor.stats.level else 1;
    var bonus := 2 + (level - 1) / 4;
    if bonus > 6 then 6 else bonus
  }

  function CombatAttackRefusal(w: World, a: Action): Reason
    requires HoldsTurn(w, a)
  {
    var e := w.encounters[ReferredEncounter(w, a)];
    var j := FindParticipant(e.participants, a.target);
    if a.actor == a.target then SelfTarget
    else if !Known(w, a.target) || j == |e.participants| then NotParticipant
    else if !CanAct(w, e.participants[j]) then TargetUnavailable
    else if e.participants[FindParticipant(e.participants, a.actor)].side == e.participants[j].side then NotHostile
    else if a.item != 0
            && (!HasItem(w, a.item) || GetItem(w, a.item).holder != a.actor
                || GetItem(w, a.item).role != ROLE_WEAPON || GetItem(w, a.item).zone != Equipped)
    then ItemNotAvailable
    else NoReason
  }

  function AttackAbilityModifier(actor: Actor, a: Action, finesse: bool): int {
    var strength := AbilityModifier(actor.stats.strength);
    var dexterity := AbilityModifier(actor.stats.dexterity);
    if finesse && a.ability != 0 && a.ability <= 5 then AbilityModifier(StatValue(actor.stats, a.ability))
    else if finesse && dexterity > strength then dexterity
    else strength
  }

  function Damaged(target: Actor, damage: int, knocksOut: bool): Actor {
    if knocksOut then
      target.(damage := if target.stats.hpBase > 1 then target.stats.hpBase - 1 else 0,
              status := KnockedOut, conditions := target.conditions.(unconscious := true))
    else target.(damage := ToI16(target.damage + damage))
  }

  datatype Blow = Miss | Hit(damage: int, knocksOut: bool)

  /** The roll of an encounter attack. */
  function CombatBlow(w: World, a: Action, seed: Seed, finesse: bool): Blow
    requires Known(w, a.actor) && Known(w, a.target)
  {
    var actor, target := GetActor(w, a.actor), GetActor(w, a.target);
    var raw := RollD20(seed, 1, if target.conditions.dodging then ROLL_DISADVANTAGE else ROLL_NORMAL);
    var modifier := AttackAbilityModifier(actor, a, finesse);
    var total := ToI16(raw + ToI16(modifier + Proficiency(actor)));
    var ac := ToI16(10 + AbilityModifier(target.stats.dexterity));
    if !(raw == 20 || (raw != 1 && total >= ac)) then Miss
    else
      var die := if a.item != 0 && HasItem(w, a.item) && GetItem(w, a.item).flags >= 2
                 then GetItem(w, a.item).flags else 8;
      var dice := ToI16(RollDie(seed, 2, die) + if raw == 20 then RollDie(seed, 3, die) else 0);
      var rolled := ToI16(dice + modifier);
      var damage := if rolled < 0 then 0 else rolled;
      Hit(damage, damage >= CurrentHp(target) && damage > 0)
  }

  function Strike(w: World, target: Id, blow: Blow): (r: World)
    requires Known(w, target)
    ensures r == w.(actors := r.actors)
  {
    match blow
    case Miss => w
    case Hit(damage, knocksOut) => PutActor(w, Damaged(GetActor(w, target), damage, knocksOut))
  }

  function BlowEvents(blow: Blow): seq<EventKind> {
    match blow
    case Miss => [AttackAttempt, AttackMiss]
    case Hit(_, knocksOut) => [AttackAttempt, AttackHit] + if knocksOut then [KnockedOutEvent] else []
  }

  function ApplyCombatAttack(w: World, a: Action, seed: Seed, finesse: bool): Outcome {
    if !HoldsTurn(w, a) then RejectTurn(w, a)
    else if CombatAttackRefusal(w, a) != NoReason then Reject(w, CombatAttackRefusal(w, a))
    else
      var blow := CombatBlow(w, a, seed, finesse);
      var t := FinishTurn(Strike(w, a.target, blow), ReferredEncounter(w, a));
      Outcome(Success, t.world, BlowEvents(blow) + t.events)
  }

  function StartDodging(w: World, actor: Id): (r: World)
    requires Known(w, actor)
    ensures r == w.(actors := r.actors)
  {
    PutActor(w, GetActor(w, actor).(conditions := GetActor(w, actor).conditions.(dodging := true)))
  }

  function ApplyDodge(w: World, a: Action): Outcome {
    if !HoldsTurn(w, a) then RejectTurn(w, a)
    else
      var t := FinishTurn(StartDodging(w, a.actor), ReferredEncounter(w, a));
      Outcome(Success, t.world, [Dodged] + t.events)
  }

  function ApplyPass(w: World, a: Action): Outcome {
    if !HoldsTurn(w, a) then RejectTurn(w, a)
    else
      var t := FinishTurn(w, ReferredEncounter(w, a));
      Outcome(Success, t.world, [Passed] + t.events)
  }

  function ApplyNeedTime(w: World, a: Action): Outcome {
    if !HoldsTurn(w, a) then RejectTurn(w, a) else Outcome(Success, w, [NeededTime])
  }

  /** Ends the dodge of every participant from index `j` on. */
  function StopAllDodging(w: World, participants: seq<Participant>, j: nat): (r: World)
    requires j <= |participants|
    ensures r == w.(actors := r.actors) && |r.actors| == |w.actors|
    decreases |participants| - j
  {
    if j == |participants| then w
    else StopAllDodging(StopDodging(w, participants[j].actor), participants, j + 1)
  }

  function ApplyAbandon(w: World, a: Action): Outcome {
    if a.content == 0 then Reject(w, InvalidAction)
    else
      var k := FindEncounter(w.encounters, a.content);
      if k == |w.encounters| || w.encounters[k].status != Ongoing then Reject(w, EncounterNotFound)
      else
        var e := w.encounters[k];
        if FindParticipant(e.participants, a.actor) == |e.participants| then Reject(w, NotParticipant)
        else
          var calm := StopAllDodging(w, e.participants, 0);
          Outcome(Success, calm.(encounters := calm.encounters[k := e.(status := Resolved)]), [EncounterResolved])
  }

  function CrossingReason(c: Crossing): Reason {
    match c
    case Clear => NoReason case Stale => StaleGateOffer case Shut => GateClosed case Bolted => ExitLocked
  }

  function EscapeRefusal(w: World, a: Action): Reason
    requires Known(w, a.actor)
  {
    var here := GetActor(w, a.actor).location;
    var x := FindExit(w.exits, here, a.destination);
    if a.destination == 0 || !LocationExists(w, a.destination) then LocationNotFound
    else if x == |w.exits| then NoExit
    else CrossingReason(CrossingOf(w, a.actor, w.exits[x], a.threshold))
  }

  function MarkEscaped(e: Encounter, actor: Id): Encounter {
    var j := FindParticipant(e.participants, actor);
    if j == |e.participants| then e
    else e.(participants := e.participants[j := e.participants[j].(escaped := true)])
  }

  /** The escaping actor leaves the location and the turn order, not the list. */
  function CommitEscape(w: World, a: Action, k: nat): (r: World)
    requires Known(w, a.actor) && k < |w.encounters|
    ensures r == w.(actors := r.actors, encounters := w.encounters[k := MarkEscaped(w.encounters[k], a.actor)])
  {
    var actor := GetActor(w, a.actor);
    var moved := PutActor(w, actor.(location := a.destination,
                                    conditions := actor.conditions.(dodging := false, defending := false,
                                                                    hidden := false)));
    moved.(encounters := moved.encounters[k := MarkEscaped(moved.encounters[k], a.actor)])
  }

  function ApplyEscape(w: World, a: Action): Outcome {
    if !HoldsTurn(w, a) then RejectTurn(w, a)
    else if EscapeRefusal(w, a) != NoReason then Reject(w, EscapeRefusal(w, a))
    else
      var k := ReferredEncounter(w, a);
      var t := FinishTurn(CommitEscape(w, a, k), k);
      Outcome(Success, t.world, [FleeSuccess] + t.events)
  }
}
