/**
  Rules about actors outside an encounter: creation, rescue, speech, checks,
  travel, the unordered attack, and the exits they unlock.
 */
module ActorRules {
  import opened KernelTypes
  import opened Lookup
  import opened GateRules
  import opened ItemRules
  import opened CombatRules

  // ----------------------------------------------------- creation and rescue

  function StartingLocation(a: Action): Id {
    if a.location != 0 then a.location else 1
  }

  function NewActor(a: Action, seed: Seed): Actor {
    var stats := GeneratedStats(seed, a.actor);
    Actor(a.actor, Human, Active, StartingLocation(a),
          if a.modifier == -1 then stats.(level := 0) else stats, 0, NO_CONDITIONS)
  }

  function ApplyCreateActor(w: World, a: Action, seed: Seed): Outcome {
    if !LocationExists(w, StartingLocation(a)) then Reject(w, LocationNotFound)
    else if Known(w, a.actor) then Reject(w, InvalidAction)
    else if |w.actors| >= MAX_ACTORS then Outcome(ErrFull, w, [])
    else Outcome(Success, w.(actors := w.actors + [NewActor(a, seed)]), [ActorCreated, ActorEnteredLocation])
  }

  function RescueRefusal(w: World, a: Action): Reason {
    if !Known(w, a.actor) then ActorNotFound
    else if !IsActive(w, a.actor) then ActorInactive
    else if !Known(w, a.target) then TargetNotFound
    else if GetActor(w, a.target).status != KnockedOut then TargetUnavailable
    else if GetActor(w, a.target).location != GetActor(w, a.actor).location then NotSameLocation
    else if !HasItem(w, a.item) then ItemNotFound
    else
      var draught := GetItem(w, a.item);
      if draught.kind != POTION || draught.holder != a.actor || draught.charges == 0 then ItemNotAvailable
      else if a.content != a.actor && a.content != a.target then InvalidAction
      else NoReason
  }

  /** The chosen body becomes the human's, the other one a resident. */
  function RevivePair(w: World, a: Action): (r: World)
    requires RescueRefusal(w, a) == NoReason
    ensures r == w.(actors := r.actors)
  {
    var downed := GetActor(w, a.target);
    var risen := downed.(damage := 0, status := Active,
                         conditions := downed.conditions.(unconscious := false),
                         kind := if a.content == a.actor then Npc else Human);
    var rescuer := GetActor(w, a.actor).(kind := if a.content == a.actor then Human else Npc);
    PutActor(PutActor(w, risen), rescuer)
  }

  function ApplyCompleteRescue(w: World, a: Action): Outcome {
    if RescueRefusal(w, a) != NoReason then Reject(w, RescueRefusal(w, a))
    else
      Outcome(Success, PutItem(RevivePair(w, a), SpendCharge(GetItem(w, a.item))),
              [ItemUsed, RescueCompleted, AvatarReleased])
  }

  function ReplaceRefusal(w: World, a: Action): Reason {
    if !LocationExists(w, StartingLocation(a)) then LocationNotFound
    else if Known(w, a.actor) then InvalidAction
    else if !Known(w, a.target) || !Known(w, a.content) then TargetNotFound
    else if !HasItem(w, a.item) then ItemNotFound
    else if GetItem(w, a.item).kind != POTION then ItemNotAvailable
    else if GetActor(w, a.target).status != KnockedOut || GetActor(w, a.content).status != KnockedOut
            || a.target == a.content then TargetUnavailable
    else NoReason
  }

  function ReplaceActors(w: World, a: Action, seed: Seed): (r: World)
    requires ReplaceRefusal(w, a) == NoReason
    ensures r == w.(actors := r.actors)
  {
    var fallen := PutActor(w, GetActor(w, a.target).(status := Dead, kind := Npc));
    fallen.(actors := fallen.actors + [NewActor(a, seed)])
  }

  function ApplyReplaceRescuer(w: World, a: Action, seed: Seed): Outcome {
    if ReplaceRefusal(w, a) != NoReason then Reject(w, ReplaceRefusal(w, a))
    else if |w.actors| >= MAX_ACTORS then Outcome(ErrFull, w, [])
    else
      Outcome(Success, PutItem(ReplaceActors(w, a, seed), ExhaustItem(GetItem(w, a.item).(charges := 0))),
              [CombatDeath, ActorCreated, ActorEnteredLocation])
  }

  // ------------------------------------------------------- speech and checks

  function ApplySay(w: World, a: Action): Outcome {
    if !IsActive(w, a.actor) then RejectInactive(w, a.actor) else Outcome(Success, w, [MessageCreated])
  }

  /** Progress a project push earns, or nothing when its inputs are malformed. */
  function PushProgress(p: PushInput): nat {
    if p.baseProgress == 0 || p.locationCount == 0 || p.remainingProgress == 0
       || p.prepared > 1 || p.evidenceCount > p.locationCount then 0
    else
      var bonus := if p.prepared == 0 then 0
                   else (if p.preparedBonus != 0 then p.preparedBonus else 1)
                        + (if p.evidenceCount == 0 then 0
                           else if p.locationCount > 1 && p.evidenceCount == p.locationCount then 2 else 1);
      if p.baseProgress + bonus > p.remainingProgress then p.remainingProgress else p.baseProgress + bonus
  }

  function ApplyProjectPush(w: World, a: Action): Outcome {
    if !IsActive(w, a.actor) then RejectInactive(w, a.actor)
    else if PushProgress(a.push) == 0 then Reject(w, InvalidAction)
    else Outcome(Success, w, [ProjectPushResolved])
  }

  function ApplyAbilityCheck(w: World, a: Action, seed: Seed): Outcome {
    if !IsActive(w, a.actor) then RejectInactive(w, a.actor)
    else if a.rollMode > ROLL_DISADVANTAGE || a.dc > I16_MAX then Reject(w, InvalidAction)
    else Outcome(Success, w, [AbilityCheckRolled(
                                CheckTotal(GetActor(w, a.actor), a, seed) >= if a.dc != 0 then a.dc else 10)])
  }

  function ApplyDiscovery(w: World, a: Action, seed: Seed, event: EventKind): Outcome {
    if !IsActive(w, a.actor) then RejectInactive(w, a.actor)
    else if a.location == 0 || a.location != GetActor(w, a.actor).location || !LocationExists(w, a.location)
    then Reject(w, NotSameLocation)
    else if a.dc == 0 then Outcome(Success, w, [event])
    else
      var check := ApplyAbilityCheck(w, a, seed);
      if check.status != Success then check else Outcome(Success, check.world, check.events + [event])
  }

  // ------------------------------------------------------------------ travel

  function MoveRefusal(w: World, a: Action): Reason
    requires Known(w, a.actor)
  {
    var here := GetActor(w, a.actor).location;
    var x := FindExit(w.exits, here, a.destination);
    if a.destination == 0 || !LocationExists(w, a.destination) then LocationNotFound
    else if a.destination == here then InvalidAction
    else if x == |w.exits| then NoExit
    else CrossingReason(CrossingOf(w, a.actor, w.exits[x], a.threshold))
  }

  function ApplyMove(w: World, a: Action): Outcome {
    if !IsActive(w, a.actor) then RejectInactive(w, a.actor)
    else if MoveRefusal(w, a) != NoReason then Outcome(ErrRule, w, [MoveBlocked(MoveRefusal(w, a))])
    else Outcome(Success, PutActor(w, GetActor(w, a.actor).(location := a.destination)), [ActorMoved])
  }

  function FleeRefusal(w: World, a: Action): Reason
    requires Known(w, a.actor)
  {
    if !AllowsCombat(w, GetActor(w, a.actor).location) then CombatNotAllowed else MoveRefusal(w, a)
  }

  function ApplyFlee(w: World, a: Action): Outcome {
    if !IsActive(w, a.actor) then RejectInactive(w, a.actor)
    else if FleeRefusal(w, a) != NoReason then Reject(w, FleeRefusal(w, a))
    else
      var actor := GetActor(w, a.actor);
      Outcome(Success,
              PutActor(w, actor.(location := a.destination,
                                 conditions := actor.conditions.(defending := false, hidden := false))),
              [FleeSuccess])
  }

  function UnlockRefusal(w: World, a: Action): Reason {
    var x := FindExit(w.exits, a.location, a.destination);
    if !LocationExists(w, a.location) || !LocationExists(w, a.destination) then LocationNotFound
    else if x == |w.exits| then NoExit
    else if FindExitGate(w.gates, a.location, a.destination) < |w.gates| then StaleGateOffer
    else if !w.exits[x].locked then InvalidAction
    else NoReason
  }

  function ApplyUnlock(w: World, a: Action): Outcome {
    if UnlockRefusal(w, a) != NoReason then Reject(w, UnlockRefusal(w, a))
    else
      var x := FindExit(w.exits, a.location, a.destination);
      Outcome(Success, w.(exits := w.exits[x := w.exits[x].(locked := false)]), [ExitUnlocked])
  }

  // ------------------------------------------------------- unordered combat

  function ApplyDefend(w: World, a: Action): Outcome {
    if !IsActive(w, a.actor) then RejectInactive(w, a.actor)
    else
      var actor := GetActor(w, a.actor);
      Outcome(Success, PutActor(w, actor.(conditions := actor.conditions.(defending := true))), [CombatDefended])
  }

  function AttackRefusal(w: World, a: Action): Reason
    requires Known(w, a.actor)
  {
    if a.rollMode > ROLL_DISADVANTAGE then InvalidAction
    else if a.actor == a.target then SelfTarget
    else if !Known(w, a.target) then TargetNotFound
    else if !IsActive(w, a.target) then TargetUnavailable
    else if GetActor(w, a.target).location != GetActor(w, a.actor).location then NotSameLocation
    else if !AllowsCombat(w, GetActor(w, a.actor).location) then CombatNotAllowed
    else NoReason
  }

  function ResolveAttack(w: World, a: Action, seed: Seed): Blow
    requires Known(w, a.actor) && Known(w, a.target)
  {
    var actor, target := GetActor(w, a.actor), GetActor(w, a.target);
    var raw := RollD20(seed, 1, a.rollMode);
    var modifier := AbilityModifier(actor.stats.strength);
    var ac := ToI16(10 + AbilityModifier(target.stats.dexterity)) + if target.conditions.defending then 2 else 0;
    if !(raw == 20 || (raw != 1 && ToI16(raw + modifier) >= ac)) then Miss
    else
      var dice := RollDie(seed, 2, 8) + if raw == 20 then RollDie(seed, 3, 8) else 0;
      var rolled := ToI16(dice + modifier);
      var damage := if rolled < 1 then 1 else rolled;
      Hit(damage, damage >= CurrentHp(target))
  }

  /** Being attacked, hit or not, ends the target's defence. */
  function DropGuard(w: World, target: Id): World
    requires Known(w, target)
  {
    var guarded := GetActor(w, target);
    PutActor(w, guarded.(conditions := guarded.conditions.(defending := false)))
  }

  function ApplyAttack(w: World, a: Action, seed: Seed): Outcome {
    if !IsActive(w, a.actor) then RejectInactive(w, a.actor)
    else if AttackRefusal(w, a) != NoReason then Reject(w, AttackRefusal(w, a))
    else
      var blow := ResolveAttack(w, a, seed);
      Outcome(Success, DropGuard(Strike(w, a.target, blow), a.target), BlowEvents(blow))
  }
}
