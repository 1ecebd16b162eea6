/**
  The remaining handlers in place: creation and rescue, speech and checks,
  travel, the unordered attack, and unlocking.
 */
module LiveActors {
  import opened KernelTypes
  import opened Lookup
  import opened GateRules
  import opened ItemRules
  import opened CombatRules
  import opened ActorRules
  import opened LiveState
  import opened LiveGates
  import opened LiveCraft
  import opened LiveCombat

  // ----------------------------------------------------- creation and rescue

  method EmitArrival(m: WorldState, out: EventBuffer?)
    modifies m`nextSeq, out
    ensures m.LogOf(out) == AppendAll(old(m.LogOf(out)), [ActorCreated, ActorEnteredLocation])
  {
    AppendPair(m.LogOf(out), ActorCreated, ActorEnteredLocation);
    m.Emit(ActorCreated, out);
    m.Emit(ActorEnteredLocation, out);
  }

  method CreateAvatar(m: WorldState, a: Action, seed: Seed, out: EventBuffer?) returns (status: Status)
    modifies m, out
    ensures m.Did(old(m.LogOf(out)), ApplyCreateActor(old(m.Now()), a, seed), status, out)
  {
    hide WorldState.Did;
    hide FindActor;
    hide FindItem;
    hide NewActor;
    var l := m.LocateLocation(StartingLocation(a));
    if l == |m.locations| {
      status := m.Refuse(LocationNotFound, out);
      return;
    }
    var at := m.LocateActor(a.actor);
    if at < |m.actors| {
      status := m.Refuse(InvalidAction, out);
      return;
    }
    if |m.actors| >= MAX_ACTORS {
      m.Conclude(old(m.LogOf(out)), ApplyCreateActor(old(m.Now()), a, seed), ErrFull, out);
      return ErrFull;
    }
    m.actors := m.actors + [NewActor(a, seed)];
    EmitArrival(m, out);
    status := Success;
    m.Conclude(old(m.LogOf(out)), ApplyCreateActor(old(m.Now()), a, seed), status, out);
  }

  method CheckRescue(m: WorldState, a: Action) returns (reason: Reason, at: nat, t: nat, i: nat)
    ensures reason == RescueRefusal(m.Now(), a)
    ensures reason == NoReason ==>
              && at == FindActor(m.actors, a.actor) < |m.actors| && t == FindActor(m.actors, a.target) < |m.actors|
              && i == FindItem(m.items, a.item) < |m.items| && m.items[i].charges > 0
  {
    hide FindActor;
    hide FindItem;
    at, t, i := 0, 0, 0;
    at := m.LocateActor(a.actor);
    if at == |m.actors| {
      return ActorNotFound, at, t, i;
    }
    if m.actors[at].status != Active {
      return ActorInactive, at, t, i;
    }
    t := m.LocateActor(a.target);
    if t == |m.actors| {
      return TargetNotFound, at, t, i;
    }
    if m.actors[t].status != KnockedOut {
      return TargetUnavailable, at, t, i;
    }
    if m.actors[t].location != m.actors[at].location {
      return NotSameLocation, at, t, i;
    }
    i := m.LocateItem(a.item);
    if i == |m.items| {
      return ItemNotFound, at, t, i;
    }
    if m.items[i].kind != POTION || m.items[i].holder != a.actor || m.items[i].charges == 0 {
      return ItemNotAvailable, at, t, i;
    }
    reason := if a.content != a.actor && a.content != a.target then InvalidAction else NoReason;
  }

  method Revive(m: WorldState, a: Action, at: nat, t: nat)
    requires RescueRefusal(m.Now(), a) == NoReason
    requires at == FindActor(m.actors, a.actor) < |m.actors| && t == FindActor(m.actors, a.target) < |m.actors|
    modifies m`actors
    ensures m.Now() == RevivePair(old(m.Now()), a)
  {
    assert m.actors[at].status == Active && m.actors[t].status == KnockedOut;
    hide RescueRefusal;
    var risen := m.actors[t];
    m.actors := m.actors[t := risen.(damage := 0, status := Active,
                                     conditions := risen.conditions.(unconscious := false),
                                     kind := if a.content == a.actor then Npc else Human)];
    m.actors := m.actors[at := m.actors[at].(kind := if a.content == a.actor then Human else Npc)];
  }

  method CompleteRescue(m: WorldState, a: Action, out: EventBuffer?) returns (status: Status)
    modifies m, out
    ensures m.Did(old(m.LogOf(out)), ApplyCompleteRescue(old(m.Now()), a), status, out)
  {
    hide WorldState.Did;
    hide FindActor;
    hide FindItem;
    hide RescueRefusal;
    hide RevivePair;
    hide SpendCharge;
    var reason, at, t, i := CheckRescue(m, a);
    if reason != NoReason {
      status := m.Refuse(reason, out);
      return;
    }
    FinishRescue(m, a, at, t, i, out);
    status := Success;
    m.Conclude(old(m.LogOf(out)), ApplyCompleteRescue(old(m.Now()), a), status, out);
  }

  method FinishRescue(m: WorldState, a: Action, at: nat, t: nat, i: nat, out: EventBuffer?)
    requires RescueRefusal(m.Now(), a) == NoReason
    requires at == FindActor(m.actors, a.actor) < |m.actors| && t == FindActor(m.actors, a.target) < |m.actors|
    requires i == FindItem(m.items, a.item) < |m.items| && m.items[i].charges > 0
    modifies m, out
    ensures HasItem(old(m.Now()), a.item) && GetItem(old(m.Now()), a.item).charges > 0
    ensures m.Now() == PutItem(RevivePair(old(m.Now()), a), SpendCharge(GetItem(old(m.Now()), a.item)))
    ensures m.LogOf(out) == AppendAll(old(m.LogOf(out)), [ItemUsed, RescueCompleted, AvatarReleased])
  {
    hide RescueRefusal;
    hide RevivePair;
    hide SpendCharge;
    hide FindActor;
    hide FindItem;
    Revive(m, a, at, t);
    Spend(m, i);
    EmitRescue(m, out);
  }

  method EmitRescue(m: WorldState, out: EventBuffer?)
    modifies m`nextSeq, out
    ensures m.LogOf(out) == AppendAll(old(m.LogOf(out)), [ItemUsed, RescueCompleted, AvatarReleased])
  {
    ghost var log := m.LogOf(out);
    AppendPair(log, ItemUsed, RescueCompleted);
    m.Emit(ItemUsed, out);
    m.Emit(RescueCompleted, out);
    AppendOne(m.LogOf(out), AvatarReleased);
    AppendAllConcat(log, [ItemUsed, RescueCompleted], [AvatarReleased]);
    m.Emit(AvatarReleased, out);
  }

  method CheckReplacement(m: WorldState, a: Action) returns (reason: Reason, t: nat, i: nat)
    ensures reason == ReplaceRefusal(m.Now(), a)
    ensures reason == NoReason ==>
              t == FindActor(m.actors, a.target) < |m.actors| && i == FindItem(m.items, a.item) < |m.items|
  {
    hide FindActor;
    hide FindItem;
    t, i := 0, 0;
    var l := m.LocateLocation(StartingLocation(a));
    if l == |m.locations| {
      return LocationNotFound, t, i;
    }
    var at := m.LocateActor(a.actor);
    if at < |m.actors| {
      return InvalidAction, t, i;
    }
    t := m.LocateActor(a.target);
    var c := m.LocateActor(a.content);
    if t == |m.actors| || c == |m.actors| {
      return TargetNotFound, t, i;
    }
    i := m.LocateItem(a.item);
    if i == |m.items| {
      return ItemNotFound, t, i;
    }
    if m.items[i].kind != POTION {
      return ItemNotAvailable, t, i;
    }
    reason := if m.actors[t].status != KnockedOut || m.actors[c].status != KnockedOut || a.target == a.content
              then TargetUnavailable else NoReason;
  }

  method ReplaceRescuer(m: WorldState, a: Action, seed: Seed, out: EventBuffer?) returns (status: Status)
    modifies m, out
    ensures m.Did(old(m.LogOf(out)), ApplyReplaceRescuer(old(m.Now()), a, seed), status, out)
  {
    hide WorldState.Did;
    hide FindActor;
    hide FindItem;
    hide ReplaceRefusal;
    hide ReplaceActors;
    var reason, t, i := CheckReplacement(m, a);
    if reason != NoReason {
      status := m.Refuse(reason, out);
      return;
    }
    if |m.actors| >= MAX_ACTORS {
      m.Conclude(old(m.LogOf(out)), ApplyReplaceRescuer(old(m.Now()), a, seed), ErrFull, out);
      return ErrFull;
    }
    Succeed(m, a, seed, t, i);
    EmitReplacement(m, out);
    status := Success;
    m.Conclude(old(m.LogOf(out)), ApplyReplaceRescuer(old(m.Now()), a, seed), status, out);
  }

  /** The fallen avatar dies, the new one arrives, the potion is spent. */
  method Succeed(m: WorldState, a: Action, seed: Seed, t: nat, i: nat)
    requires ReplaceRefusal(m.Now(), a) == NoReason
    requires t == FindActor(m.actors, a.target) < |m.actors| && i == FindItem(m.items, a.item) < |m.items|
    modifies m`actors, m`items
    ensures HasItem(old(m.Now()), a.item)
    ensures m.Now() == PutItem(ReplaceActors(old(m.Now()), a, seed),
                               ExhaustItem(GetItem(old(m.Now()), a.item).(charges := 0)))
  {
    hide NewActor;
    hide ReplaceRefusal;
    ghost var start := m.Now();
    m.actors := m.actors[t := m.actors[t].(status := Dead, kind := Npc)];
    m.actors := m.actors + [NewActor(a, seed)];
    assert ReplaceActors(start, a, seed) == m.Now();
    hide ReplaceActors;
    m.items := m.items[i := m.items[i].(charges := 0)];
    Exhaust(m, i);
  }

  method EmitReplacement(m: WorldState, out: EventBuffer?)
    modifies m`nextSeq, out
    ensures m.LogOf(out) == AppendAll(old(m.LogOf(out)), [CombatDeath, ActorCreated, ActorEnteredLocation])
  {
    ghost var log := m.LogOf(out);
    AppendOne(log, CombatDeath);
    m.Emit(CombatDeath, out);
    AppendAllConcat(log, [CombatDeath], [ActorCreated, ActorEnteredLocation]);
    assert [CombatDeath] + [ActorCreated, ActorEnteredLocation] == [CombatDeath, ActorCreated, ActorEnteredLocation];
    EmitArrival(m, out);
  }

  // ------------------------------------------------------- speech and checks

  method Speak(m: WorldState, a: Action, out: EventBuffer?) returns (status: Status)
    modifies m, out
    ensures m.Did(old(m.LogOf(out)), ApplySay(old(m.Now()), a), status, out)
  {
    hide WorldState.Did;
    hide FindActor;
    hide FindItem;
    var at;
    status, at := m.RequireActive(a.actor, out);
    if status != Success {
      return;
    }
    AppendOne(m.LogOf(out), MessageCreated);
    m.Emit(MessageCreated, out);
    m.Conclude(old(m.LogOf(out)), ApplySay(old(m.Now()), a), status, out);
  }

  method PushProject(m: WorldState, a: Action, out: EventBuffer?) returns (status: Status)
    modifies m, out
    ensures m.Did(old(m.LogOf(out)), ApplyProjectPush(old(m.Now()), a), status, out)
  {
    hide WorldState.Did;
    hide FindActor;
    hide FindItem;
    hide PushProgress;
    var at;
    status, at := m.RequireActive(a.actor, out);
    if status != Success {
      return;
    }
    if PushProgress(a.push) == 0 {
      status := m.Refuse(InvalidAction, out);
      return;
    }
    AppendOne(m.LogOf(out), ProjectPushResolved);
    m.Emit(ProjectPushResolved, out);
    m.Conclude(old(m.LogOf(out)), ApplyProjectPush(old(m.Now()), a), status, out);
  }

  method RollCheck(m: WorldState, a: Action, seed: Seed, out: EventBuffer?) returns (status: Status)
    modifies m, out
    ensures m.Did(old(m.LogOf(out)), ApplyAbilityCheck(old(m.Now()), a, seed), status, out)
  {
    hide WorldState.Did;
    hide FindActor;
    hide FindItem;
    hide CheckTotal;
    var at;
    status, at := m.RequireActive(a.actor, out);
    if status != Success {
      return;
    }
    if a.rollMode > ROLL_DISADVANTAGE || a.dc > I16_MAX {
      status := m.Refuse(InvalidAction, out);
      return;
    }
    var kind := AbilityCheckRolled(CheckTotal(m.actors[at], a, seed) >= if a.dc != 0 then a.dc else 10);
    AppendOne(m.LogOf(out), kind);
    m.Emit(kind, out);
    m.Conclude(old(m.LogOf(out)), ApplyAbilityCheck(old(m.Now()), a, seed), status, out);
  }

  method CheckPlace(m: WorldState, a: Action, here: Id) returns (reason: Reason)
    ensures reason == if a.location == 0 || a.location != here || !LocationExists(m.Now(), a.location)
                      then NotSameLocation else NoReason
  {
    var l := m.LocateLocation(a.location);
    reason := if a.location == 0 || a.location != here || l == |m.locations| then NotSameLocation else NoReason;
  }

  method Discover(m: WorldState, a: Action, seed: Seed, event: EventKind, out: EventBuffer?) returns (status: Status)
    modifies m, out
    ensures m.Did(old(m.LogOf(out)), ApplyDiscovery(old(m.Now()), a, seed, event), status, out)
  {
    hide FindActor;
    hide LocationExists;
    hide ApplyAbilityCheck;
    CheckOnlyReports(m.Now(), a, seed);
    ghost var check, log := ApplyAbilityCheck(m.Now(), a, seed), m.LogOf(out);
    var at;
    status, at := m.RequireActive(a.actor, out);
    if status != Success {
      return;
    }
    var reason := CheckPlace(m, a, m.actors[at].location);
    if reason != NoReason {
      status := m.Refuse(reason, out);
      return;
    }
    if a.dc != 0 {
      status := RollCheck(m, a, seed, out);
      if status != Success {
        return;
      }
      AppendAllConcat(log, check.events, [event]);
    }
    AppendOne(m.LogOf(out), event);
    m.Emit(event, out);
  }

  lemma CheckOnlyReports(w: World, a: Action, seed: Seed)
    ensures ApplyAbilityCheck(w, a, seed).world == w
  {}

  // ------------------------------------------------------------------ travel

  method CheckMove(m: WorldState, a: Action, actor: Actor) returns (reason: Reason)
    requires Known(m.Now(), a.actor) && actor == GetActor(m.Now(), a.actor)
    ensures reason == MoveRefusal(m.Now(), a)
  {
    hide FindActor;
    hide FindItem;
    hide CrossingOf;
    var l := m.LocateLocation(a.destination);
    if a.destination == 0 || l == |m.locations| {
      return LocationNotFound;
    }
    if a.destination == actor.location {
      return InvalidAction;
    }
    var x := m.LocateExit(actor.location, a.destination);
    if x == |m.exits| {
      return NoExit;
    }
    var c := CheckCrossing(m, a.actor, m.exits[x], a.threshold);
    reason := CrossingReason(c);
  }

  method Travel(m: WorldState, a: Action, out: EventBuffer?) returns (status: Status)
    modifies m, out
    ensures m.Did(old(m.LogOf(out)), ApplyMove(old(m.Now()), a), status, out)
  {
    hide WorldState.Did;
    hide FindActor;
    hide FindItem;
    hide MoveRefusal;
    var at;
    status, at := m.RequireActive(a.actor, out);
    if status != Success {
      return;
    }
    var reason := CheckMove(m, a, m.actors[at]);
    var kind := if reason != NoReason then MoveBlocked(reason) else ActorMoved;
    AppendOne(m.LogOf(out), kind);
    m.Emit(kind, out);
    if reason != NoReason {
      m.Conclude(old(m.LogOf(out)), ApplyMove(old(m.Now()), a), ErrRule, out);
      return ErrRule;
    }
    m.actors := m.actors[at := m.actors[at].(location := a.destination)];
    m.Conclude(old(m.LogOf(out)), ApplyMove(old(m.Now()), a), status, out);
  }

  method CheckFlight(m: WorldState, a: Action, actor: Actor) returns (reason: Reason)
    requires Known(m.Now(), a.actor) && actor == GetActor(m.Now(), a.actor)
    ensures reason == FleeRefusal(m.Now(), a)
  {
    hide MoveRefusal;
    hide FindActor;
    var l := m.LocateLocation(actor.location);
    if l == |m.locations| || !m.locations[l].allowCombat {
      return CombatNotAllowed;
    }
    reason := CheckMove(m, a, actor);
  }

  method RunAway(m: WorldState, a: Action, out: EventBuffer?) returns (status: Status)
    modifies m, out
    ensures m.Did(old(m.LogOf(out)), ApplyFlee(old(m.Now()), a), status, out)
  {
    hide WorldState.Did;
    hide FindActor;
    hide FleeRefusal;
    var at;
    status, at := m.RequireActive(a.actor, out);
    if status != Success {
      return;
    }
    var actor := m.actors[at];
    var reason := CheckFlight(m, a, actor);
    if reason != NoReason {
      status := m.Refuse(reason, out);
      return;
    }
    m.actors := m.actors[at := actor.(location := a.destination,
                                      conditions := actor.conditions.(defending := false, hidden := false))];
    AppendOne(m.LogOf(out), FleeSuccess);
    m.Emit(FleeSuccess, out);
    m.Conclude(old(m.LogOf(out)), ApplyFlee(old(m.Now()), a), status, out);
  }

  method CheckUnlock(m: WorldState, a: Action) returns (reason: Reason, x: nat)
    ensures reason == UnlockRefusal(m.Now(), a)
    ensures reason == NoReason ==> x == FindExit(m.exits, a.location, a.destination) < |m.exits|
  {
    hide FirstIndex;
    var from := m.LocateLocation(a.location);
    var to := m.LocateLocation(a.destination);
    x := |m.exits|;
    if from == |m.locations| || to == |m.locations| {
      return LocationNotFound, x;
    }
    x := m.LocateExit(a.location, a.destination);
    if x == |m.exits| {
      return NoExit, x;
    }
    var g := m.LocateExitGate(a.location, a.destination);
    if g < |m.gates| {
      return StaleGateOffer, x;
    }
    reason := if m.exits[x].locked then NoReason else InvalidAction;
  }

  method Unlock(m: WorldState, a: Action, out: EventBuffer?) returns (status: Status)
    modifies m, out
    ensures m.Did(old(m.LogOf(out)), ApplyUnlock(old(m.Now()), a), status, out)
  {
    hide WorldState.Did;
    hide FindExit;
    hide UnlockRefusal;
    var reason, x := CheckUnlock(m, a);
    if reason != NoReason {
      status := m.Refuse(reason, out);
      return;
    }
    m.exits := m.exits[x := m.exits[x].(locked := false)];
    AppendOne(m.LogOf(out), ExitUnlocked);
    m.Emit(ExitUnlocked, out);
    status := Success;
    m.Conclude(old(m.LogOf(out)), ApplyUnlock(old(m.Now()), a), status, out);
  }

  // ------------------------------------------------------- unordered combat

  method Guard(m: WorldState, a: Action, out: EventBuffer?) returns (status: Status)
    modifies m, out
    ensures m.Did(old(m.LogOf(out)), ApplyDefend(old(m.Now()), a), status, out)
  {
    hide WorldState.Did;
    hide FindActor;
    hide FindItem;
    var at;
    status, at := m.RequireActive(a.actor, out);
    if status != Success {
      return;
    }
    m.actors := m.actors[at := m.actors[at].(conditions := m.actors[at].conditions.(defending := true))];
    AppendOne(m.LogOf(out), CombatDefended);
    m.Emit(CombatDefended, out);
    m.Conclude(old(m.LogOf(out)), ApplyDefend(old(m.Now()), a), status, out);
  }

  method CheckAttack(m: WorldState, a: Action, actor: Actor) returns (reason: Reason, t: nat)
    requires Known(m.Now(), a.actor) && actor == GetActor(m.Now(), a.actor)
    ensures reason == AttackRefusal(m.Now(), a)
    ensures reason == NoReason ==> t == FindActor(m.actors, a.target) < |m.actors|
  {
    hide FindActor;
    hide FindItem;
    t := |m.actors|;
    if a.rollMode > ROLL_DISADVANTAGE {
      return InvalidAction, t;
    }
    if a.actor == a.target {
      return SelfTarget, t;
    }
    t := m.LocateActor(a.target);
    if t == |m.actors| {
      return TargetNotFound, t;
    }
    if m.actors[t].status != Active {
      return TargetUnavailable, t;
    }
    if m.actors[t].location != actor.location {
      return NotSameLocation, t;
    }
    var l := m.LocateLocation(actor.location);
    reason := if l == |m.locations| || !m.locations[l].allowCombat then CombatNotAllowed else NoReason;
  }

  method RollAttack(m: WorldState, a: Action, seed: Seed, at: nat, t: nat) returns (blow: Blow)
    requires at == FindActor(m.actors, a.actor) < |m.actors| && t == FindActor(m.actors, a.target) < |m.actors|
    ensures blow == ResolveAttack(m.Now(), a, seed)
  {
    hide FindActor;
    hide FindItem;
    hide RollD20;
    hide RollDie;
    hide ToI16;
    hide AbilityModifier;
    hide CurrentHp;
    var attacker, defender := m.actors[at], m.actors[t];
    var raw := RollD20(seed, 1, a.rollMode);
    var modifier := AbilityModifier(attacker.stats.strength);
    var ac := ToI16(10 + AbilityModifier(defender.stats.dexterity));
    if defender.conditions.defending {
      ac := ac + 2;
    }
    if !(raw == 20 || (raw != 1 && ToI16(raw + modifier) >= ac)) {
      return Miss;
    }
    var dice := RollDie(seed, 2, 8);
    if raw == 20 {
      dice := dice + RollDie(seed, 3, 8);
    }
    var damage := ToI16(dice + modifier);
    if damage < 1 {
      damage := 1;
    }
    blow := Hit(damage, damage >= CurrentHp(defender));
  }

  method AttackOnce(m: WorldState, a: Action, seed: Seed, out: EventBuffer?) returns (status: Status)
    modifies m, out
    ensures m.Did(old(m.LogOf(out)), ApplyAttack(old(m.Now()), a, seed), status, out)
  {
    hide WorldState.Did;
    hide FindActor;
    hide FindItem;
    hide AttackRefusal;
    hide ResolveAttack;
    hide Strike;
    hide BlowEvents;
    var at;
    status, at := m.RequireActive(a.actor, out);
    if status != Success {
      return;
    }
    var reason, t := CheckAttack(m, a, m.actors[at]);
    if reason != NoReason {
      status := m.Refuse(reason, out);
      return;
    }
    var blow := RollAttack(m, a, seed, at, t);
    ghost var start := m.Now();
    StrikeTarget(m, t, a.target, blow);
    StrikeKeepsPlaces(start, a.target, blow);
    m.actors := m.actors[t := m.actors[t].(conditions := m.actors[t].conditions.(defending := false))];
    EmitBlow(m, blow, out);
    m.Conclude(old(m.LogOf(out)), ApplyAttack(old(m.Now()), a, seed), status, out);
  }

  lemma StrikeKeepsPlaces(w: World, target: Id, blow: Blow)
    requires Known(w, target)
    ensures var r := Strike(w, target, blow);
            |r.actors| == |w.actors| && FindActor(r.actors, target) == FindActor(w.actors, target)
  {
    hide FirstIndex;
  }
}
