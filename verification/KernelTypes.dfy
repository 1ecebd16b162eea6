/**
  The value model of the rules kernel: one datatype per record of the C world,
  with every counted array as a sequence.  Identifiers and byte-sized codes that
  arrive from callers are natural numbers, so that malformed codes are inputs
  like any other; codes that only the kernel writes are enumerations.
 */
module KernelTypes {

  type Id = nat

  const U64_MAX: nat := 0xFFFF_FFFF_FFFF_FFFF
  const U16_MAX: nat := 0xFFFF
  const I16_MAX: nat := 0x7FFF

  const MAX_ACTORS: nat := 2048
  const MAX_ITEMS: nat := 1024
  const MAX_TRACKS: nat := 128
  const MAX_EVENTS: nat := 256
  const MAX_ENCOUNTERS: nat := 32
  const MAX_PARTICIPANTS: nat := 16
  const MAX_GATES: nat := 32
  const MAX_METHODS: nat := 8
  const MAX_PREDICATES: nat := 8
  const MAX_METHOD_RECORDS: nat := 64
  const MAX_PREDICATE_RECORDS: nat := 256
  const MAX_FACTS: nat := 8
  const MAX_ACTOR_STATES: nat := 128
  const MAX_CLAIMS: nat := 128

  /** Two's-complement truncation to sixteen bits, the kernel's arithmetic width. */
  function ToI16(n: int): int {
    if -0x8000 <= n < 0x8000 then n else (n + 0x8000) % 0x1_0000 - 0x8000
  }

  /** An unsigned 64-bit counter that wraps. */
  function Next64(n: nat): nat {
    if n == U64_MAX then 0 else n + 1
  }

  /** An unsigned 64-bit revision that saturates. */
  function Raise64(n: nat): nat {
    if n == U64_MAX then U64_MAX else n + 1
  }

  // ---------------------------------------------------------------- records

  datatype Status = Success | ErrInvalid | ErrFull | ErrNotFound | ErrRule

  datatype Reason =
    | NoReason | InvalidAction | ActorNotFound | ActorInactive | LocationNotFound
    | ItemNotFound | ItemNotAvailable | TargetNotFound | TargetUnavailable
    | NotSameLocation | CombatNotAllowed | SelfTarget | NoExit | ExitLocked
    | EncounterNotFound | EncounterFull | NotParticipant | NotCurrentTurn
    | NotHostile | EncounterActive | CombatActionRequired | CapacityExceeded
    | RestGradeOverclaimed | GateClosed | StaleGateOffer | GateClaimConflict

  datatype ActorKind = NoKind | Human | Npc

  datatype ActorStatus = NoStatus | Active | KnockedOut | Dead

  datatype Stats = Stats(
    strength: int, dexterity: int, constitution: int,
    intelligence: int, wisdom: int, charisma: int,
    hpBase: int, level: nat)

  datatype Conditions = Conditions(
    hidden: bool, defending: bool, unconscious: bool, dodging: bool)

  const NO_CONDITIONS := Conditions(false, false, false, false)

  datatype Actor = Actor(
    id: Id, kind: ActorKind, status: ActorStatus, location: Id,
    stats: Stats, damage: int, conditions: Conditions)

  datatype Location = Location(id: Id, allowCombat: bool)

  datatype Exit = Exit(from: Id, to: Id, locked: bool)

  datatype Zone =
    | NoZone | WorldZone | Carried | Equipped | SpellDeck
    | Exhausted | Contained | Escrow | Installed

  datatype Item = Item(
    id: Id, kind: nat, charges: nat, maxCharges: nat,
    weight: nat, containerCapacity: nat, sizeClass: nat, role: nat,
    zone: Zone, flags: nat, restRecovery: bool, recoveryZone: Zone,
    location: Id, holder: Id, container: Id, heldSince: nat)

  const POTION: nat := 1

  const ROLE_GENERIC: nat := 0
  const ROLE_CONSUMABLE: nat := 1
  const ROLE_WEAPON: nat := 2
  const ROLE_SKILL_CHARM: nat := 3
  const ROLE_SPELL: nat := 4
  const ROLE_CONTAINER: nat := 5
  const ROLE_RELIC: nat := 7

  const SIZE_TINY: nat := 1
  const SIZE_SMALL: nat := 2
  const SIZE_LARGE: nat := 4

  const DEFAULT_WEIGHT: nat := 10

  datatype Requirement = InHand(item: Id, actor: Id) | OnFloor(item: Id, location: Id)

  datatype Track = Track(actor: Id, requirements: seq<Requirement>)

  datatype Participant = Participant(actor: Id, side: nat, escaped: bool, initiative: int)

  datatype EncounterStatus = NoEncounter | Ongoing | Resolved

  datatype Encounter = Encounter(
    id: Id, location: Id, status: EncounterStatus,
    current: nat, round: nat, participants: seq<Participant>)

  // ------------------------------------------------------------------ gates

  datatype GateTarget = ExitTarget | ContainerTarget

  datatype GateScope = WorldScope | ActorScope | ExpeditionScope | HolderScope

  datatype GateState = NoState | Closed | Open | Broken | InertState

  datatype Gate = Gate(
    id: Id, version: nat, descriptorVersion: nat,
    target: GateTarget, scope: GateScope, state: GateState, recordedLock: bool,
    from: Id, to: Id, targetItem: Id,
    methodStart: nat, methodCount: nat)

  datatype GateMethod = GateMethod(id: Id, predicateStart: nat, predicateCount: nat)

  datatype PredicateKind =
    | UnknownPredicate | HeldItem | HeldItemCapability | InstalledItem
    | MinimumCharges | ActorFact | WorldFact

  datatype Predicate = Predicate(
    kind: PredicateKind, amount: nat, subject: Id, target: Id, fact: Id, expected: nat)

  datatype Fact = Fact(subject: Id, fact: Id, value: nat, sourceVersion: nat)

  datatype GateActorState = GateActorState(gate: Id, actor: Id, version: nat, state: GateState)

  datatype Claim = Claim(
    id: Id, gate: Id, actor: Id, item: Id, methodId: Id, transition: nat, failedMethod: bool)

  datatype Decision = Decision(
    gate: Id, methodId: Id, gateVersion: nat, accessRevision: nat,
    digest: nat, mask: set<nat>, reason: Reason, state: GateState, allowed: bool)

  const NO_DECISION := Decision(0, 0, 0, 0, 0, {}, NoReason, NoState, false)

  const TRANSITION_OPEN: nat := 1
  const TRANSITION_CLOSE: nat := 2
  const TRANSITION_BREAK: nat := 3
  const TRANSITION_RELOCK: nat := 4
  const TRANSITION_INSTALL: nat := 5
  const TRANSITION_REMOVE: nat := 6
  const TRANSITION_EXHAUST: nat := 7
  const TRANSITION_RENDER_INERT: nat := 8

  const RESOLUTION_SRD_CHECK: nat := 1
  const RESOLUTION_AVOIDANCE_CHECK: nat := 3

  // ------------------------------------------------------------------ world

  /** The world record, except the version constant and the event sequence
      counter, which travels with the event log below. */
  datatype World = World(
    tick: nat,
    actors: seq<Actor>,
    items: seq<Item>,
    locations: seq<Location>,
    exits: seq<Exit>,
    tracks: seq<Track>,
    encounters: seq<Encounter>,
    accessRevision: nat,
    gates: seq<Gate>,
    gateMethods: seq<GateMethod>,
    gatePredicates: seq<Predicate>,
    gateActorStates: seq<GateActorState>,
    claims: seq<Claim>)

  // ---------------------------------------------------------------- actions

  datatype ActionKind =
    | CreateActor | Say | Move | AbilityCheck | PickUpItem | UseItem | Attack | Defend
    | GiveItem | Flee | DropItem | TradeItem | Search | Craft
    | CombatStart | CombatJoin | CombatAttack | CombatDodge | CombatEscape
    | CombatFinesseAttack | RulesSearch | RulesStudy | RulesMagic | RulesInfluence
    | Theft | CombatPass | CombatNeedTime | UnlockExit | RevealItem | RulesUtilizeItem
    | ProjectPush | Rest | CombatAbandon | GateTransition
    | FocusedNotice | SearchV2 | StudyV2 | ScoutV2
    | CompleteAvatarRescue | ReplaceAvatarRescuer
    | UnknownAction

  datatype Threshold = Threshold(
    gate: Id, methodId: Id, claim: Id,
    expectedVersion: nat, expectedRevision: nat, expectedDigest: nat,
    facts: seq<Fact>, transition: nat, resolution: nat)

  const NO_THRESHOLD := Threshold(0, 0, 0, 0, 0, 0, [], 0, 0)

  datatype PushInput = PushInput(
    baseProgress: nat, preparedBonus: nat, prepared: nat,
    evidenceCount: nat, locationCount: nat, remainingProgress: nat)

  const PERSISTS: nat := 0
  const CONSUMED: nat := 1
  const EXHAUSTS: nat := 2
  const TRANSFORMED: nat := 3

  const ACTOR_HAND: nat := 1
  const LOCATION_FLOOR: nat := 2
  const LOCATION_FIXTURE: nat := 3

  const ROLL_NORMAL: nat := 0
  const ROLL_ADVANTAGE: nat := 1
  const ROLL_DISADVANTAGE: nat := 2

  datatype Action = Action(
    kind: ActionKind,
    ability: nat, dc: nat,
    actor: Id, target: Id, location: Id, destination: Id, content: Id,
    item: Id, targetItem: Id, output: Id, outputTarget: Id,
    modifier: int,
    outputTargetKind: nat, outputKind: nat, outputCharges: nat,
    rollMode: nat, itemDisposition: nat, targetDisposition: nat,
    outputWeight: nat, outputCapacity: nat, outputSize: nat, outputRole: nat,
    push: PushInput,
    restRequested: nat, restEntitled: nat,
    threshold: Threshold)

  /** An action of the given kind by the given actor with every other field zero. */
  function PlainAction(kind: ActionKind, actor: Id): Action {
    Action(kind, 0, 0, actor, 0, 0, 0, 0, 0, 0, 0, 0, 0, 0, 0, 0, 0, 0, 0, 0, 0, 0, 0,
           PushInput(0, 0, 0, 0, 0, 0), 0, 0, NO_THRESHOLD)
  }

  // ----------------------------------------------------------------- events

  datatype EventKind =
    | ActorCreated | ActorEnteredLocation | MessageCreated | MoveBlocked(block: Reason)
    | AbilityCheckRolled(passed: bool) | ItemPickedUp | ItemUsed | CombatDefended
    | AttackAttempt | AttackHit | AttackMiss | KnockedOutEvent
    | RuleRejected(reason: Reason) | ActorMoved | ItemGiven | AvatarEvolved(evolved: Id)
    | FleeSuccess | ItemDropped | ItemTraded | ItemFound | ItemCrafted | ItemCreated
    | EncounterStarted | ParticipantJoined | InitiativeRolled | TurnStarted | TurnEnded
    | Dodged | EncounterResolved | SpellCast | TheftAttempt | ItemStolen | Passed | NeededTime
    | ItemConsumed | ItemExhausted | ItemTransformed | ExitUnlocked | ItemRevealed
    | ProjectPushResolved | ItemRefreshed | GateTransitionApplied
    | ItemInstalled | ItemRemoved | ItemRenderedInert
    | NoticeCommitted | SearchCommitted | StudyCommitted | ScoutCommitted
    | RescueCompleted | AvatarReleased | CombatDeath

  datatype Event = Event(seqNo: nat, kind: EventKind)

  /** The caller's event buffer together with the world's sequence counter.
      `present` is false when the caller passed no buffer. */
  datatype Log = Log(nextSeq: nat, present: bool, events: seq<Event>)

  /** Appending is a no-op without a buffer and once the buffer is full. */
  function AppendEvent(log: Log, kind: EventKind): Log {
    if !log.present || |log.events| >= MAX_EVENTS then log
    else log.(nextSeq := Next64(log.nextSeq), events := log.events + [Event(log.nextSeq, kind)])
  }

  function AppendAll(log: Log, kinds: seq<EventKind>): Log
    decreases |kinds|
  {
    if kinds == [] then log else AppendAll(AppendEvent(log, kinds[0]), kinds[1..])
  }

  /** What one rule does: a status, the resulting world, and the events it
      appends, in order. */
  datatype Outcome = Outcome(status: Status, world: World, events: seq<EventKind>)

  function Reject(w: World, reason: Reason): Outcome {
    Outcome(ErrRule, w, [RuleRejected(reason)])
  }

  // ------------------------------------------------------------------- dice

  /** The deterministic generator behind a seed.  `draw` is the mixed value for a
      salt (the flag selects the second, advantage draw); `score` is the stream
      from which the six ability scores of a new actor are taken. */
  datatype Seed = Seed(draw: (nat, bool) -> nat, score: (Id, nat) -> nat)

  function RollDie(seed: Seed, salt: nat, sides: nat): (roll: int)
    requires sides > 0
    ensures 1 <= roll <= sides
  {
    seed.draw(salt, false) % sides + 1
  }

  function RollD20(seed: Seed, salt: nat, mode: nat): (roll: int)
    ensures 1 <= roll <= 20
  {
    var first := RollDie(seed, salt, 20);
    var second := seed.draw(salt, true) % 20 + 1;
    if mode == ROLL_NORMAL then first
    else if mode == ROLL_ADVANTAGE then (if first > second then first else second)
    else (if first < second then first else second)
  }

  function AbilityModifier(score: int): int {
    var diff := score - 10;
    if diff >= 0 then diff / 2 else -((-diff + 1) / 2)
  }

  function StatValue(stats: Stats, ability: nat): int {
    match ability
    case 0 => stats.strength
    case 1 => stats.dexterity
    case 2 => stats.constitution
    case 3 => stats.intelligence
    case 4 => stats.wisdom
    case 5 => stats.charisma
    case _ => 10
  }

  function GeneratedStats(seed: Seed, actor: Id): (s: Stats)
    ensures s.level == 1
  {
    var constitution := 8 + seed.score(actor, 2) % 9;
    var hp := 10 + AbilityModifier(constitution);
    Stats(8 + seed.score(actor, 0) % 9, 8 + seed.score(actor, 1) % 9, constitution,
          8 + seed.score(actor, 3) % 9, 8 + seed.score(actor, 4) % 9, 8 + seed.score(actor, 5) % 9,
          if hp < 1 then 1 else hp, 1)
  }

  function CurrentHp(actor: Actor): int {
    var hp := ToI16(actor.stats.hpBase - actor.damage);
    if hp > 0 then hp else 0
  }
}
