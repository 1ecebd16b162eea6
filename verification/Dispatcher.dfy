/**
  The dispatcher: claim replay, the combat gate, the tick, the rule for each
  action kind, the revision bump, and runs of calls.
 */
module Dispatcher {
  import opened KernelTypes
  import opened Lookup
  import opened GateRules
  import opened ItemRules
  import opened CombatRules
  import opened ActorRules

  /** One call: the action, its seed, whether the clock advances, and whether
      the caller passed an event buffer. */
  datatype Call = Call(action: Action, seed: Seed, advance: bool, buffered: bool)

  predicate AllowedInCombat(kind: ActionKind) {
    || kind == Say || kind == UnlockExit || kind == RevealItem
    || kind == CombatAttack || kind == CombatFinesseAttack || kind == CombatDodge
    || kind == CombatEscape || kind == CombatPass || kind == CombatAbandon || kind == CombatNeedTime
  }

  predicate IsItemRule(kind: ActionKind) {
    || kind == PickUpItem || kind == DropItem || kind == GiveItem || kind == TradeItem
    || kind == UseItem || kind == RulesUtilizeItem || kind == RulesMagic || kind == Rest
    || kind == Theft || kind == Search || kind == RevealItem || kind == Craft
  }

  function ApplyItemRule(w: World, c: Call): Outcome
    requires IsItemRule(c.action.kind)
  {
    var a := c.action;
    match a.kind
    case PickUpItem => ApplyPickUp(w, a)
    case DropItem => ApplyDrop(w, a)
    case GiveItem => ApplyGive(w, a)
    case TradeItem => ApplyTrade(w, a)
    case UseItem => ApplyUseItem(w, a)
    case RulesUtilizeItem => ApplyUtilize(w, a)
    case RulesMagic => ApplyMagic(w, a)
    case Rest => ApplyRest(w, a, c.buffered)
    case Theft => ApplyTheft(w, a, c.seed)
    case Search => ApplySearch(w, a)
    case RevealItem => ApplyReveal(w, a)
    case Craft => ApplyCraft(w, a)
  }

  predicate IsCombatRule(kind: ActionKind) {
    || kind == CombatStart || kind == CombatJoin || kind == CombatAttack || kind == CombatFinesseAttack
    || kind == CombatDodge || kind == CombatEscape || kind == CombatPass || kind == CombatNeedTime
    || kind == CombatAbandon
  }

  function ApplyCombatRule(w: World, c: Call): Outcome
    requires IsCombatRule(c.action.kind)
  {
    var a := c.action;
    match a.kind
    case CombatStart => ApplyStart(w, a, c.seed)
    case CombatJoin => ApplyJoin(w, a, c.seed)
    case CombatAttack => ApplyCombatAttack(w, a, c.seed, false)
    case CombatFinesseAttack => ApplyCombatAttack(w, a, c.seed, true)
    case CombatDodge => ApplyDodge(w, a)
    case CombatEscape => ApplyEscape(w, a)
    case CombatPass => ApplyPass(w, a)
    case CombatNeedTime => ApplyNeedTime(w, a)
    case CombatAbandon => ApplyAbandon(w, a)
  }

  predicate IsActorRule(kind: ActionKind) {
    || kind == CreateActor || kind == CompleteAvatarRescue || kind == ReplaceAvatarRescuer
    || kind == Move || kind == Flee || kind == Attack || kind == Defend || kind == UnlockExit
  }

  function ApplyActorRule(w: World, c: Call): Outcome
    requires IsActorRule(c.action.kind)
  {
    var a, seed := c.action, c.seed;
    match a.kind
    case CreateActor => ApplyCreateActor(w, a, seed)
    case CompleteAvatarRescue => ApplyCompleteRescue(w, a)
    case ReplaceAvatarRescuer => ApplyReplaceRescuer(w, a, seed)
    case Move => ApplyMove(w, a)
    case Flee => ApplyFlee(w, a)
    case Attack => ApplyAttack(w, a, seed)
    case Defend => ApplyDefend(w, a)
    case UnlockExit => ApplyUnlock(w, a)
  }

  /** The remaining kinds only report; an unknown kind is refused. */
  function ApplyReport(w: World, c: Call): (o: Outcome)
    ensures o.world == w
  {
    var a, seed := c.action, c.seed;
    match a.kind
    case Say => ApplySay(w, a)
    case AbilityCheck => ApplyAbilityCheck(w, a, seed)
    case RulesSearch => ApplyAbilityCheck(w, a, seed)
    case RulesStudy => ApplyAbilityCheck(w, a, seed)
    case RulesInfluence => ApplyAbilityCheck(w, a, seed)
    case ProjectPush => ApplyProjectPush(w, a)
    case FocusedNotice => ApplyDiscovery(w, a, seed, NoticeCommitted)
    case SearchV2 => ApplyDiscovery(w, a, seed, SearchCommitted)
    case StudyV2 => ApplyDiscovery(w, a, seed, StudyCommitted)
    case ScoutV2 => ApplyDiscovery(w, a, seed, ScoutCommitted)
    case _ => Reject(w, InvalidAction)
  }

  /** The rule for the action's kind. */
  function ApplyRule(w: World, c: Call): Outcome {
    if IsItemRule(c.action.kind) then ApplyItemRule(w, c)
    else if IsCombatRule(c.action.kind) then ApplyCombatRule(w, c)
    else if c.action.kind == GateTransition then ApplyGateTransition(w, c.action, c.seed)
    else if IsActorRule(c.action.kind) then ApplyActorRule(w, c)
    else ApplyReport(w, c)
  }

  /** The action names a claim that the ledger already holds. */
  predicate NamesRecordedClaim(claims: seq<Claim>, a: Action) {
    a.kind == GateTransition && a.threshold.claim != 0 && FindClaim(claims, a.threshold.claim) < |claims|
  }

  /** The action repeats a recorded claim in all its five fields. */
  predicate IsRetry(claims: seq<Claim>, a: Action) {
    NamesRecordedClaim(claims, a) && MatchesClaim(claims[FindClaim(claims, a.threshold.claim)], a)
  }

  predicate BarredByCombat(w: World, a: Action) {
    Engaged(w, a.actor) && !AllowedInCombat(a.kind)
  }

  /** The whole entry point, on values. */
  function Step(w: World, c: Call): Outcome {
    var a := c.action;
    if NamesRecordedClaim(w.claims, a) then
      if IsRetry(w.claims, a) then Outcome(Success, w, []) else Reject(w, GateClaimConflict)
    else if BarredByCombat(w, a) then Reject(w, CombatActionRequired)
    else
      var o := ApplyRule(if c.advance then w.(tick := Next64(w.tick)) else w, c);
      var timed := if o.status != Success && c.advance then o.world.(tick := w.tick) else o.world;
      Outcome(o.status,
              if o.status == Success && a.kind != GateTransition then RaiseRevision(timed) else timed,
              o.events)
  }

  /** The event log after one call: the buffer is cleared, then filled. */
  function StepLog(w: World, nextSeq: nat, c: Call): Log {
    AppendAll(Log(nextSeq, c.buffered, []), Step(w, c).events)
  }

  // -------------------------------------------------------------------- runs

  /** The kernel's state between calls: the world and its sequence counter. */
  datatype Kernel = Kernel(world: World, nextSeq: nat)

  function Advance(k: Kernel, c: Call): Kernel {
    Kernel(Step(k.world, c).world, StepLog(k.world, k.nextSeq, c).nextSeq)
  }

  function Run(k: Kernel, calls: seq<Call>): Kernel
    decreases |calls|
  {
    if calls == [] then k else Run(Advance(k, calls[0]), calls[1..])
  }

  /** Every event a run writes, in order. */
  function Trace(k: Kernel, calls: seq<Call>): seq<Event>
    decreases |calls|
  {
    if calls == [] then []
    else StepLog(k.world, k.nextSeq, calls[0]).events + Trace(Advance(k, calls[0]), calls[1..])
  }
}
