/**
  The entry points in place: one call, any number of calls, and the offers.
 */
module LiveKernel {
  import opened KernelTypes
  import opened Lookup
  import opened GateRules
  import opened ItemRules
  import opened CombatRules
  import opened ActorRules
  import opened Dispatcher
  import opened LiveState
  import opened LiveItems
  import opened LiveCraft
  import opened LiveGates
  import opened LiveCombat
  import opened LiveActors

  method DispatchItem(m: WorldState, a: Action, seed: Seed, out: EventBuffer?, ghost c: Call) returns (status: Status)
    requires IsItemRule(a.kind) && c.action == a && c.seed == seed && c.buffered == (out != null)
    modifies m, out
    ensures m.Did(old(m.LogOf(out)), ApplyItemRule(old(m.Now()), c), status, out)
  {
    hide ApplyPickUp;
    hide ApplyDrop;
    hide ApplyGive;
    hide ApplyTrade;
    hide ApplyUseItem;
    hide ApplyUtilize;
    hide ApplyMagic;
    hide ApplyRest;
    hide ApplyTheft;
    hide ApplySearch;
    hide ApplyReveal;
    hide ApplyCraft;
    match a.kind {
      case PickUpItem => status := PickUp(m, a, out);
      case DropItem => status := Drop(m, a, out);
      case GiveItem => status := Give(m, a, out);
      case TradeItem => status := Trade(m, a, out);
      case UseItem => status := UsePotion(m, a, out);
      case RulesUtilizeItem => status := Utilize(m, a, out);
      case RulesMagic => status := CastSpell(m, a, out);
      case Rest => status := RestUp(m, a, out);
      case Theft => status := Steal(m, a, seed, out);
      case Search => status := SearchPlace(m, a, out);
      case RevealItem => status := Reveal(m, a, out);
      case Craft => status := CraftItem(m, a, out);
    }
  }

  method DispatchCombat(m: WorldState, a: Action, seed: Seed, out: EventBuffer?, ghost c: Call) returns (status: Status)
    requires IsCombatRule(a.kind) && c.action == a && c.seed == seed
    modifies m, out
    ensures m.Did(old(m.LogOf(out)), ApplyCombatRule(old(m.Now()), c), status, out)
  {
    hide ApplyStart;
    hide ApplyJoin;
    hide ApplyCombatAttack;
    hide ApplyDodge;
    hide ApplyEscape;
    hide ApplyPass;
    hide ApplyNeedTime;
    hide ApplyAbandon;
    match a.kind {
      case CombatStart => status := Start(m, a, seed, out);
      case CombatJoin => status := Join(m, a, seed, out);
      case CombatAttack => status := StrikeInTurn(m, a, seed, false, out);
      case CombatFinesseAttack => status := StrikeInTurn(m, a, seed, true, out);
      case CombatDodge => status := Dodge(m, a, out);
      case CombatEscape => status := Escape(m, a, out);
      case CombatPass => status := PassTurn(m, a, out);
      case CombatNeedTime => status := NeedTime(m, a, out);
      case CombatAbandon => status := Abandon(m, a, out);
    }
  }

  method DispatchActor(m: WorldState, a: Action, seed: Seed, out: EventBuffer?, ghost c: Call) returns (status: Status)
    requires IsActorRule(a.kind) && c.action == a && c.seed == seed
    modifies m, out
    ensures m.Did(old(m.LogOf(out)), ApplyActorRule(old(m.Now()), c), status, out)
  {
    hide ApplyCreateActor;
    hide ApplyCompleteRescue;
    hide ApplyReplaceRescuer;
    hide ApplyMove;
    hide ApplyFlee;
    hide ApplyAttack;
    hide ApplyDefend;
    hide ApplyUnlock;
    match a.kind {
      case CreateActor => status := CreateAvatar(m, a, seed, out);
      case CompleteAvatarRescue => status := CompleteRescue(m, a, out);
      case ReplaceAvatarRescuer => status := ReplaceRescuer(m, a, seed, out);
      case Move => status := Travel(m, a, out);
      case Flee => status := RunAway(m, a, out);
      case Attack => status := AttackOnce(m, a, seed, out);
      case Defend => status := Guard(m, a, out);
      case UnlockExit => status := Unlock(m, a, out);
    }
  }

  predicate IsCheck(kind: ActionKind) {
    kind == AbilityCheck || kind == RulesSearch || kind == RulesStudy || kind == RulesInfluence
  }

  /** The event that closes a discovery of this kind. */
  function DiscoveryEvent(kind: ActionKind): EventKind {
    if kind == FocusedNotice then NoticeCommitted
    else if kind == SearchV2 then SearchCommitted
    else if kind == StudyV2 then StudyCommitted
    else ScoutCommitted
  }

  predicate IsDiscovery(kind: ActionKind) {
    kind == FocusedNotice || kind == SearchV2 || kind == StudyV2 || kind == ScoutV2
  }

  lemma ReportByKind(w: World, c: Call)
    ensures var a := c.action;
            ApplyReport(w, c) == if a.kind == Say then ApplySay(w, a)
                                 else if IsCheck(a.kind) then ApplyAbilityCheck(w, a, c.seed)
                                 else if a.kind == ProjectPush then ApplyProjectPush(w, a)
                                 else if IsDiscovery(a.kind) then ApplyDiscovery(w, a, c.seed, DiscoveryEvent(a.kind))
                                 else Reject(w, InvalidAction)
  {
    hide ApplySay;
    hide ApplyAbilityCheck;
    hide ApplyProjectPush;
    hide ApplyDiscovery;
    hide Reject;
  }

  method DispatchReport(m: WorldState, a: Action, seed: Seed, out: EventBuffer?, ghost c: Call) returns (status: Status)
    requires c.action == a && c.seed == seed
    modifies m, out
    ensures m.Did(old(m.LogOf(out)), ApplyReport(old(m.Now()), c), status, out)
  {
    hide ApplySay;
    hide ApplyAbilityCheck;
    hide ApplyProjectPush;
    hide ApplyDiscovery;
    hide ApplyReport;
    hide Reject;
    hide WorldState.Did;
    ReportByKind(m.Now(), c);
    if a.kind == Say {
      status := Speak(m, a, out);
    } else if IsCheck(a.kind) {
      status := RollCheck(m, a, seed, out);
    } else if a.kind == ProjectPush {
      status := PushProject(m, a, out);
    } else if IsDiscovery(a.kind) {
      status := Discover(m, a, seed, DiscoveryEvent(a.kind), out);
    } else {
      status := m.Refuse(InvalidAction, out);
    }
  }

  method Dispatch(m: WorldState, a: Action, seed: Seed, out: EventBuffer?, ghost c: Call) returns (status: Status)
    requires c.action == a && c.seed == seed && c.buffered == (out != null)
    modifies m, out
    ensures m.Did(old(m.LogOf(out)), ApplyRule(old(m.Now()), c), status, out)
  {
    hide ApplyItemRule;
    hide ApplyCombatRule;
    hide ApplyActorRule;
    hide ApplyGateTransition;
    hide ApplyReport;
    if IsItemRule(a.kind) {
      status := DispatchItem(m, a, seed, out, c);
    } else if IsCombatRule(a.kind) {
      status := DispatchCombat(m, a, seed, out, c);
    } else if a.kind == GateTransition {
      status := Transition(m, a, seed, out);
    } else if IsActorRule(a.kind) {
      status := DispatchActor(m, a, seed, out, c);
    } else {
      status := DispatchReport(m, a, seed, out, c);
    }
  }

  /** The retry test at the very start: nothing found, a match, or a conflict. */
  method CheckReplay(m: WorldState, a: Action) returns (recorded: bool, retry: bool)
    ensures recorded == NamesRecordedClaim(m.claims, a) && retry == IsRetry(m.claims, a)
  {
    recorded, retry := false, false;
    if a.kind == GateTransition && a.threshold.claim != 0 {
      var k := m.LocateClaim(a.threshold.claim);
      if k < |m.claims| {
        recorded, retry := true, MatchesClaim(m.claims[k], a);
      }
    }
  }

  /** What a call that is neither a replay nor barred does. */
  function Attempted(w: World, c: Call): Outcome {
    var o := ApplyRule(if c.advance then w.(tick := Next64(w.tick)) else w, c);
    var timed := if o.status != Success && c.advance then o.world.(tick := w.tick) else o.world;
    Outcome(o.status, if o.status == Success && c.action.kind != GateTransition then RaiseRevision(timed) else timed, o.events)
  }

  /** The clock, the rule, the clock back on failure, the revision on success. */
  method Attempt(m: WorldState, a: Action, seed: Seed, advance: bool, out: EventBuffer?) returns (status: Status)
    modifies m, out
    ensures m.Did(old(m.LogOf(out)), Attempted(old(m.Now()), Call(a, seed, advance, out != null)), status, out)
  {
    hide ApplyRule;
    ghost var c := Call(a, seed, advance, out != null);
    var previous := m.tick;
    if advance {
      m.tick := Next64(m.tick);
    }
    status := Dispatch(m, a, seed, out, c);
    if status != Success && advance {
      m.tick := previous;
    }
    if status == Success && a.kind != GateTransition {
      m.accessRevision := Raise64(m.accessRevision);
    }
  }

  lemma StepByParts(w: World, c: Call)
    ensures Step(w, c) == if NamesRecordedClaim(w.claims, c.action)
                          then (if IsRetry(w.claims, c.action) then Outcome(Success, w, []) else Reject(w, GateClaimConflict))
                          else if BarredByCombat(w, c.action) then Reject(w, CombatActionRequired)
                          else Attempted(w, c)
  {
    hide ApplyRule;
    hide IsRetry;
    hide NamesRecordedClaim;
    hide BarredByCombat;
  }

  /** The kernel's entry point: one call, in place. */
  method Apply(m: WorldState, a: Action, seed: Seed, advance: bool, out: EventBuffer?) returns (status: Status)
    modifies m, out
    ensures var c := Call(a, seed, advance, out != null);
            && status == Step(old(m.Now()), c).status
            && m.Now() == Step(old(m.Now()), c).world
            && m.LogOf(out) == StepLog(old(m.Now()), old(m.nextSeq), c)
  {
    hide Step;
    hide Attempted;
    hide Engages;
    hide MatchesClaim;
    StepByParts(m.Now(), Call(a, seed, advance, out != null));
    if out != null {
      out.events := [];
    }
    var recorded, retry := CheckReplay(m, a);
    hide IsRetry;
    hide NamesRecordedClaim;
    if recorded {
      if retry {
        return Success;
      }
      status := m.Refuse(GateClaimConflict, out);
      return;
    }
    var k := m.LocateEngagement(a.actor);
    if k < |m.encounters| && !AllowedInCombat(a.kind) {
      status := m.Refuse(CombatActionRequired, out);
      return;
    }
    hide AllowedInCombat;
    status := Attempt(m, a, seed, advance, out);
  }
}
