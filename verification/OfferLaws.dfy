/**
  Offers are honoured.  In every reachable world, taking an offered option in
  the way spelled out here succeeds, whatever the dice say; and the options for
  picking up, attacking and moving are offered exactly when they are possible.
 */
module OfferLaws {
  import opened KernelTypes
  import opened Lookup
  import opened Carrying
  import opened GateRules
  import opened GateView
  import opened ItemRules
  import opened CombatRules
  import opened ActorRules
  import opened Dispatcher
  import opened Effects
  import opened ItemLaws
  import opened Travel
  import opened CombatLaws
  import opened Offers

  // ------------------------------------------------------------ sound worlds

  predicate DistinctActorIds(actors: seq<Actor>) {
    forall i, j :: 0 <= i < j < |actors| ==> actors[i].id != actors[j].id
  }

  predicate EachActorPlaced(w: World) {
    forall i :: 0 <= i < |w.actors| ==> LocationExists(w, w.actors[i].location)
  }

  predicate ExitOk(w: World, x: Exit) {
    x.to != 0 && x.to != x.from && LocationExists(w, x.to)
  }

  /** Exits lead somewhere else that exists, at most one from place to place. */
  predicate MapOk(w: World) {
    && (forall i :: 0 <= i < |w.exits| ==> ExitOk(w, w.exits[i]))
    && forall i, j :: 0 <= i < j < |w.exits| ==> !(w.exits[i].from == w.exits[j].from && w.exits[i].to == w.exits[j].to)
  }

  ghost predicate Sound(w: World) {
    && DistinctActorIds(w.actors) && EachActorPlaced(w) && MapOk(w)
    && DistinctIds(w.items) && NonzeroIds(w.items)
    && CombatOk(w)
  }

  lemma FoundByItsId(actors: seq<Actor>, i: nat)
    requires DistinctActorIds(actors) && i < |actors|
    ensures FindActor(actors, actors[i].id) == i
  {}

  lemma ItemFoundByItsId(items: seq<Item>, i: nat)
    requires DistinctIds(items) && i < |items|
    ensures FindItem(items, items[i].id) == i
  {}

  // ------------------------------------------------------ taking an offer

  /** The offer for an exit as its gate makes it now, without facts. */
  function UnaidedThreshold(w: World, actor: Id, exit: Exit): Threshold {
    var g := FindExitGate(w.gates, exit.from, exit.to);
    if g == |w.gates| then NO_THRESHOLD
    else
      var e := Evaluate(w, w.gates[g].id, actor, [], 0);
      if e.Undecided? then NO_THRESHOLD
      else NO_THRESHOLD.(gate := w.gates[g].id, expectedVersion := e.decision.gateVersion,
                         expectedRevision := e.decision.accessRevision, expectedDigest := e.decision.digest)
  }

  function Through(w: World, kind: ActionKind, actor: Actor): Action {
    var x := FindOpenExit(w, actor);
    if x == |w.exits| then PlainAction(kind, actor.id)
    else PlainAction(kind, actor.id).(destination := w.exits[x].to,
                                      threshold := UnaidedThreshold(w, actor.id, w.exits[x]))
  }

  lemma UnaidedCrossingIsClear(w: World, actor: Id, exit: Exit)
    requires CanCrossUnaided(w, actor, exit)
    ensures CrossingOf(w, actor, exit, UnaidedThreshold(w, actor, exit)) == Clear
  {
    hide Evaluate;
  }

  lemma OnlyExitToThere(w: World, i: nat)
    requires MapOk(w) && i < |w.exits|
    ensures FindExit(w.exits, w.exits[i].from, w.exits[i].to) == i
    ensures ExitOk(w, w.exits[i])
  {}

  lemma OpenExitAdmits(w: World, kind: ActionKind, id: Id)
    requires MapOk(w) && Known(w, id) && HasOpenExit(w, GetActor(w, id))
    ensures var a := Through(w, kind, GetActor(w, id));
            a.actor == id && MoveRefusal(w, a) == NoReason && EscapeRefusal(w, a) == NoReason
  {
    var actor := GetActor(w, id);
    var x := FindOpenExit(w, actor);
    OnlyExitToThere(w, x);
    UnaidedCrossingIsClear(w, id, w.exits[x]);
    hide CanCrossUnaided;
    hide CrossingOf;
    hide UnaidedThreshold;
    hide FirstIndex;
  }

  // --------------------------------------------- each option, as its rule sees it

  /** The same world at another moment. */
  predicate SameButTick(w: World, v: World) {
    v == w.(tick := v.tick)
  }

  lemma JourneyIsHonoured(w: World, v: World, id: Id)
    requires MapOk(w) && IsActive(w, id) && HasOpenExit(w, GetActor(w, id)) && SameButTick(w, v)
    ensures ApplyMove(v, Through(w, Move, GetActor(w, id))).status == Success
    ensures AllowsCombat(w, GetActor(w, id).location) ==>
              ApplyFlee(v, Through(w, Flee, GetActor(w, id))).status == Success
  {
    var move, flee := Through(w, Move, GetActor(w, id)), Through(w, Flee, GetActor(w, id));
    OpenExitAdmits(w, Move, id);
    OpenExitAdmits(w, Flee, id);
    hide Through;
    SameRefusals(w, v, move);
    SameRefusals(w, v, flee);
    hide MoveRefusal;
    hide EscapeRefusal;
  }

  lemma SameRefusals(w: World, v: World, a: Action)
    requires SameButTick(w, v) && Known(w, a.actor)
    ensures Known(v, a.actor)
    ensures MoveRefusal(v, a) == MoveRefusal(w, a) && EscapeRefusal(v, a) == EscapeRefusal(w, a)
  {
    var x := FindExit(w.exits, GetActor(w, a.actor).location, a.destination);
    if x < |w.exits| {
      SameCrossing(w, v, a.actor, w.exits[x], a.threshold);
    }
    hide CrossingOf;
    hide FirstIndex;
  }

  lemma AttackIsHonoured(w: World, v: World, id: Id, i: nat, seed: Seed)
    requires DistinctActorIds(w.actors) && IsActive(w, id) && SameButTick(w, v)
    requires AllowsCombat(w, GetActor(w, id).location)
    requires i < |w.actors| && IsCompanion(w.actors[i], GetActor(w, id))
    ensures ApplyAttack(v, PlainAction(Attack, id).(target := w.actors[i].id), seed).status == Success
  {
    FoundByItsId(w.actors, i);
    hide FirstIndex;
    hide ResolveAttack;
    hide DropGuard;
    hide Strike;
  }

  function PickUpOf(item: Item, out: Id, id: Id): Action {
    PlainAction(PickUpItem, id).(item := item.id, targetItem := out)
  }

  lemma PickUpIsHonoured(w: World, v: World, id: Id, i: nat) returns (a: Action)
    requires DistinctIds(w.items) && NonzeroIds(w.items) && IsActive(w, id) && SameButTick(w, v)
    requires i < |w.items| && LiesLoose(w.items[i], GetActor(w, id).location) && CanPickUp(w, GetActor(w, id), i)
    ensures a.kind == PickUpItem && a.actor == id
    ensures PickUpRefusal(w, a) == NoReason && PickUpRefusal(v, a) == NoReason
  {
    var actor := GetActor(w, id);
    ItemFoundByItsId(w.items, i);
    if CanExchange(w, actor, |w.items|, i) {
      a := PickUpOf(w.items[i], 0, id);
    } else {
      var out: nat :| out < |w.items| && w.items[out].holder == actor.id && CanExchange(w, actor, out, i);
      ItemFoundByItsId(w.items, out);
      a := PickUpOf(w.items[i], w.items[out].id, id);
    }
    forall removed, added ensures CanExchange(v, actor, removed, added) == CanExchange(w, actor, removed, added) {}
    hide CanExchange;
    hide FirstIndex;
  }

  lemma SearchIsHonoured(w: World, v: World, id: Id, i: nat)
    requires EachActorPlaced(w) && DistinctIds(w.items) && IsActive(w, id) && SameButTick(w, v)
    requires i < |w.items| && IsHidden(w.items[i])
    ensures ApplySearch(v, PlainAction(Search, id).(item := w.items[i].id)).status == Success
  {
    ItemFoundByItsId(w.items, i);
    assert LocationExists(w, w.actors[FindActor(w.actors, id)].location);
    hide FirstIndex;
    hide Placed;
  }

  lemma CraftIsHonoured(w: World, v: World, id: Id, i: nat)
    requires DistinctIds(w.items) && NonzeroIds(w.items) && IsActive(w, id) && SameButTick(w, v)
    requires i < |w.items| && LiesLoose(w.items[i], GetActor(w, id).location)
    ensures ApplyCraft(v, PlainAction(Craft, id).(content := 1, item := w.items[i].id)).status == Success
  {
    ItemFoundByItsId(w.items, i);
    hide FirstIndex;
    hide Evolve;
  }

  // ------------------------------------------------------------- in combat

  lemma HolderHoldsTurn(w: World, v: World, k: nat, a: Action)
    requires CombatOk(w) && SameButTick(w, v) && k < |w.encounters| && FightsAbly(w, w.encounters[k], a.actor)
    requires CurrentActor(w.encounters[k]) == a.actor && a.content == w.encounters[k].id
    ensures HoldsTurn(v, a) && ReferredEncounter(v, a) == k
  {
    assert EncounterOk(w.actors, w.encounters[k]);
    assert FindEncounter(w.encounters, a.content) == k;
  }

  /** In a playable encounter the holder of the turn has somebody to strike. */
  lemma FoeIsFound(w: World, e: Encounter, id: Id) returns (j: nat)
    requires ListOk(w.actors, e) && Playable(w, e) && FindParticipant(e.participants, id) < |e.participants|
    ensures j < |e.participants| && CanAct(w, e.participants[j]) && e.participants[j].actor != id
    ensures e.participants[FindParticipant(e.participants, id)].side != e.participants[j].side
    ensures FindParticipant(e.participants, e.participants[j].actor) == j
  {
    var at := FindParticipant(e.participants, id);
    assert ParticipantOk(w.actors, e.participants[at]);
    if e.participants[at].side == 1 {
      j :| 0 <= j < |e.participants| && e.participants[j].side == 2 && CanAct(w, e.participants[j]);
    } else {
      j :| 0 <= j < |e.participants| && e.participants[j].side == 1 && CanAct(w, e.participants[j]);
    }
    assert e.participants[j].actor != id;
    hide CanAct;
    hide Settled;
  }

  lemma StrikeIsHonoured(w: World, v: World, k: nat, id: Id) returns (a: Action)
    requires CombatOk(w) && k < |w.encounters| && FightsAbly(w, w.encounters[k], id)
    requires CurrentActor(w.encounters[k]) == id && Playable(w, w.encounters[k]) && SameButTick(w, v)
    ensures a.kind == CombatAttack && a.actor == id
    ensures HoldsTurn(w, a) && CombatAttackRefusal(w, a) == NoReason
    ensures HoldsTurn(v, a) && CombatAttackRefusal(v, a) == NoReason
  {
    var e := w.encounters[k];
    assert EncounterOk(w.actors, e);
    var j := FoeIsFound(w, e, id);
    a := PlainAction(CombatAttack, id).(content := e.id, target := e.participants[j].actor);
    HolderHoldsTurn(w, w, k, a);
    HolderHoldsTurn(w, v, k, a);
    hide CombatOk;
    hide HoldsTurn;
    hide ReferredEncounter;
    hide FirstIndex;
  }

  // ------------------------------------------------- as the whole call sees it

  /** The rule behind each option. */
  lemma RuleOfOption(w: World, c: Call)
    ensures var a, o := c.action, ApplyRule(w, c);
            && (a.kind == Say ==> o == ApplySay(w, a))
            && (a.kind == AbilityCheck ==> o == ApplyAbilityCheck(w, a, c.seed))
            && (a.kind == Move ==> o == ApplyMove(w, a)) && (a.kind == Flee ==> o == ApplyFlee(w, a))
            && (a.kind == Attack ==> o == ApplyAttack(w, a, c.seed)) && (a.kind == Defend ==> o == ApplyDefend(w, a))
            && (a.kind == PickUpItem ==> o == ApplyPickUp(w, a)) && (a.kind == Search ==> o == ApplySearch(w, a))
            && (a.kind == Craft ==> o == ApplyCraft(w, a))
            && (a.kind == CombatAttack ==> o == ApplyCombatAttack(w, a, c.seed, false))
            && (a.kind == CombatDodge ==> o == ApplyDodge(w, a)) && (a.kind == CombatEscape ==> o == ApplyEscape(w, a))
  {
    hide ApplySay;
    hide ApplyAbilityCheck;
    hide ApplyMove;
    hide ApplyFlee;
    hide ApplyAttack;
    hide ApplyDefend;
    hide ApplyPickUp;
    hide ApplySearch;
    hide ApplyCraft;
    hide ApplyCombatAttack;
    hide ApplyDodge;
    hide ApplyEscape;
    hide ApplyGateTransition;
  }

  /** The call succeeds whatever its seed, its clock and its buffer. */
  ghost predicate AlwaysAccepted(w: World, a: Action) {
    forall c: Call {:trigger Step(w, c)} :: c.action == a ==> Step(w, c).status == Success
  }

  /** Some action of this kind by this actor is always accepted. */
  ghost predicate Honoured(w: World, kind: ActionKind, id: Id) {
    exists a: Action :: a.kind == kind && a.actor == id && AlwaysAccepted(w, a)
  }

  lemma AcceptedByItsRule(w: World, c: Call)
    requires c.action.kind != GateTransition && !BarredByCombat(w, c.action)
    requires ApplyRule(Clocked(w, c), c).status == Success
    ensures Step(w, c).status == Success
  {
    hide Step;
    hide ApplyRule;
    hide BarredByCombat;
    StepIsTheRule(w, c);
  }

  lemma TalkIsAccepted(w: World, id: Id)
    requires IsActive(w, id) && !Engaged(w, id)
    ensures Honoured(w, Say, id) && Honoured(w, AbilityCheck, id) && Honoured(w, Defend, id)
  {
    hide Step;
    hide ApplyRule;
    hide Engaged;
    var say, check, guard := PlainAction(Say, id), PlainAction(AbilityCheck, id), PlainAction(Defend, id);
    forall c: Call | c.action == say || c.action == check || c.action == guard ensures Step(w, c).status == Success {
      RuleOfOption(Clocked(w, c), c);
      AcceptedByItsRule(w, c);
    }
    hide ApplySay;
    assert AlwaysAccepted(w, say) && AlwaysAccepted(w, check) && AlwaysAccepted(w, guard);
  }

  lemma JourneyIsAccepted(w: World, id: Id)
    requires MapOk(w) && IsActive(w, id) && HasOpenExit(w, GetActor(w, id)) && !Engaged(w, id)
    ensures Honoured(w, Move, id)
    ensures AllowsCombat(w, GetActor(w, id).location) ==> Honoured(w, Flee, id)
  {
    hide Step;
    hide ApplyRule;
    hide ApplyMove;
    hide ApplyFlee;
    hide Engaged;
    var actor := GetActor(w, id);
    var move, flee := Through(w, Move, actor), Through(w, Flee, actor);
    hide HasOpenExit;
    assert move.kind == Move && flee.kind == Flee && move.actor == id && flee.actor == id;
    hide Through;
    forall c: Call | c.action == move || (c.action == flee && AllowsCombat(w, actor.location))
      ensures Step(w, c).status == Success
    {
      JourneyIsHonoured(w, Clocked(w, c), id);
      RuleOfOption(Clocked(w, c), c);
      AcceptedByItsRule(w, c);
    }
    assert AlwaysAccepted(w, move);
    assert AllowsCombat(w, actor.location) ==> AlwaysAccepted(w, flee);
  }

  lemma AttackIsAccepted(w: World, id: Id, i: nat)
    requires DistinctActorIds(w.actors) && IsActive(w, id) && AllowsCombat(w, GetActor(w, id).location)
    requires i < |w.actors| && IsCompanion(w.actors[i], GetActor(w, id)) && !Engaged(w, id)
    ensures Honoured(w, Attack, id)
  {
    hide Step;
    hide ApplyRule;
    hide ApplyAttack;
    hide Engaged;
    hide IsCompanion;
    hide AllowsCombat;
    var a := PlainAction(Attack, id).(target := w.actors[i].id);
    forall c: Call | c.action == a ensures Step(w, c).status == Success {
      AttackIsHonoured(w, Clocked(w, c), id, i, c.seed);
      RuleOfOption(Clocked(w, c), c);
      AcceptedByItsRule(w, c);
    }
    assert AlwaysAccepted(w, a);
  }

  lemma PickUpIsAccepted(w: World, id: Id, i: nat)
    requires DistinctIds(w.items) && NonzeroIds(w.items) && IsActive(w, id) && !Engaged(w, id)
    requires i < |w.items| && LiesLoose(w.items[i], GetActor(w, id).location) && CanPickUp(w, GetActor(w, id), i)
    ensures Honoured(w, PickUpItem, id)
  {
    hide Step;
    hide ApplyRule;
    hide Engaged;
    hide CanPickUp;
    var a := PickUpIsHonoured(w, w, id, i);
    forall c: Call | c.action == a ensures Step(w, c).status == Success {
      PickUpIgnoresTheClock(w, Clocked(w, c), a);
      RuleOfOption(Clocked(w, c), c);
      hide PickUpRefusal;
      AcceptedByItsRule(w, c);
    }
    assert AlwaysAccepted(w, a);
  }

  lemma PickUpIgnoresTheClock(w: World, v: World, a: Action)
    requires SameButTick(w, v)
    ensures ApplyPickUp(v, a).status == ApplyPickUp(w, a).status
  {
    hide Evolve, FindActor, FindItem, HeldWeight, HeldCapacity;
    if Known(w, a.actor) {
      forall removed, added
        ensures CanExchange(v, GetActor(w, a.actor), removed, added) == CanExchange(w, GetActor(w, a.actor), removed, added)
      {}
      hide CanExchange;
      assert PickUpRefusal(w, a) == PickUpRefusal(v, a);
      hide PickUpRefusal;
    }
  }

  lemma FloorOptionsAreAccepted(w: World, id: Id, i: nat)
    requires EachActorPlaced(w) && DistinctIds(w.items) && NonzeroIds(w.items)
    requires IsActive(w, id) && !Engaged(w, id) && i < |w.items|
    ensures IsHidden(w.items[i]) ==> Honoured(w, Search, id)
    ensures LiesLoose(w.items[i], GetActor(w, id).location) ==> Honoured(w, Craft, id)
  {
    hide Step;
    hide ApplyRule;
    hide ApplySearch;
    hide ApplyCraft;
    hide Engaged;
    hide IsHidden;
    hide LiesLoose;
    var search := PlainAction(Search, id).(item := w.items[i].id);
    var craft := PlainAction(Craft, id).(content := 1, item := w.items[i].id);
    if IsHidden(w.items[i]) {
      forall c: Call | c.action == search ensures Step(w, c).status == Success {
        SearchIsHonoured(w, Clocked(w, c), id, i);
        RuleOfOption(Clocked(w, c), c);
        AcceptedByItsRule(w, c);
      }
      assert AlwaysAccepted(w, search);
    }
    if LiesLoose(w.items[i], GetActor(w, id).location) {
      forall c: Call | c.action == craft ensures Step(w, c).status == Success {
        CraftIsHonoured(w, Clocked(w, c), id, i);
        RuleOfOption(Clocked(w, c), c);
        AcceptedByItsRule(w, c);
      }
      assert AlwaysAccepted(w, craft);
    }
  }

  lemma StrikeIgnoresTheClock(w: World, v: World, a: Action, seed: Seed)
    requires SameButTick(w, v) && HoldsTurn(w, a) && CombatAttackRefusal(w, a) == NoReason
    requires HoldsTurn(v, a) && CombatAttackRefusal(v, a) == NoReason
    ensures ApplyCombatAttack(v, a, seed, false).status == Success
  {
    hide HoldsTurn;
    hide CombatBlow;
    hide FinishTurn;
    hide Strike;
  }

  lemma EscapeIsHonoured(w: World, v: World, k: nat, id: Id)
    requires CombatOk(w) && MapOk(w) && SameButTick(w, v) && Known(w, id) && HasOpenExit(w, GetActor(w, id))
    requires k < |w.encounters| && FightsAbly(w, w.encounters[k], id) && CurrentActor(w.encounters[k]) == id
    ensures ApplyEscape(v, Through(w, CombatEscape, GetActor(w, id)).(content := w.encounters[k].id)).status == Success
  {
    var a := Through(w, CombatEscape, GetActor(w, id)).(content := w.encounters[k].id);
    OpenExitAdmits(w, CombatEscape, id);
    assert EscapeRefusal(w, a) == NoReason;
    hide Through;
    HolderHoldsTurn(w, v, k, a);
    SameRefusals(w, v, a);
    hide HoldsTurn;
    hide EscapeRefusal;
    hide CombatOk;
    hide FightsAbly;
    hide FinishTurn;
    hide CommitEscape;
  }

  lemma CombatOptionsAreAccepted(w: World, k: nat, id: Id)
    requires CombatOk(w) && MapOk(w) && k < |w.encounters| && FightsAbly(w, w.encounters[k], id)
    requires CurrentActor(w.encounters[k]) == id && Known(w, id)
    ensures Playable(w, w.encounters[k]) ==> Honoured(w, CombatAttack, id)
    ensures Honoured(w, CombatDodge, id)
    ensures HasOpenExit(w, GetActor(w, id)) ==> Honoured(w, CombatEscape, id)
  {
    hide Step;
    hide ApplyRule;
    hide Engaged;
    hide CombatOk;
    hide FightsAbly;
    hide Playable;
    hide CombatAttackRefusal;
    hide FinishTurn;
    var dodge := PlainAction(CombatDodge, id).(content := w.encounters[k].id);
    forall c: Call | c.action == dodge ensures Step(w, c).status == Success {
      HolderHoldsTurn(w, Clocked(w, c), k, dodge);
      hide HoldsTurn;
      RuleOfOption(Clocked(w, c), c);
      AcceptedByItsRule(w, c);
    }
    hide HoldsTurn;
    assert AlwaysAccepted(w, dodge);
    if Playable(w, w.encounters[k]) {
      StrikesAreAccepted(w, k, id);
    }
    if HasOpenExit(w, GetActor(w, id)) {
      EscapesAreAccepted(w, k, id);
    }
  }

  lemma StrikesAreAccepted(w: World, k: nat, id: Id)
    requires CombatOk(w) && k < |w.encounters| && FightsAbly(w, w.encounters[k], id)
    requires CurrentActor(w.encounters[k]) == id && Playable(w, w.encounters[k])
    ensures Honoured(w, CombatAttack, id)
  {
    hide Step;
    hide ApplyRule;
    hide ApplyCombatAttack;
    hide Engaged;
    hide CombatOk;
    hide FightsAbly;
    hide Playable;
    hide CombatAttackRefusal;
    hide HoldsTurn;
    var a := StrikeIsHonoured(w, w, k, id);
    forall c: Call | c.action == a ensures Step(w, c).status == Success {
      RefusalIgnoresTheClock(w, Clocked(w, c), a);
      StrikeIgnoresTheClock(w, Clocked(w, c), a, c.seed);
      RuleOfOption(Clocked(w, c), c);
      AcceptedByItsRule(w, c);
    }
    assert AlwaysAccepted(w, a);
  }

  lemma TurnIgnoresTheClock(w: World, v: World, a: Action)
    requires SameButTick(w, v) && HoldsTurn(w, a)
    ensures HoldsTurn(v, a) && ReferredEncounter(v, a) == ReferredEncounter(w, a)
  {
    hide FirstIndex;
  }

  lemma RefusalIgnoresTheClock(w: World, v: World, a: Action)
    requires SameButTick(w, v) && HoldsTurn(w, a)
    ensures HoldsTurn(v, a) && CombatAttackRefusal(v, a) == CombatAttackRefusal(w, a)
  {
    TurnIgnoresTheClock(w, v, a);
    hide HoldsTurn;
    hide ReferredEncounter;
    hide FirstIndex;
  }

  lemma EscapesAreAccepted(w: World, k: nat, id: Id)
    requires CombatOk(w) && MapOk(w) && k < |w.encounters| && FightsAbly(w, w.encounters[k], id)
    requires CurrentActor(w.encounters[k]) == id && Known(w, id) && HasOpenExit(w, GetActor(w, id))
    ensures Honoured(w, CombatEscape, id)
  {
    hide Step;
    hide ApplyRule;
    hide ApplyEscape;
    hide Engaged;
    hide CombatOk;
    hide FightsAbly;
    hide HasOpenExit;
    var a := Through(w, CombatEscape, GetActor(w, id)).(content := w.encounters[k].id);
    assert a.kind == CombatEscape && a.actor == id;
    hide Through;
    forall c: Call | c.action == a ensures Step(w, c).status == Success {
      EscapeIsHonoured(w, Clocked(w, c), k, id);
      RuleOfOption(Clocked(w, c), c);
      AcceptedByItsRule(w, c);
    }
    assert AlwaysAccepted(w, a);
  }

  // --------------------------------------------------------- the main result

  predicate InFight(w: World, id: Id) {
    FindFight(w, id) < |w.encounters|
  }

  lemma FreeMeansNotFighting(w: World, id: Id)
    requires IsActive(w, id) && !Engaged(w, id)
    ensures !InFight(w, id)
  {
    if InFight(w, id) {
      var e := w.encounters[FindFight(w, id)];
      var j := FindParticipant(e.participants, id);
      assert e.participants[j].actor == id && !e.participants[j].escaped;
      assert Engages(e, id);
    }
  }

  lemma NotFightingMeansFree(w: World, id: Id)
    requires CombatOk(w) && IsActive(w, id) && !InFight(w, id)
    ensures !Engaged(w, id)
  {
    forall i | 0 <= i < |w.encounters| ensures !Engages(w.encounters[i], id) {
      var e := w.encounters[i];
      assert EncounterOk(w.actors, e);
      assert !FightsAbly(w, e, id);
      if Fights(e.participants, id) {
        var j :| 0 <= j < |e.participants| && e.participants[j].actor == id && !e.participants[j].escaped;
        assert FindParticipant(e.participants, id) == j;
      }
    }
  }

  /** Options that only their own rule could still refuse for capacity, zone or
      health are not firm. */
  predicate IsFirm(offer: Offer) {
    offer != OfferUseItem && offer != OfferGiveItem && offer != OfferDropItem && offer != OfferTradeItem
  }

  function KindOf(fighting: bool, offer: Offer): ActionKind
    requires IsFirm(offer)
  {
    match offer
    case OfferChat => Say
    case OfferCheck => AbilityCheck
    case OfferMove => Move
    case OfferPickUp => PickUpItem
    case OfferSearch => Search
    case OfferCraft => Craft
    case OfferAttack => if fighting then CombatAttack else Attack
    case OfferDefend => if fighting then CombatDodge else Defend
    case OfferFlee => if fighting then CombatEscape else Flee
  }

  lemma CombatOffersAreHonoured(w: World, id: Id, offer: Offer)
    requires Sound(w) && NeverStuck(w) && IsOffered(w, id, offer) && InFight(w, id)
    ensures IsFirm(offer) && Honoured(w, KindOf(true, offer), id)
  {
    hide Honoured;
    hide Step;
    var k := FindFight(w, id);
    assert EncounterOk(w.actors, w.encounters[k]);
    assert CurrentActor(w.encounters[k]) == id;
    assert offer == OfferAttack || offer == OfferDefend || (offer == OfferFlee && HasOpenExit(w, GetActor(w, id)));
    hide GetOffers;
    assert Playable(w, w.encounters[k]);
    hide CombatOk;
    hide HasOpenExit;
    hide Playable;
    CombatOptionsAreAccepted(w, k, id);
  }

  lemma ItemOptionsMean(w: World, actor: Actor, offer: Offer)
    requires offer in ItemOptions(w, actor)
    ensures offer == OfferPickUp ==> SomethingToPickUp(w, actor)
    ensures offer == OfferSearch ==> FindHidden(w) < |w.items|
    ensures offer == OfferCraft ==> FindLoose(w, actor.location) < |w.items|
    ensures offer != OfferChat && offer != OfferCheck && offer != OfferMove
    ensures offer != OfferFlee && offer != OfferAttack && offer != OfferDefend
  {
    hide SomethingToPickUp;
    hide FindHidden;
    hide FindLoose;
    hide FindCompanion;
    hide Holding;
    hide CompanionHolds;
  }

  lemma CombatantOptionsMean(w: World, actor: Actor, offer: Offer)
    requires offer in CombatantOptions(w, actor)
    ensures offer == OfferAttack || offer == OfferDefend || (offer == OfferFlee && HasOpenExit(w, actor))
    ensures AllowsCombat(w, actor.location) && FindCompanion(w, actor) < |w.actors|
  {
    hide HasOpenExit;
    hide AllowsCombat;
    hide FindCompanion;
  }

  /** What being offered outside combat says about the tables. */
  lemma QuietOfferMeans(w: World, id: Id, offer: Offer)
    requires IsOffered(w, id, offer) && !InFight(w, id)
    ensures IsActive(w, id)
    ensures var actor := GetActor(w, id);
            && (offer == OfferMove || offer == OfferFlee ==> HasOpenExit(w, actor))
            && (offer == OfferFlee || offer == OfferAttack ==>
                  AllowsCombat(w, actor.location) && FindCompanion(w, actor) < |w.actors|)
            && (offer == OfferPickUp ==> SomethingToPickUp(w, actor))
            && (offer == OfferSearch ==> FindHidden(w) < |w.items|)
            && (offer == OfferCraft ==> FindLoose(w, actor.location) < |w.items|)
  {
    hide HasOpenExit;
    hide AllowsCombat;
    hide SomethingToPickUp;
    hide FirstIndex;
    var actor := GetActor(w, id);
    if offer in ItemOptions(w, actor) {
      ItemOptionsMean(w, actor, offer);
    }
    if offer in CombatantOptions(w, actor) {
      CombatantOptionsMean(w, actor, offer);
    }
    hide ItemOptions;
    hide CombatantOptions;
  }

  lemma QuietItemOffersAreHonoured(w: World, id: Id, offer: Offer)
    requires Sound(w) && IsOffered(w, id, offer) && !InFight(w, id) && !Engaged(w, id)
    ensures offer == OfferPickUp ==> Honoured(w, PickUpItem, id)
    ensures offer == OfferSearch ==> Honoured(w, Search, id)
    ensures offer == OfferCraft ==> Honoured(w, Craft, id)
  {
    hide Honoured;
    hide Step;
    hide CombatOk;
    hide CanPickUp;
    hide Engaged;
    QuietOfferMeans(w, id, offer);
    hide IsOffered;
    hide InFight;
    var actor := GetActor(w, id);
    if offer == OfferPickUp {
      var i :| 0 <= i < |w.items| && LiesLoose(w.items[i], actor.location) && CanPickUp(w, actor, i);
      PickUpIsAccepted(w, id, i);
    } else if offer == OfferSearch {
      FloorOptionsAreAccepted(w, id, FindHidden(w));
    } else if offer == OfferCraft {
      FloorOptionsAreAccepted(w, id, FindLoose(w, actor.location));
    }
  }

  lemma QuietOffersAreHonoured(w: World, id: Id, offer: Offer)
    requires Sound(w) && IsOffered(w, id, offer) && !InFight(w, id) && IsFirm(offer)
    ensures Honoured(w, KindOf(false, offer), id)
  {
    hide Honoured;
    hide Step;
    QuietOfferMeans(w, id, offer);
    NotFightingMeansFree(w, id);
    hide IsOffered;
    hide InFight;
    hide CombatOk;
    hide Engaged;
    hide FirstIndex;
    hide HasOpenExit;
    hide AllowsCombat;
    var actor := GetActor(w, id);
    if offer == OfferMove || offer == OfferFlee {
      JourneyIsAccepted(w, id);
    } else if offer == OfferAttack {
      AttackIsAccepted(w, id, FindCompanion(w, actor));
    } else if offer == OfferChat || offer == OfferCheck || offer == OfferDefend {
      TalkIsAccepted(w, id);
    } else {
      QuietItemOffersAreHonoured(w, id, offer);
    }
  }

  /** Every firm option offered in a sound world is honoured: its actor has a
      call for it that succeeds whatever the seed. */
  lemma OffersAreHonoured(w: World, id: Id, offer: Offer)
    requires Sound(w) && NeverStuck(w) && IsOffered(w, id, offer) && IsFirm(offer)
    ensures Honoured(w, KindOf(InFight(w, id), offer), id)
  {
    hide Honoured;
    hide Step;
    hide IsOffered;
    hide Sound;
    hide NeverStuck;
    hide InFight;
    if InFight(w, id) {
      CombatOffersAreHonoured(w, id, offer);
    } else {
      QuietOffersAreHonoured(w, id, offer);
    }
  }

  // ------------------------------------------------- nothing goes unoffered

  lemma SuccessIsUnbarred(w: World, c: Call)
    requires c.action.kind != GateTransition && Step(w, c).status == Success
    ensures !BarredByCombat(w, c.action) && ApplyRule(Clocked(w, c), c).status == Success
  {
    hide ApplyRule;
    hide BarredByCombat;
  }

  lemma PickedUpWasOffered(w: World, a: Action)
    requires ApplyPickUp(w, a).status == Success
    ensures IsActive(w, a.actor) && SomethingToPickUp(w, GetActor(w, a.actor))
  {
    var i := FindItem(w.items, a.item);
    assert PickUpRefusal(w, a) == NoReason;
    assert LiesLoose(w.items[i], GetActor(w, a.actor).location);
    hide CanExchange;
    hide Evolve;
    assert CanPickUp(w, GetActor(w, a.actor), i);
  }

  lemma AttackedWasOffered(w: World, a: Action, seed: Seed)
    requires ApplyAttack(w, a, seed).status == Success
    ensures IsActive(w, a.actor) && AllowsCombat(w, GetActor(w, a.actor).location)
    ensures FindCompanion(w, GetActor(w, a.actor)) < |w.actors|
  {
    assert IsCompanion(w.actors[FindActor(w.actors, a.target)], GetActor(w, a.actor));
    hide ResolveAttack;
    hide Strike;
    hide DropGuard;
  }

  lemma MovedWasOffered(w: World, a: Action)
    requires ApplyMove(w, a).status == Success && a.threshold.facts == [] && a.threshold.methodId == 0
    ensures IsActive(w, a.actor) && HasOpenExit(w, GetActor(w, a.actor))
  {
    var actor := GetActor(w, a.actor);
    assert MoveRefusal(w, a) == NoReason;
    var x := FindExit(w.exits, actor.location, a.destination);
    hide Evaluate;
    assert CanCrossUnaided(w, a.actor, w.exits[x]);
  }

  lemma TablesDecideOptions(w: World, v: World, id: Id)
    requires SameButTick(w, v) && Known(w, id)
    ensures SomethingToPickUp(v, GetActor(v, id)) ==> SomethingToPickUp(w, GetActor(w, id))
    ensures FindCompanion(v, GetActor(v, id)) < |v.actors| ==> FindCompanion(w, GetActor(w, id)) < |w.actors|
    ensures HasOpenExit(v, GetActor(v, id)) ==> HasOpenExit(w, GetActor(w, id))
  {
    var actor := GetActor(w, id);
    forall out, i ensures CanExchange(v, actor, out, i) == CanExchange(w, actor, out, i) {}
    hide CanExchange;
    if SomethingToPickUp(v, actor) {
      var i :| 0 <= i < |v.items| && LiesLoose(v.items[i], actor.location) && CanPickUp(v, actor, i);
      assert CanPickUp(w, actor, i);
    }
    hide CanPickUp;
    forall x: Exit ensures CanCrossUnaided(v, id, x) == CanCrossUnaided(w, id, x) {
      var g := FindExitGate(w.gates, x.from, x.to);
      if g < |w.gates| {
        SameEvaluation(w, v, w.gates[g].id, id, [], 0);
      }
    }
    hide CanCrossUnaided;
  }

  lemma QuietlyOffered(w: World, id: Id)
    requires IsActive(w, id) && !InFight(w, id)
    ensures var actor := GetActor(w, id);
            && (SomethingToPickUp(w, actor) ==> IsOffered(w, id, OfferPickUp))
            && (AllowsCombat(w, actor.location) && FindCompanion(w, actor) < |w.actors| ==>
                  IsOffered(w, id, OfferAttack))
            && (HasOpenExit(w, actor) ==> IsOffered(w, id, OfferMove))
            && IsOffered(w, id, OfferChat) && IsOffered(w, id, OfferCheck)
  {
    hide SomethingToPickUp;
    hide AllowsCombat;
    hide FirstIndex;
    hide HasOpenExit;
    hide Holding;
    hide CompanionHolds;
  }

  lemma SpokenByTheActive(w: World, c: Call)
    requires c.action.kind == Say || c.action.kind == AbilityCheck
    requires Step(w, c).status == Success
    ensures IsActive(w, c.action.actor) && (c.action.kind == AbilityCheck ==> !Engaged(w, c.action.actor))
  {
    hide ApplyRule, Engaged, Step;
    SuccessIsUnbarred(w, c);
    RuleOfOption(Clocked(w, c), c);
    hide CheckTotal;
  }

  /** What succeeds was on offer: any pick-up, any unordered attack, any ability
      check, anything said outside a fight, and any move that brings no facts and
      names no method. */
  lemma SuccessWasOffered(w: World, c: Call)
    requires Step(w, c).status == Success
    ensures c.action.kind == PickUpItem ==> IsOffered(w, c.action.actor, OfferPickUp)
    ensures c.action.kind == Attack ==> IsOffered(w, c.action.actor, OfferAttack)
    ensures c.action.kind == Move && c.action.threshold.facts == [] && c.action.threshold.methodId == 0 ==>
              IsOffered(w, c.action.actor, OfferMove)
    ensures c.action.kind == Say && !Engaged(w, c.action.actor) ==> IsOffered(w, c.action.actor, OfferChat)
    ensures c.action.kind == AbilityCheck ==> IsOffered(w, c.action.actor, OfferCheck)
  {
    hide Step;
    hide ApplyRule;
    hide ApplyPickUp;
    hide ApplyAttack;
    hide ApplyMove;
    hide IsOffered;
    hide SomethingToPickUp;
    hide HasOpenExit;
    hide Engaged;
    var a, v := c.action, Clocked(w, c);
    if a.kind == PickUpItem || a.kind == Attack
       || (a.kind == Move && a.threshold.facts == [] && a.threshold.methodId == 0) {
      SuccessIsUnbarred(w, c);
      RuleOfOption(v, c);
      if a.kind == PickUpItem {
        PickedUpWasOffered(v, a);
      } else if a.kind == Attack {
        AttackedWasOffered(v, a, c.seed);
      } else {
        MovedWasOffered(v, a);
      }
      FreeMeansNotFighting(w, a.actor);
      TablesDecideOptions(w, v, a.actor);
      hide InFight;
      hide FindCompanion;
      QuietlyOffered(w, a.actor);
    } else if a.kind == AbilityCheck || (a.kind == Say && !Engaged(w, a.actor)) {
      SpokenByTheActive(w, c);
      FreeMeansNotFighting(w, a.actor);
      QuietlyOffered(w, a.actor);
    }
  }

  // ---------------------------------------------- sound worlds stay sound

  /** At most one actor is added, under a new identifier and at a real place. */
  predicate AddsAtMostOne(w: World, after: seq<Actor>) {
    && |w.actors| <= |after| <= |w.actors| + 1
    && (|after| == |w.actors| + 1 ==>
          !Known(w, after[|w.actors|].id) && LocationExists(w, after[|w.actors|].location))
  }

  lemma ArrivalIsNew(w: World, a: Action, seed: Seed)
    ensures AddsAtMostOne(w, ApplyCreateActor(w, a, seed).world.actors)
    ensures AddsAtMostOne(w, ApplyReplaceRescuer(w, a, seed).world.actors)
  {
    hide GeneratedStats;
  }

  lemma ActorRuleAddsAtMostOne(w: World, c: Call)
    requires IsActorRule(c.action.kind)
    ensures AddsAtMostOne(w, ApplyActorRule(w, c).world.actors)
  {
    ArrivalIsNew(w, c.action, c.seed);
    hide ApplyCreateActor;
    hide ApplyReplaceRescuer;
    hide MoveRefusal;
    hide AttackRefusal;
    hide RescueRefusal;
  }

  lemma RuleAddsAtMostOne(w: World, c: Call)
    ensures AddsAtMostOne(w, ApplyRule(w, c).world.actors)
  {
    hide ApplyItemRule;
    hide ApplyCombatRule;
    hide ApplyActorRule;
    hide ApplyGateTransition;
    hide ApplyReport;
    if IsItemRule(c.action.kind) {
      ItemRuleEffect(w, c);
    } else if IsCombatRule(c.action.kind) {
      CombatRuleEffect(w, c);
    } else if c.action.kind == GateTransition {
      GateTransitionEffect(w, c.action, c.seed);
    } else if IsActorRule(c.action.kind) {
      ActorRuleAddsAtMostOne(w, c);
    }
  }

  lemma StepAddsAtMostOne(w: World, c: Call)
    ensures AddsAtMostOne(w, Step(w, c).world.actors)
  {
    hide ApplyRule;
    hide BarredByCombat;
    RuleAddsAtMostOne(Clocked(w, c), c);
  }

  lemma CrossingLeadsSomewhere(w: World, actor: Id, from: Id, to: Id, t: Threshold)
    requires MapOk(w) && LegalCrossing(w, actor, from, to, t)
    ensures LocationExists(w, to)
  {
    assert ExitOk(w, w.exits[FindExit(w.exits, from, to)]);
  }

  lemma StepKeepsPlaces(w: World, c: Call)
    requires DistinctActorIds(w.actors) && EachActorPlaced(w) && MapOk(w)
    ensures var r := Step(w, c).world; DistinctActorIds(r.actors) && EachActorPlaced(r) && MapOk(r)
  {
    hide Step;
    hide LegalCrossing;
    var r := Step(w, c).world;
    StepFrame(w, c);
    StepAddsAtMostOne(w, c);
    forall i | 0 <= i < |r.actors| ensures LocationExists(r, r.actors[i].location) {
      if i < |w.actors| {
        FoundByItsId(w.actors, i);
        StepMovesLegally(w, c, w.actors[i].id);
        ActorPrefix(w.actors, r.actors, w.actors[i].id);
        assert LocationExists(w, w.actors[i].location);
        if r.actors[i].location != w.actors[i].location {
          CrossingLeadsSomewhere(w, w.actors[i].id, w.actors[i].location, r.actors[i].location, c.action.threshold);
        }
      }
    }
    forall i | 0 <= i < |r.exits| ensures ExitOk(r, r.exits[i]) {
      assert ExitOk(w, w.exits[i]);
    }
    hide FirstIndex;
    if |r.actors| == |w.actors| + 1 {
      forall i | 0 <= i < |w.actors| ensures w.actors[i].id != r.actors[|w.actors|].id {}
    }
  }

  lemma StepKeepsItemIds(w: World, c: Call)
    requires DistinctIds(w.items) && NonzeroIds(w.items)
    ensures DistinctIds(Step(w, c).world.items) && NonzeroIds(Step(w, c).world.items)
  {
    hide Step;
    StepAccountsForItems(w, c);
    var r := Step(w, c).world;
    forall i | 0 <= i < |r.items| ensures r.items[i].id != 0 {
      assert r.items[i].id in Ids(r.items);
    }
  }

  lemma StepKeepsSound(w: World, c: Call)
    requires Sound(w)
    ensures Sound(Step(w, c).world)
  {
    hide Step;
    StepKeepsPlaces(w, c);
    StepKeepsItemIds(w, c);
    StepKeepsCombat(w, c);
    hide CombatOk;
    hide MapOk;
    hide EachActorPlaced;
  }

  /** In every state a peaceful run reaches from a sound start, whatever is
      firmly offered to anyone is honoured. */
  lemma {:induction false} OffersAreHonouredInEveryRun(k: Kernel, calls: seq<Call>, id: Id, offer: Offer)
    requires Sound(k.world) && NeverStuck(k.world) && Peaceful(k, calls)
    requires IsOffered(Run(k, calls).world, id, offer) && IsFirm(offer)
    ensures var w := Run(k, calls).world; Honoured(w, KindOf(InFight(w, id), offer), id)
    decreases |calls|
  {
    hide Step;
    hide Sound;
    hide NeverStuck;
    hide Fells;
    hide IsOffered;
    hide InFight;
    hide Honoured;
    if calls == [] {
      OffersAreHonoured(k.world, id, offer);
    } else {
      StepKeepsSound(k.world, calls[0]);
      SoundMeansCombatOk(k.world);
      StuckExactlyWhenFelled(k.world, calls[0]);
      OffersAreHonouredInEveryRun(Advance(k, calls[0]), calls[1..], id, offer);
    }
  }

  lemma SoundMeansCombatOk(w: World)
    requires Sound(w)
    ensures CombatOk(w)
  {}
}
