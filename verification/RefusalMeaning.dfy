/**
  What a refused call is told: for each rule the first thing that was wrong, over
  the tables.  A refusal changes nothing and writes one event with its reason.
 */
module RefusalMeaning {
  import opened KernelTypes
  import opened Lookup
  import opened Carrying
  import opened GateRules
  import opened ItemRules
  import opened CombatRules
  import opened ActorRules
  import opened CombatMeaning
  import opened EncounterMeaning
  import opened ItemMeaning
  import opened CraftMeaning
  import opened ActorMeaning
  import opened GateMeaning
  import opened TransitionMeaning
  import opened Atomicity

  /** The world stays, and the one event tells why. */
  predicate Tells(o: Outcome, w: World, why: Reason) {
    o == Outcome(ErrRule, w, [RuleRejected(why)])
  }

  function WhoIsWrong(w: World, id: Id): Reason {
    if FindActor(w.actors, id) == |w.actors| then ActorNotFound else ActorInactive
  }

  // ------------------------------------------------------------------- items

  lemma PickUpRefused(w: World, a: Action)
    requires ApplyPickUp(w, a).status != Success
    ensures Tells(ApplyPickUp(w, a), w,
                  if !ActiveActor(w, a.actor) then WhoIsWrong(w, a.actor)
                  else if FindItem(w.items, a.item) == |w.items| then ItemNotFound
                  else if !LooseHere(w, a) then ItemNotAvailable
                  else CapacityExceeded)
  {
    hide CanExchange, Evolve, FirstIndex;
  }

  lemma DropRefused(w: World, a: Action)
    requires ApplyDrop(w, a).status != Success
    ensures Tells(ApplyDrop(w, a), w,
                  if !ActiveActor(w, a.actor) then WhoIsWrong(w, a.actor)
                  else if FindItem(w.items, a.item) == |w.items| then ItemNotFound
                  else if !HeldBy(w, a.item, a.actor) then ItemNotAvailable
                  else CapacityExceeded)
  {
    hide CanExchange, Evolve, FirstIndex;
  }

  /** What keeps two from dealing with each other. */
  function WhyNotMeet(w: World, a: Action): Reason {
    if FindActor(w.actors, a.target) == |w.actors| then TargetNotFound
    else if !ActiveActor(w, a.target) || a.actor == a.target then TargetUnavailable
    else NotSameLocation
  }

  lemma GiveRefused(w: World, a: Action)
    requires ApplyGive(w, a).status != Success
    ensures Tells(ApplyGive(w, a), w,
                  if !ActiveActor(w, a.actor) then WhoIsWrong(w, a.actor)
                  else if !Meet(w, a) then WhyNotMeet(w, a)
                  else if FindItem(w.items, a.item) == |w.items| then ItemNotFound
                  else if !HeldBy(w, a.item, a.actor) || (a.targetItem != 0 && !HeldBy(w, a.targetItem, a.target)) then ItemNotAvailable
                  else CapacityExceeded)
  {
    hide CanExchange, Evolve, FirstIndex;
  }

  lemma TradeRefused(w: World, a: Action)
    requires ApplyTrade(w, a).status != Success
    ensures Tells(ApplyTrade(w, a), w,
                  if !ActiveActor(w, a.actor) then WhoIsWrong(w, a.actor)
                  else if a.item == 0 || a.targetItem == 0 || a.item == a.targetItem then InvalidAction
                  else if !Meet(w, a) then WhyNotMeet(w, a)
                  else if FindItem(w.items, a.item) == |w.items| || FindItem(w.items, a.targetItem) == |w.items| then ItemNotFound
                  else if !HeldBy(w, a.item, a.actor) || !HeldBy(w, a.targetItem, a.target) then ItemNotAvailable
                  else CapacityExceeded)
  {
    hide CanExchange, Evolve, FirstIndex;
  }

  lemma SearchRefused(w: World, a: Action)
    requires ApplySearch(w, a).status != Success
    ensures Tells(ApplySearch(w, a), w,
                  if !ActiveActor(w, a.actor) then WhoIsWrong(w, a.actor)
                  else if a.location != 0 && a.location != w.actors[FindActor(w.actors, a.actor)].location then NotSameLocation
                  else if FindLocation(w.locations, w.actors[FindActor(w.actors, a.actor)].location) == |w.locations| then LocationNotFound
                  else if FindItem(w.items, a.item) == |w.items| then ItemNotFound
                  else ItemNotAvailable)
  {
    hide Evolve, FirstIndex;
  }

  lemma RevealRefused(w: World, a: Action)
    requires ApplyReveal(w, a).status != Success
    ensures Tells(ApplyReveal(w, a), w,
                  if FindLocation(w.locations, a.location) == |w.locations| then LocationNotFound
                  else if FindItem(w.items, a.item) == |w.items| then ItemNotFound
                  else if !Hidden(w, a.item) then ItemNotAvailable
                  else CapacityExceeded)
  {
    hide FirstIndex;
  }

  lemma UseRefused(w: World, a: Action)
    requires ApplyUseItem(w, a).status != Success
    ensures Tells(ApplyUseItem(w, a), w,
                  if !ActiveActor(w, a.actor) then WhoIsWrong(w, a.actor)
                  else if FindItem(w.items, a.item) == |w.items| then ItemNotFound
                  else if !Charged(w, a) then ItemNotAvailable
                  else if MeantFor(w, a) == |w.actors| then TargetNotFound
                  else if w.actors[MeantFor(w, a)].location != w.actors[FindActor(w.actors, a.actor)].location then NotSameLocation
                  else if w.items[FindItem(w.items, a.item)].kind != 1 then InvalidAction
                  else TargetUnavailable)
  {
    hide Healed, SpendCharge, FirstIndex;
  }

  lemma UtiliseRefused(w: World, a: Action)
    requires ApplyUtilize(w, a).status != Success
    ensures Tells(ApplyUtilize(w, a), w,
                  if !ActiveActor(w, a.actor) then WhoIsWrong(w, a.actor)
                  else if FindItem(w.items, a.item) == |w.items| then ItemNotFound
                  else ItemNotAvailable)
  {
    hide FirstIndex;
  }

  lemma CastRefused(w: World, a: Action)
    requires ApplyMagic(w, a).status != Success
    ensures Tells(ApplyMagic(w, a), w,
                  if !ActiveActor(w, a.actor) then WhoIsWrong(w, a.actor)
                  else if !(Charged(w, a) && var x := w.items[FindItem(w.items, a.item)]; x.role == 4 && x.zone == SpellDeck)
                  then ItemNotAvailable
                  else if MeantFor(w, a) == |w.actors| || w.actors[MeantFor(w, a)].status != Active then TargetUnavailable
                  else NotSameLocation)
  {
    hide SpendCharge, FirstIndex;
  }

  lemma TheftRefused(w: World, a: Action, seed: Seed)
    requires ApplyTheft(w, a, seed).status != Success
    ensures Tells(ApplyTheft(w, a, seed), w,
                  if !ActiveActor(w, a.actor) then WhoIsWrong(w, a.actor)
                  else if !ActiveActor(w, a.target) || a.actor == a.target then TargetUnavailable
                  else if !Meet(w, a) then NotSameLocation
                  else if FindItem(w.items, a.item) == |w.items| then ItemNotFound
                  else if !HeldBy(w, a.item, a.target) || w.items[FindItem(w.items, a.item)].zone == Escrow then ItemNotAvailable
                  else CapacityExceeded)
  {
    hide CanExchange, TheftSucceeds, FirstIndex;
  }

  /** A recipe that is not well formed. */
  predicate IllFormed(a: Action) {
    || a.content == 0 || a.itemDisposition > 3 || a.targetDisposition > 3
    || (a.targetItem == 0 && a.targetDisposition != 0) || (a.targetItem != 0 && a.item == a.targetItem)
    || (a.item == 0 && !FromNothing(a))
  }

  /** The output is not well described, or for nowhere. */
  predicate IllMade(a: Action) {
    || a.outputTarget == 0 || a.outputTargetKind == 0 || a.outputKind == 0 || a.outputCharges == 0
    || a.outputSize > 4 || a.outputRole > 7 || (a.outputCapacity != 0 && a.outputRole != 5)
  }

  /** Crafting: a full table is told by its status, everything else by its reason. */
  lemma CraftRefused(w: World, a: Action)
    requires ApplyCraft(w, a).status != Success
    ensures var o := ApplyCraft(w, a);
            if !ActiveActor(w, a.actor) then Tells(o, w, WhoIsWrong(w, a.actor))
            else if IllFormed(a) then Tells(o, w, InvalidAction)
            else if (a.item != 0 && FindItem(w.items, a.item) == |w.items|)
                    || (a.targetItem != 0 && FindItem(w.items, a.targetItem) == |w.items|) then Tells(o, w, ItemNotFound)
            else if !SuitsRecipe(w, a, w.actors[FindActor(w.actors, a.actor)]) then Tells(o, w, ItemNotAvailable)
            else if IllMade(a) then Tells(o, w, InvalidAction)
            else if FindItem(w.items, a.output) < |w.items| then Tells(o, w, ItemNotAvailable)
            else if |w.items| >= 1024 + UsedUp(a) then o == Outcome(ErrFull, w, [])
            else if a.outputTargetKind == 1
            then Tells(o, w, if !ActiveActor(w, a.outputTarget) then TargetNotFound else CapacityExceeded)
            else if a.outputTargetKind <= 3 then Tells(o, w, LocationNotFound)
            else Tells(o, w, InvalidAction)
  {
    if ActiveActor(w, a.actor) {
      RecipeMeans(w, a);
      RecipeIsRefused(w, a);
      if CraftRefusal(w, a) == NoReason {
        OutputMeans(w, a);
        if a.output != 0 && CheckOutputSlot(w, a) == SlotFree {
          CraftCreationCannotFail(w, a);
        }
        SlotIsRefused(w, a);
      }
    }
    hide CraftRefusal, CheckOutputSlot, ConsumeInputs, CreateStatus, SuitsRecipe, CanBeMade, Evolve, IllFormed, IllMade, UsedUp,
         FirstIndex;
  }

  lemma RecipeIsRefused(w: World, a: Action)
    requires Known(w, a.actor)
    ensures CraftRefusal(w, a) != NoReason ==>
              CraftRefusal(w, a) == if IllFormed(a) then InvalidAction
                                    else if (a.item != 0 && FindItem(w.items, a.item) == |w.items|)
                                            || (a.targetItem != 0 && FindItem(w.items, a.targetItem) == |w.items|) then ItemNotFound
                                    else ItemNotAvailable
    ensures CraftRefusal(w, a) == NoReason ==>
              !IllFormed(a) && (a.item != 0 ==> FindItem(w.items, a.item) < |w.items|)
              && (a.targetItem != 0 ==> FindItem(w.items, a.targetItem) < |w.items|)
  {
    hide FirstIndex;
  }

  lemma SlotIsRefused(w: World, a: Action)
    requires Known(w, a.actor) && CraftRefusal(w, a) == NoReason && CheckOutputSlot(w, a) != SlotFree
    ensures var s := CheckOutputSlot(w, a);
            s == if IllMade(a) then SlotRefused(InvalidAction)
                 else if FindItem(w.items, a.output) < |w.items| then SlotRefused(ItemNotAvailable)
                 else if |w.items| >= 1024 + UsedUp(a) then SlotFull
                 else if a.outputTargetKind == 1
                 then SlotRefused(if !ActiveActor(w, a.outputTarget) then TargetNotFound else CapacityExceeded)
                 else if a.outputTargetKind <= 3 then SlotRefused(LocationNotFound)
                 else SlotRefused(InvalidAction)
  {
    RemovalsMean(w, a);
    hide CraftRefusal, RemovedCount, UsedUp, OutputFits, FirstIndex;
  }

  /** Resting: too many items to tell of, or nobody to tell, is told by the status. */
  lemma RestRefused(w: World, a: Action, buffered: bool)
    requires ApplyRest(w, a, buffered).status == ErrRule
    ensures Tells(ApplyRest(w, a, buffered), w,
                  if !ActiveActor(w, a.actor) then WhoIsWrong(w, a.actor) else RestGradeOverclaimed)
  {
    hide SelectRefresh, RefreshAll, RestCount, FirstIndex;
  }

  // -------------------------------------------------------------- in a fight

  /** What keeps an actor from taking a turn. */
  function WhyNoTurn(w: World, a: Action): Reason {
    var k := ReferredEncounter(w, a);
    if !ActiveActor(w, a.actor) then WhoIsWrong(w, a.actor)
    else if k == |w.encounters| || w.encounters[k].status != Ongoing then EncounterNotFound
    else if !AbleAt(w, w.encounters[k], FindParticipant(w.encounters[k].participants, a.actor)) then NotParticipant
    else NotCurrentTurn
  }

  lemma TurnRefused(w: World, a: Action)
    requires !HoldsTurn(w, a)
    ensures Tells(ApplyNeedTime(w, a), w, WhyNoTurn(w, a)) && Tells(ApplyPass(w, a), w, WhyNoTurn(w, a))
    ensures Tells(ApplyDodge(w, a), w, WhyNoTurn(w, a)) && Tells(ApplyEscape(w, a), w, WhyNoTurn(w, a))
    ensures forall seed, finesse :: Tells(ApplyCombatAttack(w, a, seed, finesse), w, WhyNoTurn(w, a))
  {
    hide ReferredEncounter, FirstIndex;
  }

  lemma StrikeRefused(w: World, a: Action, seed: Seed, finesse: bool, k: nat)
    requires MayTakeTurn(w, a, k) && ApplyCombatAttack(w, a, seed, finesse).status != Success
    ensures var e := w.encounters[k];
            var i, j := FindParticipant(e.participants, a.actor), FindParticipant(e.participants, a.target);
            Tells(ApplyCombatAttack(w, a, seed, finesse), w,
                  if a.actor == a.target then SelfTarget
                  else if FindActor(w.actors, a.target) == |w.actors| || j == |e.participants| then NotParticipant
                  else if !AbleAt(w, e, j) then TargetUnavailable
                  else if i < |e.participants| && e.participants[i].side == e.participants[j].side then NotHostile
                  else ItemNotAvailable)
  {
    TurnMeans(w, a);
    assert HoldsTurn(w, a) && k == ReferredEncounter(w, a);
    hide HoldsTurn, ReferredEncounter, CombatBlow, Strike, FinishTurn, FirstIndex;
  }

  lemma StartRefused(w: World, a: Action, seed: Seed)
    requires ApplyStart(w, a, seed).status != Success
    ensures Tells(ApplyStart(w, a, seed), w,
                  if a.content == 0 then InvalidAction
                  else if !ActiveActor(w, a.actor) then WhoIsWrong(w, a.actor)
                  else if a.actor == a.target then InvalidAction
                  else if FindActor(w.actors, a.target) == |w.actors| then TargetNotFound
                  else if !ActiveActor(w, a.target) then TargetUnavailable
                  else if w.actors[FindActor(w.actors, a.target)].location != w.actors[FindActor(w.actors, a.actor)].location
                  then NotSameLocation
                  else if !FaceToFace(w, a) then CombatNotAllowed
                  else if !InNoFight(w, a.actor) || !InNoFight(w, a.target) then EncounterActive
                  else if NamesFight(w, a) then EncounterActive
                  else EncounterFull)
  {
    EngagedMeans(w, a.actor);
    EngagedMeans(w, a.target);
    hide Engaged, InNoFight, OpenEncounter, StopDodging, FirstIndex;
  }

  lemma JoinRefused(w: World, a: Action, seed: Seed)
    requires ApplyJoin(w, a, seed).status != Success
    ensures Tells(ApplyJoin(w, a, seed), w,
                  if a.content == 0 then InvalidAction
                  else if !ActiveActor(w, a.actor) then WhoIsWrong(w, a.actor)
                  else if !NamesFight(w, a) then EncounterNotFound
                  else if w.actors[FindActor(w.actors, a.actor)].location
                          != w.encounters[FindEncounter(w.encounters, a.content)].location then NotSameLocation
                  else if !InNoFight(w, a.actor) then EncounterActive
                  else EncounterFull)
  {
    EngagedMeans(w, a.actor);
    hide Engaged, InNoFight, Admit, Initiative, JoinSide, FirstIndex;
  }

  lemma AbandonRefused(w: World, a: Action)
    requires ApplyAbandon(w, a).status != Success
    ensures Tells(ApplyAbandon(w, a), w,
                  if a.content == 0 then InvalidAction else if !NamesFight(w, a) then EncounterNotFound else NotParticipant)
  {
    hide StopAllDodging, FirstIndex;
  }

  // ------------------------------------------------------------------- travel

  /** What keeps an actor from a crossing: no exit, a gate whose offer is not current, a
      gate that does not admit, or a lock that no gate answers for. */
  function WhyNoCrossing(w: World, a: Action, here: Id): Reason {
    var x, g := FindExit(w.exits, here, a.destination), FindExitGate(w.gates, here, a.destination);
    if x == |w.exits| then NoExit
    else if g == |w.gates| then ExitLocked
    else if a.threshold.gate != w.gates[g].id || !OfferIsCurrent(w, a.threshold.gate, a.actor, a.threshold) then StaleGateOffer
    else if !Evaluate(w, w.gates[g].id, a.actor, a.threshold.facts, a.threshold.methodId).decision.allowed then GateClosed
    else ExitLocked
  }

  lemma CrossingRefused(w: World, a: Action, here: Id)
    requires FindExit(w.exits, here, a.destination) < |w.exits|
    ensures var why := CrossingReason(CrossingOf(w, a.actor, w.exits[FindExit(w.exits, here, a.destination)], a.threshold));
            why != NoReason ==> why == WhyNoCrossing(w, a, here)
  {
    hide Evaluate, FirstIndex;
  }

  /** A move that is blocked is told by an event of its own; a flight, like the rest. */
  lemma MoveRefused(w: World, a: Action)
    requires ApplyMove(w, a).status != Success
    ensures var k := FindActor(w.actors, a.actor);
            if !ActiveActor(w, a.actor) then Tells(ApplyMove(w, a), w, WhoIsWrong(w, a.actor))
            else
              ApplyMove(w, a) == Outcome(ErrRule, w, [MoveBlocked(WhyNoMove(w, a, w.actors[k].location))])
  {
    if ActiveActor(w, a.actor) {
      MoveIsRefused(w, a);
    }
    hide MoveRefusal, WhyNoMove, FirstIndex;
  }

  function WhyNoMove(w: World, a: Action, here: Id): Reason {
    if a.destination == 0 || FindLocation(w.locations, a.destination) == |w.locations| then LocationNotFound
    else if a.destination == here then InvalidAction
    else WhyNoCrossing(w, a, here)
  }

  lemma MoveIsRefused(w: World, a: Action)
    requires ActiveActor(w, a.actor) && Known(w, a.actor)
    ensures MoveRefusal(w, a) != NoReason ==>
              MoveRefusal(w, a) == WhyNoMove(w, a, w.actors[FindActor(w.actors, a.actor)].location)
  {
    var here := w.actors[FindActor(w.actors, a.actor)].location;
    if FindExit(w.exits, here, a.destination) < |w.exits| {
      CrossingRefused(w, a, here);
      hide WhyNoCrossing;
    }
    hide CrossingOf, FirstIndex;
  }

  lemma FleeRefused(w: World, a: Action)
    requires ApplyFlee(w, a).status != Success
    ensures var k := FindActor(w.actors, a.actor);
            Tells(ApplyFlee(w, a), w,
                  if !ActiveActor(w, a.actor) then WhoIsWrong(w, a.actor)
                  else if !FightingAllowed(w, w.actors[k].location) then CombatNotAllowed
                  else WhyNoMove(w, a, w.actors[k].location))
  {
    if ActiveActor(w, a.actor) {
      MoveIsRefused(w, a);
    }
    hide MoveRefusal, WhyNoMove, FirstIndex;
  }

  lemma EscapeRefused(w: World, a: Action, k: nat)
    requires MayTakeTurn(w, a, k) && ApplyEscape(w, a).status != Success
    ensures var here := w.actors[FindActor(w.actors, a.actor)].location;
            Tells(ApplyEscape(w, a), w,
                  if a.destination == 0 || FindLocation(w.locations, a.destination) == |w.locations| then LocationNotFound
                  else WhyNoCrossing(w, a, here))
  {
    TurnMeans(w, a);
    var here := w.actors[FindActor(w.actors, a.actor)].location;
    assert HoldsTurn(w, a);
    if FindExit(w.exits, here, a.destination) < |w.exits| {
      CrossingRefused(w, a, here);
      hide WhyNoCrossing;
    }
    hide HoldsTurn, ReferredEncounter, CommitEscape, FinishTurn, CrossingOf, FirstIndex;
  }

  lemma UnlockRefused(w: World, a: Action)
    requires ApplyUnlock(w, a).status != Success
    ensures var x := FindExit(w.exits, a.location, a.destination);
            Tells(ApplyUnlock(w, a), w,
                  if FindLocation(w.locations, a.location) == |w.locations|
                     || FindLocation(w.locations, a.destination) == |w.locations| then LocationNotFound
                  else if x == |w.exits| then NoExit
                  else if FindExitGate(w.gates, a.location, a.destination) < |w.gates| then StaleGateOffer
                  else InvalidAction)
  {
    hide FirstIndex;
  }

  // ------------------------------------------------------------- single actors

  lemma AttackRefused(w: World, a: Action, seed: Seed)
    requires ApplyAttack(w, a, seed).status != Success
    ensures Tells(ApplyAttack(w, a, seed), w,
                  if !ActiveActor(w, a.actor) then WhoIsWrong(w, a.actor)
                  else if a.rollMode > 2 then InvalidAction
                  else if a.actor == a.target then SelfTarget
                  else if FindActor(w.actors, a.target) == |w.actors| then TargetNotFound
                  else if !ActiveActor(w, a.target) then TargetUnavailable
                  else if w.actors[FindActor(w.actors, a.target)].location != w.actors[FindActor(w.actors, a.actor)].location
                  then NotSameLocation
                  else CombatNotAllowed)
  {
    hide ResolveAttack, Strike, DropGuard, FirstIndex;
  }

  /** Too many actors are told by the status. */
  lemma CreationRefused(w: World, a: Action, seed: Seed)
    requires ApplyCreateActor(w, a, seed).status != Success
    ensures var o := ApplyCreateActor(w, a, seed);
            if FindLocation(w.locations, BirthPlace(a)) == |w.locations| then Tells(o, w, LocationNotFound)
            else if FindActor(w.actors, a.actor) < |w.actors| then Tells(o, w, InvalidAction)
            else o == Outcome(ErrFull, w, [])
  {
    hide NewActor, FirstIndex;
  }

  lemma RescueRefused(w: World, a: Action)
    requires ApplyCompleteRescue(w, a).status != Success
    ensures var i, k, t := FindItem(w.items, a.item), FindActor(w.actors, a.actor), FindActor(w.actors, a.target);
            Tells(ApplyCompleteRescue(w, a), w,
                  if !ActiveActor(w, a.actor) then WhoIsWrong(w, a.actor)
                  else if t == |w.actors| then TargetNotFound
                  else if !Fallen(w, a.target) then TargetUnavailable
                  else if w.actors[t].location != w.actors[k].location then NotSameLocation
                  else if i == |w.items| then ItemNotFound
                  else if !(Charged(w, a) && w.items[i].kind == 1) then ItemNotAvailable
                  else InvalidAction)
  {
    hide RevivePair, SpendCharge, FirstIndex;
  }

  lemma ReplacementRefused(w: World, a: Action, seed: Seed)
    requires ApplyReplaceRescuer(w, a, seed).status != Success
    ensures var o, i := ApplyReplaceRescuer(w, a, seed), FindItem(w.items, a.item);
            if FindLocation(w.locations, BirthPlace(a)) == |w.locations| then Tells(o, w, LocationNotFound)
            else if FindActor(w.actors, a.actor) < |w.actors| then Tells(o, w, InvalidAction)
            else if FindActor(w.actors, a.target) == |w.actors| || FindActor(w.actors, a.content) == |w.actors|
            then Tells(o, w, TargetNotFound)
            else if i == |w.items| then Tells(o, w, ItemNotFound)
            else if w.items[i].kind != 1 then Tells(o, w, ItemNotAvailable)
            else if !Fallen(w, a.target) || !Fallen(w, a.content) || a.target == a.content then Tells(o, w, TargetUnavailable)
            else o == Outcome(ErrFull, w, [])
  {
    hide NewActor, ReplaceActors, FirstIndex;
  }

  lemma WordsRefused(w: World, a: Action, seed: Seed, event: EventKind)
    ensures ApplySay(w, a).status != Success ==> Tells(ApplySay(w, a), w, WhoIsWrong(w, a.actor))
    ensures ApplyDefend(w, a).status != Success ==> Tells(ApplyDefend(w, a), w, WhoIsWrong(w, a.actor))
    ensures ApplyProjectPush(w, a).status != Success ==>
              Tells(ApplyProjectPush(w, a), w, if !ActiveActor(w, a.actor) then WhoIsWrong(w, a.actor) else InvalidAction)
    ensures ApplyAbilityCheck(w, a, seed).status != Success ==>
              Tells(ApplyAbilityCheck(w, a, seed), w, if !ActiveActor(w, a.actor) then WhoIsWrong(w, a.actor) else InvalidAction)
    ensures ApplyDiscovery(w, a, seed, event).status != Success ==>
              Tells(ApplyDiscovery(w, a, seed, event), w,
                    if !ActiveActor(w, a.actor) then WhoIsWrong(w, a.actor)
                    else if a.location == 0 || a.location != w.actors[FindActor(w.actors, a.actor)].location
                            || FindLocation(w.locations, a.location) == |w.locations| then NotSameLocation
                    else InvalidAction)
  {
    hide CheckTotal, PushProgress, FirstIndex;
  }

  // -------------------------------------------------------- gate transitions

  /** What is wrong before any die is rolled. */
  function WhyNotTried(w: World, a: Action): Reason {
    var t := a.threshold;
    if !ActiveActor(w, a.actor) then WhoIsWrong(w, a.actor)
    else if t.gate == 0 || t.claim == 0 || !(1 <= t.transition <= 8) || |t.facts| > 8 then InvalidAction
    else if FindGate(w.gates, t.gate) == |w.gates| then TargetNotFound
    else
      var e := Evaluate(w, t.gate, a.actor, t.facts, t.methodId);
      if !(e.Decided? && t.expectedVersion == e.decision.gateVersion && t.expectedRevision == e.decision.accessRevision
           && t.expectedDigest == e.decision.digest) then StaleGateOffer
      else if t.transition in {1, 3, 5, 7, 8} && !(e.decision.allowed && t.methodId != 0 && e.decision.methodId == t.methodId)
      then GateClosed
      else if !AsksWell(w, a) || (t.resolution == 1 && |w.claims| >= 128) then InvalidAction
      else NoReason
  }

  /** And what is wrong after it: the gate is in that state already, the item does not
      suit, or there is no room. */
  function WhyNotSettled(w: World, a: Action): Reason
    requires Stands(w, a)
  {
    var t, i := a.threshold, FindItem(w.items, a.item);
    var actor := w.actors[FindActor(w.actors, a.actor)];
    if !Changes(StateFor(w, w.gates[FindGate(w.gates, t.gate)], a.actor), t.transition) then InvalidAction
    else if !SuitsItem(w, a) then
      match t.transition
      case 5 => ItemNotAvailable
      case 6 => if a.item != 0 && i < |w.items| && w.items[i].location == actor.location then CapacityExceeded else ItemNotAvailable
      case 7 => ItemNotAvailable
      case 8 => ItemNotAvailable
      case _ => InvalidAction
    else CapacityExceeded
  }

  lemma SettlementIsRefused(w: World, a: Action)
    requires Stands(w, a) && 1 <= a.threshold.transition <= 8 && SettlementRefusal(w, a) != NoReason
    ensures SettlementRefusal(w, a) == WhyNotSettled(w, a)
  {
    hide CanExchange, FirstIndex;
  }

  lemma AttemptIsRefused(w: World, a: Action)
    requires ActiveActor(w, a.actor) && FindGate(w.gates, a.threshold.gate) < |w.gates|
    requires a.threshold.gate != 0 && a.threshold.claim != 0 && 1 <= a.threshold.transition <= 8 && |a.threshold.facts| <= 8
    ensures TransitionRefusal(w, a) == WhyNotTried(w, a)
  {
    hide Evaluate, FirstIndex;
  }

  /** A transition under a new claim is refused before its check, or after it with the
      check's own event first; nothing is written either way. */
  lemma TransitionRefused(w: World, a: Action, seed: Seed)
    requires ApplyGateTransition(w, a, seed).status != Success && FindClaim(w.claims, a.threshold.claim) == |w.claims|
    ensures var o := ApplyGateTransition(w, a, seed);
            if WhyNotTried(w, a) != NoReason then Tells(o, w, WhyNotTried(w, a))
            else
              Stands(w, a) && o == Outcome(ErrRule, w, CheckEvents(w, a, seed) + [RuleRejected(WhyNotSettled(w, a))])
  {
    hide TransitionRefusal, SettlementRefusal, WhyNotSettled, SetState, SetStateStatus, MoveTransitionItem, MatchesClaim, ToI16,
         RollD20, AbilityModifier, StatValue, Evaluate, FirstIndex;
    if Stands(w, a) && a.threshold.gate != 0 && a.threshold.claim != 0 && 1 <= a.threshold.transition <= 8 && |a.threshold.facts| <= 8 {
      AttemptIsRefused(w, a);
      if SettlementRefusal(w, a) != NoReason {
        SettlementIsRefused(w, a);
      } else {
        StateWriteCannotFail(w, a);
      }
      hide WhyNotTried;
    }
  }
}
