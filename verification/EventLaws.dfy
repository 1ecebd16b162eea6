/**
  Completeness of the event log.  No call ever fills the buffer before its last
  event, events are numbered without gaps over whole runs, and the evolution
  passes can add at most one event for each track in a world's lifetime.
 */
module EventLaws {
  import opened KernelTypes
  import opened Lookup
  import opened Carrying
  import opened GateRules
  import opened ItemRules
  import opened CombatRules
  import opened ActorRules
  import opened Dispatcher
  import opened Effects
  import opened Atomicity
  import opened Claims

  // ---------------------------------------------------------- evolution debt

  /** The track's actor has not evolved yet, or does not exist yet. */
  predicate Pending(actors: seq<Actor>, t: Track) {
    var i := FindActor(actors, t.actor);
    i == |actors| || actors[i].stats.level < 2
  }

  function PendingUpTo(actors: seq<Actor>, tracks: seq<Track>, n: nat): (count: nat)
    requires n <= |tracks|
    ensures count <= n
  {
    if n == 0 then 0 else PendingUpTo(actors, tracks, n - 1) + if Pending(actors, tracks[n - 1]) then 1 else 0
  }

  /** How many tracks can still produce an evolution event. */
  function PendingTracks(w: World): nat {
    PendingUpTo(w.actors, w.tracks, |w.tracks|)
  }

  lemma {:induction false} FewerPending(before: seq<Actor>, after: seq<Actor>, tracks: seq<Track>, n: nat)
    requires n <= |tracks|
    requires forall k :: 0 <= k < n && Pending(after, tracks[k]) ==> Pending(before, tracks[k])
    ensures PendingUpTo(after, tracks, n) <= PendingUpTo(before, tracks, n)
    ensures (exists k :: 0 <= k < n && Pending(before, tracks[k]) && !Pending(after, tracks[k])) ==>
              PendingUpTo(after, tracks, n) < PendingUpTo(before, tracks, n)
  {
    hide Pending;
    if n != 0 {
      FewerPending(before, after, tracks, n - 1);
    }
  }

  lemma KeptActorsSettle(before: seq<Actor>, after: seq<Actor>, t: Track)
    requires KeepsActors(before, after) && Pending(after, t)
    ensures Pending(before, t)
  {
    if FindActor(before, t.actor) < |before| {
      ActorPrefix(before, after, t.actor);
    }
  }

  lemma KeptActorsNeverAddPending(w: World, r: World)
    requires KeepsActors(w.actors, r.actors) && r.tracks == w.tracks
    ensures PendingTracks(r) <= PendingTracks(w)
  {
    forall k | 0 <= k < |w.tracks| && Pending(r.actors, w.tracks[k]) ensures Pending(w.actors, w.tracks[k]) {
      KeptActorsSettle(w.actors, r.actors, w.tracks[k]);
    }
    hide Pending;
    FewerPending(w.actors, r.actors, w.tracks, |w.tracks|);
  }

  lemma EvolvingSettlesATrack(w: World, i: nat)
    requires i < |w.tracks| && ReadyToEvolve(w, w.tracks[i])
    ensures var next := PutActor(w, Evolved(GetActor(w, w.tracks[i].actor)));
            next.tracks == w.tracks && PendingTracks(next) + 1 <= PendingTracks(w)
  {
    hide TrackComplete;
    hide FirstIndex;
    var next := PutActor(w, Evolved(GetActor(w, w.tracks[i].actor)));
    assert Pending(w.actors, w.tracks[i]) && !Pending(next.actors, w.tracks[i]);
    forall k | 0 <= k < |w.tracks| && Pending(next.actors, w.tracks[k]) ensures Pending(w.actors, w.tracks[k]) {
      KeptActorsSettle(w.actors, next.actors, w.tracks[k]);
    }
    hide Pending;
    FewerPending(w.actors, next.actors, w.tracks, |w.tracks|);
  }

  /** A pass emits one event for each track it settles, and nothing else. */
  lemma {:induction false} EvolvePaysForEvents(w: World, i: nat)
    requires i <= |w.tracks|
    ensures var e := Evolve(w, i);
            && |e.events| + PendingTracks(e.world) <= PendingTracks(w)
            && forall k :: 0 <= k < |e.events| ==> e.events[k].AvatarEvolved?
    decreases |w.tracks| - i
  {
    hide PendingTracks;
    if i < |w.tracks| {
      if ReadyToEvolve(w, w.tracks[i]) {
        EvolvingSettlesATrack(w, i);
        EvolvePaysForEvents(PutActor(w, Evolved(GetActor(w, w.tracks[i].actor))), i + 1);
      } else {
        EvolvePaysForEvents(w, i + 1);
      }
    }
  }

  function Evolutions(events: seq<EventKind>, n: nat): (count: nat)
    requires n <= |events|
  {
    if n == 0 then 0 else Evolutions(events, n - 1) + if events[n - 1].AvatarEvolved? then 1 else 0
  }

  function EvolutionCount(events: seq<EventKind>): nat {
    Evolutions(events, |events|)
  }

  lemma {:induction false} EvolutionsAdd(first: seq<EventKind>, second: seq<EventKind>, n: nat)
    requires n <= |second|
    ensures Evolutions(first + second, |first| + n) == EvolutionCount(first) + Evolutions(second, n)
  {
    if n == 0 {
      EvolutionsPrefix(first, second, |first|);
    } else {
      EvolutionsAdd(first, second, n - 1);
      assert (first + second)[|first| + n - 1] == second[n - 1];
    }
  }

  lemma {:induction false} EvolutionsPrefix(first: seq<EventKind>, second: seq<EventKind>, n: nat)
    requires n <= |first|
    ensures Evolutions(first + second, n) == Evolutions(first, n)
  {
    if n != 0 {
      EvolutionsPrefix(first, second, n - 1);
    }
  }

  lemma {:induction false} EvolutionsAtMost(events: seq<EventKind>, n: nat)
    requires n <= |events|
    ensures Evolutions(events, n) <= n
    ensures (forall k :: 0 <= k < n ==> !events[k].AvatarEvolved?) ==> Evolutions(events, n) == 0
  {
    if n != 0 {
      EvolutionsAtMost(events, n - 1);
    }
  }

  /** One for an actor who has evolved, nought for anybody else. */
  function Settled(actors: seq<Actor>, id: Id): nat {
    var i := FindActor(actors, id);
    if i < |actors| && actors[i].stats.level >= 2 then 1 else 0
  }

  /** Each actor named by an evolution event had not evolved, has now, and is named once. */
  ghost predicate EvolvesOnce(before: seq<Actor>, after: seq<Actor>, events: seq<EventKind>) {
    forall id :: multiset(events)[AvatarEvolved(id)] + Settled(before, id) <= Settled(after, id)
  }

  /** `extra` events besides evolutions at most, each evolution paid for by a
      track and each of a different actor. */
  ghost predicate Accounted(w: World, o: Outcome, extra: nat) {
    && |o.events| <= extra + PendingTracks(w)
    && EvolutionCount(o.events) + PendingTracks(o.world) <= PendingTracks(w)
    && EvolvesOnce(w.actors, o.world.actors, o.events)
  }

  predicate NoEvolution(events: seq<EventKind>) {
    forall k :: 0 <= k < |events| ==> !events[k].AvatarEvolved?
  }

  lemma PlainEvolvesNobody(before: seq<Actor>, after: seq<Actor>, events: seq<EventKind>)
    requires NoEvolution(events) && KeepsActors(before, after)
    ensures EvolvesOnce(before, after, events)
  {
    forall id ensures multiset(events)[AvatarEvolved(id)] + Settled(before, id) <= Settled(after, id) {
      assert AvatarEvolved(id) !in events;
      if FindActor(before, id) < |before| {
        ActorPrefix(before, after, id);
      }
    }
  }

  lemma EvolvesOnceInTurn(first: seq<Actor>, second: seq<Actor>, third: seq<Actor>, one: seq<EventKind>, two: seq<EventKind>)
    requires EvolvesOnce(first, second, one) && EvolvesOnce(second, third, two)
    ensures EvolvesOnce(first, third, one + two)
  {
    hide Settled;
    assert multiset(one + two) == multiset(one) + multiset(two);
  }

  lemma EvolvingIsOnce(w: World, t: Track)
    requires ReadyToEvolve(w, t)
    ensures EvolvesOnce(w.actors, PutActor(w, Evolved(GetActor(w, t.actor))).actors, [AvatarEvolved(t.actor)])
  {
    hide TrackComplete, FirstIndex;
  }

  /** A pass evolves nobody twice. */
  lemma {:induction false} PassEvolvesOnce(w: World, i: nat)
    requires i <= |w.tracks|
    ensures EvolvesOnce(w.actors, Evolve(w, i).world.actors, Evolve(w, i).events)
    decreases |w.tracks| - i
  {
    if i == |w.tracks| {
      PlainEvolvesNobody(w.actors, w.actors, []);
    } else if ReadyToEvolve(w, w.tracks[i]) {
      var next := PutActor(w, Evolved(GetActor(w, w.tracks[i].actor)));
      EvolvingIsOnce(w, w.tracks[i]);
      PassEvolvesOnce(next, i + 1);
      EvolvesOnceInTurn(w.actors, next.actors, Evolve(w, i).world.actors,
                        [AvatarEvolved(w.tracks[i].actor)], Evolve(next, i + 1).events);
    } else {
      PassEvolvesOnce(w, i + 1);
    }
  }

  lemma PassIsAccounted(w: World)
    ensures var e := EvolveAll(w);
            && |e.events| + PendingTracks(e.world) <= PendingTracks(w)
            && EvolutionCount(e.events) <= |e.events|
            && EvolvesOnce(w.actors, e.world.actors, e.events)
  {
    EvolvePaysForEvents(w, 0);
    EvolutionsAtMost(EvolveAll(w).events, |EvolveAll(w).events|);
    PassEvolvesOnce(w, 0);
  }

  lemma CountAppended(first: seq<EventKind>, second: seq<EventKind>)
    ensures EvolutionCount(first + second) == EvolutionCount(first) + EvolutionCount(second)
  {
    EvolutionsAdd(first, second, |second|);
    assert |first + second| == |first| + |second|;
  }

  lemma PlacementIsAccounted(w: World, events: seq<EventKind>)
    requires NoEvolution(events)
    ensures Accounted(w, Placed(w, events), |events|)
  {
    PassIsAccounted(w);
    CountAppended(events, EvolveAll(w).events);
    PlainEvolvesNobody(w.actors, w.actors, events);
    EvolvesOnceInTurn(w.actors, w.actors, EvolveAll(w).world.actors, events, EvolveAll(w).events);
    hide EvolvesOnce;
    EvolutionsAtMost(events, |events|);
    assert EvolutionCount(events) == Evolutions(events, |events|);
    hide EvolveAll;
    hide EvolutionCount, EvolvesOnce;
    hide Evolutions;
  }

  lemma DoublePlacementIsAccounted(w: World, events: seq<EventKind>)
    requires NoEvolution(events)
    ensures Accounted(w, PlacedTwice(w, events), |events|)
  {
    var first := EvolveAll(w);
    PassIsAccounted(w);
    PassIsAccounted(first.world);
    CountAppended(events, first.events);
    CountAppended(events + first.events, EvolveAll(first.world).events);
    PlainEvolvesNobody(w.actors, w.actors, events);
    EvolvesOnceInTurn(w.actors, w.actors, first.world.actors, events, first.events);
    EvolvesOnceInTurn(w.actors, first.world.actors, EvolveAll(first.world).world.actors,
                      events + first.events, EvolveAll(first.world).events);
    hide EvolvesOnce;
    EvolutionsAtMost(events, |events|);
    assert EvolutionCount(events) == Evolutions(events, |events|);
    hide EvolveAll;
    hide EvolutionCount, EvolvesOnce;
    hide Evolutions;
  }

  /** A rule that emits a few plain events and never un-evolves anyone. */
  lemma PlainIsAccounted(w: World, o: Outcome, extra: nat)
    requires NoEvolution(o.events) && |o.events| <= extra
    requires KeepsActors(w.actors, o.world.actors) && o.world.tracks == w.tracks
    ensures Accounted(w, o, extra)
  {
    KeptActorsNeverAddPending(w, o.world);
    EvolutionsAtMost(o.events, |o.events|);
    PlainEvolvesNobody(w.actors, o.world.actors, o.events);
    hide EvolvesOnce;
  }

  // -------------------------------------------------------------- item rules

  /** Four events besides evolutions cover every rule that can evolve anyone. */
  const MOST_PLACEMENT_EVENTS: nat := 4

  lemma ItemsOweNothing(w: World, v: World)
    requires v == w.(items := v.items)
    ensures PendingTracks(v) == PendingTracks(w)
  {}

  lemma PickUpIsAccounted(w: World, a: Action)
    ensures Accounted(w, ApplyPickUp(w, a), MOST_PLACEMENT_EVENTS)
  {
    hide Placed;
    hide PendingTracks;
    hide EvolutionCount, EvolvesOnce;
    hide PickUpRefusal;
    hide FirstIndex;
    if IsActive(w, a.actor) && PickUpRefusal(w, a) == NoReason {
      ItemsOweNothing(w, CommitPickUp(w, a));
      PlacementIsAccounted(CommitPickUp(w, a), if NeedsExchange(w, a) then [ItemDropped, ItemPickedUp] else [ItemPickedUp]);
    } else {
      PlainIsAccounted(w, ApplyPickUp(w, a), 1);
    }
  }

  lemma DropIsAccounted(w: World, a: Action)
    ensures Accounted(w, ApplyDrop(w, a), MOST_PLACEMENT_EVENTS)
  {
    hide Placed;
    hide PendingTracks;
    hide EvolutionCount, EvolvesOnce;
    hide FirstIndex;
    hide CanExchange;
    if IsActive(w, a.actor) && DropRefusal(w, a) == NoReason {
      ItemsOweNothing(w, CommitDrop(w, a));
      PlacementIsAccounted(CommitDrop(w, a), [ItemDropped]);
    } else {
      PlainIsAccounted(w, ApplyDrop(w, a), 1);
    }
  }

  lemma SearchIsAccounted(w: World, a: Action)
    ensures Accounted(w, ApplySearch(w, a), MOST_PLACEMENT_EVENTS)
  {
    hide Placed;
    hide PendingTracks;
    hide EvolutionCount, EvolvesOnce;
    hide FirstIndex;
    if IsActive(w, a.actor) && SearchRefusal(w, a) == NoReason {
      ItemsOweNothing(w, CommitSearch(w, a));
      PlacementIsAccounted(CommitSearch(w, a), [ItemFound]);
    } else {
      PlainIsAccounted(w, ApplySearch(w, a), 1);
    }
  }

  lemma GiveIsAccounted(w: World, a: Action)
    ensures Accounted(w, ApplyGive(w, a), MOST_PLACEMENT_EVENTS)
  {
    hide Placed;
    hide PendingTracks;
    hide EvolutionCount, EvolvesOnce;
    hide GiveRefusal;
    hide Exchange;
    if IsActive(w, a.actor) && GiveRefusal(w, a) == NoReason {
      ItemsOweNothing(w, CommitGive(w, a));
      PlacementIsAccounted(CommitGive(w, a), [ItemGiven]);
    } else {
      PlainIsAccounted(w, ApplyGive(w, a), 1);
    }
  }

  lemma TradeIsAccounted(w: World, a: Action)
    ensures Accounted(w, ApplyTrade(w, a), MOST_PLACEMENT_EVENTS)
  {
    hide PlacedTwice;
    hide PendingTracks;
    hide EvolutionCount, EvolvesOnce;
    hide TradeRefusal;
    hide Exchange;
    if IsActive(w, a.actor) && TradeRefusal(w, a) == NoReason {
      ItemsOweNothing(w, CommitTrade(w, a));
      DoublePlacementIsAccounted(CommitTrade(w, a), [ItemTraded]);
    } else {
      PlainIsAccounted(w, ApplyTrade(w, a), 1);
    }
  }

  lemma InputEventsArePlain(a: Action)
    ensures NoEvolution([ItemCrafted] + InputEvents(a)) && |InputEvents(a)| <= 2
  {}

  lemma CraftCommitIsAccounted(w: World, used: World, a: Action, events: seq<EventKind>)
    requires used == w.(items := used.items) && NoEvolution(events) && |events| <= 3
    requires a.output != 0 ==> CreateStatus(used, a) == Success
    ensures Accounted(w, CommitCraft(used, a, events), MOST_PLACEMENT_EVENTS)
  {
    hide CreateStatus;
    hide Placed;
    hide PlacedTwice;
    hide PendingTracks;
    hide EvolutionCount, EvolvesOnce;
    var made := used.(items := used.items + [OutputItem(a, used.tick)]);
    hide OutputItem;
    ItemsOweNothing(w, used);
    ItemsOweNothing(w, made);
    if a.output != 0 {
      PlacementIsAccounted(made, events + [ItemCreated]);
    } else {
      PlacementIsAccounted(used, events);
      DoublePlacementIsAccounted(used, events);
    }
  }

  lemma CraftIsAccounted(w: World, a: Action)
    ensures Accounted(w, ApplyCraft(w, a), MOST_PLACEMENT_EVENTS)
  {
    hide CraftRefusal;
    hide CheckOutputSlot;
    hide ConsumeInputs;
    hide InputEvents;
    hide CreateStatus;
    hide CommitCraft;
    hide PendingTracks;
    hide EvolutionCount, EvolvesOnce;
    if IsActive(w, a.actor) && CraftRefusal(w, a) == NoReason && CheckOutputSlot(w, a) == SlotFree {
      InputEventsArePlain(a);
      if a.output != 0 {
        CraftCreationCannotFail(w, a);
      }
      CraftCommitIsAccounted(w, ConsumeInputs(w, a), a, [ItemCrafted] + InputEvents(a));
    } else {
      PlainIsAccounted(w, ApplyCraft(w, a), 1);
    }
  }

  /** The rules that look for completed evolution tracks. */
  predicate IsPlacement(kind: ActionKind) {
    || kind == PickUpItem || kind == DropItem || kind == Search
    || kind == GiveItem || kind == TradeItem || kind == Craft
  }

  lemma UseEventsArePlain(w: World, a: Action)
    ensures var o := ApplyUseItem(w, a); NoEvolution(o.events) && |o.events| <= MAX_EVENTS
  {
    hide UseRefusal;
    hide Healed;
    hide SpendCharge;
    hide PutItem;
    hide PutActor;
    hide FindActor;
    hide FindItem;
  }

  lemma SpellEventsArePlain(w: World, a: Action, seed: Seed)
    ensures var o := ApplyUtilize(w, a); NoEvolution(o.events) && |o.events| <= MAX_EVENTS
    ensures var o := ApplyMagic(w, a); NoEvolution(o.events) && |o.events| <= MAX_EVENTS
    ensures var o := ApplyTheft(w, a, seed); NoEvolution(o.events) && |o.events| <= MAX_EVENTS
  {
    hide MagicRefusal;
    hide TheftRefusal;
    hide TheftSucceeds;
    hide SpendCharge;
    hide PutItem;
    hide FindActor;
    hide FindItem;
  }

  lemma RestEventsArePlain(w: World, a: Action, buffered: bool)
    ensures var o := ApplyRest(w, a, buffered); NoEvolution(o.events) && |o.events| <= MAX_EVENTS
    ensures var o := ApplyReveal(w, a); NoEvolution(o.events) && |o.events| <= MAX_EVENTS
  {
    hide RestCount;
    hide SelectRefresh;
    hide RefreshAll;
    hide RevealRefusal;
    hide FirstIndex;
  }

  lemma QuietItemRulesAreAccounted(w: World, c: Call)
    requires IsItemRule(c.action.kind) && !IsPlacement(c.action.kind)
    ensures NoEvolution(ApplyItemRule(w, c).events)
    ensures |ApplyItemRule(w, c).events| <= MAX_EVENTS
  {
    hide ApplyUseItem;
    hide ApplyUtilize;
    hide ApplyMagic;
    hide ApplyTheft;
    hide ApplyRest;
    hide ApplyReveal;
    hide NoEvolution;
    UseEventsArePlain(w, c.action);
    SpellEventsArePlain(w, c.action, c.seed);
    RestEventsArePlain(w, c.action, c.buffered);
  }

  // ---------------------------------------------------------------- any rule

  lemma FinishTurnEvents(w: World, k: nat)
    requires k < |w.encounters|
    ensures NoEvolution(FinishTurn(w, k).events) && |FinishTurn(w, k).events| <= 2
  {
    hide AdvanceTurn;
    hide SideCanAct;
    hide StopDodging;
  }

  lemma TurnHasAnEncounter(w: World, a: Action)
    requires HoldsTurn(w, a)
    ensures ReferredEncounter(w, a) < |w.encounters|
  {}

  lemma StruckTargetIsKnown(w: World, a: Action)
    requires HoldsTurn(w, a) && CombatAttackRefusal(w, a) == NoReason
    ensures Known(w, a.target)
  {}

  lemma AttackEventsArePlain(w: World, a: Action, seed: Seed, finesse: bool)
    ensures var o := ApplyCombatAttack(w, a, seed, finesse); NoEvolution(o.events) && |o.events| <= 5
  {
    hide TurnRefusal;
    hide CombatAttackRefusal;
    hide CombatBlow;
    hide Strike;
    hide FinishTurn;
    hide ReferredEncounter;
    if HoldsTurn(w, a) && CombatAttackRefusal(w, a) == NoReason {
      TurnHasAnEncounter(w, a);
      StruckTargetIsKnown(w, a);
      FinishTurnEvents(Strike(w, a.target, CombatBlow(w, a, seed, finesse)), ReferredEncounter(w, a));
    }
  }

  lemma EscapeEventsArePlain(w: World, a: Action)
    ensures var o := ApplyEscape(w, a); NoEvolution(o.events) && |o.events| <= 5
  {
    hide TurnRefusal;
    hide EscapeRefusal;
    hide CommitEscape;
    hide FinishTurn;
    hide ReferredEncounter;
    if HoldsTurn(w, a) {
      TurnHasAnEncounter(w, a);
      FinishTurnEvents(CommitEscape(w, a, ReferredEncounter(w, a)), ReferredEncounter(w, a));
    }
  }

  lemma TurnEventsArePlain(w: World, a: Action)
    ensures var o := ApplyDodge(w, a); NoEvolution(o.events) && |o.events| <= 5
    ensures var o := ApplyPass(w, a); NoEvolution(o.events) && |o.events| <= 5
  {
    hide TurnRefusal;
    hide StartDodging;
    hide FinishTurn;
    hide ReferredEncounter;
    if HoldsTurn(w, a) {
      TurnHasAnEncounter(w, a);
      FinishTurnEvents(w, ReferredEncounter(w, a));
      FinishTurnEvents(StartDodging(w, a.actor), ReferredEncounter(w, a));
    }
  }

  lemma EntryEventsArePlain(w: World, a: Action, seed: Seed)
    ensures var o := ApplyStart(w, a, seed); NoEvolution(o.events) && |o.events| <= 5
    ensures var o := ApplyJoin(w, a, seed); NoEvolution(o.events) && |o.events| <= 5
  {
    hide StartRefusal;
    hide StartSlot;
    hide OpenEncounter;
    hide StopDodging;
    hide Admit;
    hide Initiative;
    hide Engaged;
    hide FirstIndex;
  }

  lemma ClosingEventsArePlain(w: World, a: Action)
    ensures var o := ApplyAbandon(w, a); NoEvolution(o.events) && |o.events| <= 5
    ensures var o := ApplyNeedTime(w, a); NoEvolution(o.events) && |o.events| <= 5
  {
    hide TurnRefusal;
    hide StopAllDodging;
    hide FirstIndex;
  }

  lemma CombatEventsArePlain(w: World, c: Call)
    requires IsCombatRule(c.action.kind)
    ensures NoEvolution(ApplyCombatRule(w, c).events) && |ApplyCombatRule(w, c).events| <= 5
  {
    hide ApplyStart;
    hide ApplyJoin;
    hide ApplyCombatAttack;
    hide ApplyDodge;
    hide ApplyPass;
    hide ApplyEscape;
    hide ApplyAbandon;
    hide ApplyNeedTime;
    hide NoEvolution;
    var a := c.action;
    AttackEventsArePlain(w, a, c.seed, a.kind == CombatFinesseAttack);
    TurnEventsArePlain(w, a);
    EscapeEventsArePlain(w, a);
    EntryEventsArePlain(w, a, c.seed);
    ClosingEventsArePlain(w, a);
  }

  lemma RescueEventsArePlain(w: World, a: Action)
    ensures var o := ApplyCompleteRescue(w, a); NoEvolution(o.events) && |o.events| <= 5
  {
    hide RescueRefusal;
    hide RevivePair;
    hide SpendCharge;
    hide PutItem;
  }

  lemma ArrivalEventsArePlain(w: World, a: Action, seed: Seed)
    ensures var o := ApplyReplaceRescuer(w, a, seed); NoEvolution(o.events) && |o.events| <= 5
    ensures var o := ApplyCreateActor(w, a, seed); NoEvolution(o.events) && |o.events| <= 5
  {
    hide ReplaceRefusal;
    hide ReplaceActors;
    hide NewActor;
    hide PutItem;
    hide FirstIndex;
  }

  lemma JourneyEventsArePlain(w: World, a: Action)
    ensures var o := ApplyMove(w, a); NoEvolution(o.events) && |o.events| <= 5
    ensures var o := ApplyFlee(w, a); NoEvolution(o.events) && |o.events| <= 5
    ensures var o := ApplyUnlock(w, a); NoEvolution(o.events) && |o.events| <= 5
  {
    hide MoveRefusal;
    hide FirstIndex;
    hide AllowsCombat;
    hide LocationExists;
  }

  lemma OpenAttackEventsArePlain(w: World, a: Action, seed: Seed)
    ensures var o := ApplyAttack(w, a, seed); NoEvolution(o.events) && |o.events| <= 5
    ensures var o := ApplyDefend(w, a); NoEvolution(o.events) && |o.events| <= 5
  {
    hide AttackRefusal;
    hide ResolveAttack;
    hide Strike;
    hide DropGuard;
    hide FirstIndex;
  }

  lemma ActorEventsArePlain(w: World, c: Call)
    requires IsActorRule(c.action.kind)
    ensures NoEvolution(ApplyActorRule(w, c).events) && |ApplyActorRule(w, c).events| <= 5
  {
    hide ApplyCompleteRescue;
    hide ApplyReplaceRescuer;
    hide ApplyCreateActor;
    hide ApplyMove;
    hide ApplyFlee;
    hide ApplyUnlock;
    hide ApplyAttack;
    hide ApplyDefend;
    hide NoEvolution;
    RescueEventsArePlain(w, c.action);
    ArrivalEventsArePlain(w, c.action, c.seed);
    JourneyEventsArePlain(w, c.action);
    OpenAttackEventsArePlain(w, c.action, c.seed);
  }

  lemma ReportEventsArePlain(w: World, c: Call)
    ensures NoEvolution(ApplyReport(w, c).events) && |ApplyReport(w, c).events| <= 5
  {
    hide CheckTotal;
    hide PushProgress;
    match c.action.kind
    case FocusedNotice =>
    case SearchV2 =>
    case StudyV2 =>
    case ScoutV2 =>
    case _ =>
  }

  lemma TransitionEventsArePlain(w: World, a: Action, seed: Seed)
    ensures var o := ApplyGateTransition(w, a, seed); NoEvolution(o.events) && |o.events| <= 5
  {
    hide TransitionRefusal;
    hide SettlementRefusal;
    hide CheckTotal;
    hide SetState;
    hide MoveTransitionItem;
  }

  lemma RuleIsAccounted(w: World, c: Call)
    ensures Accounted(w, ApplyRule(w, c), MAX_EVENTS)
    ensures |ApplyRule(w, c).events| <= MAX_EVENTS || |ApplyRule(w, c).events| <= 4 + PendingTracks(w)
  {
    hide ApplyItemRule;
    hide ApplyCombatRule;
    hide ApplyActorRule;
    hide ApplyGateTransition;
    hide ApplyReport;
    hide Accounted;
    hide PendingTracks;
    var o := ApplyRule(w, c);
    RuleFrame(w, c);
    if IsItemRule(c.action.kind) {
      ItemRuleIsAccounted(w, c);
    } else {
      if IsCombatRule(c.action.kind) {
        CombatEventsArePlain(w, c);
      } else if c.action.kind == GateTransition {
        TransitionEventsArePlain(w, c.action, c.seed);
      } else if IsActorRule(c.action.kind) {
        ActorEventsArePlain(w, c);
      } else {
        ReportEventsArePlain(w, c);
      }
      PlainIsAccounted(w, o, MAX_EVENTS);
    }
  }

  lemma ItemRuleIsAccounted(w: World, c: Call)
    requires IsItemRule(c.action.kind)
    ensures var o := ApplyItemRule(w, c);
            Accounted(w, o, MAX_EVENTS) && (|o.events| <= MAX_EVENTS || |o.events| <= 4 + PendingTracks(w))
  {
    var a := c.action;
    if IsPlacement(a.kind) {
      match a.kind
      case PickUpItem => PickUpIsAccounted(w, a); hide ApplyPickUp;
      case DropItem => DropIsAccounted(w, a); hide ApplyDrop;
      case Search => SearchIsAccounted(w, a); hide ApplySearch;
      case GiveItem => GiveIsAccounted(w, a); hide ApplyGive;
      case TradeItem => TradeIsAccounted(w, a); hide ApplyTrade;
      case Craft => CraftIsAccounted(w, a); hide ApplyCraft;
    } else {
      QuietItemRulesAreAccounted(w, c);
      ItemRuleEffect(w, c);
      PlainIsAccounted(w, ApplyItemRule(w, c), MAX_EVENTS);
      hide ApplyItemRule;
    }
  }

  // ---------------------------------------------------------------- any call

  lemma StepIsAccounted(w: World, c: Call)
    ensures Accounted(w, Step(w, c), MAX_EVENTS)
    ensures |w.tracks| <= MAX_TRACKS ==> |Step(w, c).events| <= MAX_EVENTS
  {
    hide ApplyRule;
    var v := Clocked(w, c);
    RuleIsAccounted(v, c);
    assert PendingTracks(v) == PendingTracks(w);
    hide FindActor, FindClaim, Engaged;
    if NamesRecordedClaim(w.claims, c.action) || BarredByCombat(w, c.action) {
      PlainIsAccounted(w, Step(w, c), 1);
    } else {
      var o := ApplyRule(v, c);
      assert PendingTracks(Step(w, c).world) == PendingTracks(o.world);
    }
    hide EvolutionCount, EvolvesOnce;
    hide PendingTracks;
  }

  /** The sequence number `i` places after `start`, in 64-bit arithmetic. */
  function NthSeq(start: nat, i: nat): nat {
    if i == 0 then start else Next64(NthSeq(start, i - 1))
  }

  lemma {:induction false} NthSeqIsModular(start: nat, i: nat)
    requires start <= U64_MAX
    ensures NthSeq(start, i) == (start + i) % (U64_MAX + 1)
  {
    if i != 0 {
      NthSeqIsModular(start, i - 1);
    }
  }

  lemma {:induction false} NthSeqAdds(start: nat, i: nat, j: nat)
    ensures NthSeq(NthSeq(start, i), j) == NthSeq(start, i + j)
  {
    if j != 0 {
      NthSeqAdds(start, i, j - 1);
    }
  }

  /** Events carry consecutive numbers from `start`. */
  predicate Numbered(events: seq<Event>, start: nat) {
    forall i {:trigger events[i]} :: 0 <= i < |events| ==> events[i].seqNo == NthSeq(start, i)
  }

  lemma {:induction false} AppendAllNumbers(log: Log, kinds: seq<EventKind>, start: nat)
    requires log.present && |log.events| + |kinds| <= MAX_EVENTS
    requires Numbered(log.events, start) && log.nextSeq == NthSeq(start, |log.events|)
    ensures var r := AppendAll(log, kinds);
            && |r.events| == |log.events| + |kinds| && Numbered(r.events, start)
            && r.nextSeq == NthSeq(start, |r.events|)
            && log.events <= r.events
            && forall i :: 0 <= i < |kinds| ==> r.events[|log.events| + i].kind == kinds[i]
    decreases |kinds|
  {
    if kinds != [] {
      AppendAllNumbers(AppendEvent(log, kinds[0]), kinds[1..], start);
    }
  }

  lemma {:induction false} AppendAllWithoutBuffer(log: Log, kinds: seq<EventKind>)
    requires !log.present
    ensures AppendAll(log, kinds) == log
    decreases |kinds|
  {
    if kinds != [] {
      AppendAllWithoutBuffer(log, kinds[1..]);
    }
  }

  lemma WritingIsNumbered(nextSeq: nat, buffered: bool, kinds: seq<EventKind>)
    requires |kinds| <= MAX_EVENTS
    ensures var log := AppendAll(Log(nextSeq, buffered, []), kinds);
            && |log.events| == (if buffered then |kinds| else 0)
            && Numbered(log.events, nextSeq)
            && log.nextSeq == NthSeq(nextSeq, |log.events|)
            && forall i :: 0 <= i < |log.events| ==> log.events[i].kind == kinds[i]
  {
    if buffered {
      AppendAllNumbers(Log(nextSeq, buffered, []), kinds, nextSeq);
    } else {
      AppendAllWithoutBuffer(Log(nextSeq, buffered, []), kinds);
    }
  }

  /** With a buffer every event of the call is written, in order and without a
      gap, and the counter moves by exactly their number; without a buffer
      nothing is written and the counter stays. */
  lemma EveryEventIsWritten(w: World, nextSeq: nat, c: Call)
    requires |w.tracks| <= MAX_TRACKS
    ensures var log, kinds := StepLog(w, nextSeq, c), Step(w, c).events;
            && |log.events| == (if c.buffered then |kinds| else 0)
            && Numbered(log.events, nextSeq)
            && log.nextSeq == NthSeq(nextSeq, |log.events|)
            && forall i :: 0 <= i < |log.events| ==> log.events[i].kind == kinds[i]
  {
    hide Step;
    hide AppendAll;
    hide Numbered;
    hide NthSeq;
    StepIsAccounted(w, c);
    WritingIsNumbered(nextSeq, c.buffered, Step(w, c).events);
  }

  // ------------------------------------------------------------- whole runs

  lemma NumberedJoin(first: seq<Event>, rest: seq<Event>, start: nat)
    requires Numbered(first, start) && Numbered(rest, NthSeq(start, |first|))
    ensures Numbered(first + rest, start)
    ensures NthSeq(NthSeq(start, |first|), |rest|) == NthSeq(start, |first + rest|)
  {
    hide NthSeq;
    NthSeqAdds(start, |first|, |rest|);
    forall i | 0 <= i < |rest| ensures rest[i].seqNo == NthSeq(start, |first| + i) {
      NthSeqAdds(start, |first|, i);
    }
  }

  /** Over a whole run the events are numbered without gaps, and the counter ends
      one past the last of them. */
  lemma {:induction false} RunIsNumbered(k: Kernel, calls: seq<Call>)
    requires |k.world.tracks| <= MAX_TRACKS
    ensures Numbered(Trace(k, calls), k.nextSeq)
    ensures Run(k, calls).nextSeq == NthSeq(k.nextSeq, |Trace(k, calls)|)
    decreases |calls|
  {
    hide Step;
    hide StepLog;
    if calls != [] {
      var log, next := StepLog(k.world, k.nextSeq, calls[0]), Advance(k, calls[0]);
      EveryEventIsWritten(k.world, k.nextSeq, calls[0]);
      StepFrame(k.world, calls[0]);
      RunIsNumbered(next, calls[1..]);
      NumberedJoin(log.events, Trace(next, calls[1..]), k.nextSeq);
      hide Numbered, NthSeq;
    }
  }

  /** Evolution events a run's rules emit. */
  function RunEvolutions(k: Kernel, calls: seq<Call>): nat
    decreases |calls|
  {
    if calls == [] then 0
    else EvolutionCount(Step(k.world, calls[0]).events) + RunEvolutions(Advance(k, calls[0]), calls[1..])
  }

  /** In a world's lifetime there are at most as many evolutions as tracks whose
      actor has not evolved. */
  lemma {:induction false} TracksBoundEvolutions(k: Kernel, calls: seq<Call>)
    ensures RunEvolutions(k, calls) + PendingTracks(Run(k, calls).world) <= PendingTracks(k.world)
    ensures PendingTracks(k.world) <= |k.world.tracks|
    decreases |calls|
  {
    hide Step;
    if calls != [] {
      StepIsAccounted(k.world, calls[0]);
      TracksBoundEvolutions(Advance(k, calls[0]), calls[1..]);
    }
    hide EvolutionCount, EvolvesOnce;
  }

  /** The actor exists and has evolved. */
  predicate HasEvolved(w: World, id: Id) {
    Known(w, id) && GetActor(w, id).stats.level >= 2
  }

  /** One call emits at most one evolution event for an actor, whatever number of
      passes it makes, and only for one who had not evolved and now has. */
  lemma CallEvolvesOnce(w: World, c: Call, id: Id)
    ensures var s := Step(w, c);
            && multiset(s.events)[AvatarEvolved(id)] <= 1
            && (AvatarEvolved(id) in s.events ==> !HasEvolved(w, id) && HasEvolved(s.world, id))
  {
    StepIsAccounted(w, c);
    assert multiset(Step(w, c).events)[AvatarEvolved(id)] + Settled(w.actors, id) <= Settled(Step(w, c).world.actors, id);
    hide Step, PendingTracks, EvolutionCount, FindActor;
  }

  /** Evolution events of one actor that a run's rules emit. */
  function RunEvolutionsOf(k: Kernel, calls: seq<Call>, id: Id): nat
    decreases |calls|
  {
    if calls == [] then 0
    else multiset(Step(k.world, calls[0]).events)[AvatarEvolved(id)] + RunEvolutionsOf(Advance(k, calls[0]), calls[1..], id)
  }

  /** Over a whole run an actor is named by at most one evolution event, and by
      none if it had evolved before. */
  lemma {:induction false} OneEvolutionEach(k: Kernel, calls: seq<Call>, id: Id)
    ensures RunEvolutionsOf(k, calls, id) + Settled(k.world.actors, id) <= Settled(Run(k, calls).world.actors, id) <= 1
    decreases |calls|
  {
    hide Step, PendingTracks, EvolutionCount, FindActor;
    if calls != [] {
      StepIsAccounted(k.world, calls[0]);
      OneEvolutionEach(Advance(k, calls[0]), calls[1..], id);
      assert multiset(Step(k.world, calls[0]).events)[AvatarEvolved(id)] + Settled(k.world.actors, id)
          <= Settled(Advance(k, calls[0]).world.actors, id);
    }
  }

  lemma {:induction false} EvolutionsStay(k: Kernel, calls: seq<Call>, id: Id)
    requires HasEvolved(k.world, id)
    ensures HasEvolved(Run(k, calls).world, id)
    decreases |calls|
  {
    hide Step;
    if calls != [] {
      var next := Advance(k, calls[0]);
      StepFrame(k.world, calls[0]);
      ActorPrefix(k.world.actors, next.world.actors, id);
      EvolutionsStay(next, calls[1..], id);
    }
  }

  /** No actor evolves in two calls of a run. */
  lemma ActorEvolvesOnce(k: Kernel, calls: seq<Call>, i: nat, j: nat, id: Id)
    requires i < |calls| && j < |calls|
    requires !HasEvolved(Run(k, calls[..i]).world, id) && HasEvolved(Run(k, calls[..i + 1]).world, id)
    requires !HasEvolved(Run(k, calls[..j]).world, id) && HasEvolved(Run(k, calls[..j + 1]).world, id)
    ensures i == j
  {
    hide Run, HasEvolved;
    if i < j {
      EvolvedByThen(k, calls, i + 1, j, id);
    } else if j < i {
      EvolvedByThen(k, calls, j + 1, i, id);
    }
  }

  lemma EvolvedByThen(k: Kernel, calls: seq<Call>, i: nat, j: nat, id: Id)
    requires i <= j <= |calls| && HasEvolved(Run(k, calls[..i]).world, id)
    ensures HasEvolved(Run(k, calls[..j]).world, id)
  {
    hide Run, HasEvolved;
    assert calls[..j] == calls[..i] + calls[i..j];
    RunSplits(k, calls[..i], calls[i..j]);
    EvolutionsStay(Run(k, calls[..i]), calls[i..j], id);
  }
}
