/**
  What the rules about single actors do, told without their own helpers: who is
  born and how, rescue and replacement, speech, checks and discoveries, the push
  of a project, travel, and the unlocking of an exit.
 */
module ActorMeaning {
  import opened KernelTypes
  import opened Lookup
  import opened GateRules
  import opened ItemRules
  import opened CombatRules
  import opened ActorRules
  import opened Travel
  import opened CombatMeaning
  import opened EncounterMeaning
  import opened ItemMeaning

  // --------------------------------------------------------- birth and rescue

  function BirthPlace(a: Action): Id {
    if a.location == 0 then 1 else a.location
  }

  /** A new human, unhurt, with scores from eight to sixteen drawn for its
      identifier and at least one hit point; at level zero when so asked. */
  predicate IsBorn(x: Actor, a: Action, seed: Seed) {
    && x.id == a.actor && x.kind == Human && x.status == Active && x.location == BirthPlace(a) && x.damage == 0
    && x.conditions == Conditions(false, false, false, false)
    && x.stats.strength == 8 + seed.score(a.actor, 0) % 9 && x.stats.dexterity == 8 + seed.score(a.actor, 1) % 9
    && x.stats.constitution == 8 + seed.score(a.actor, 2) % 9 && x.stats.intelligence == 8 + seed.score(a.actor, 3) % 9
    && x.stats.wisdom == 8 + seed.score(a.actor, 4) % 9 && x.stats.charisma == 8 + seed.score(a.actor, 5) % 9
    && x.stats.hpBase >= 1 && x.stats.hpBase == 10 + AbilityModifier(x.stats.constitution)
    && x.stats.level == if a.modifier == -1 then 0 else 1
  }

  lemma BirthMeans(a: Action, seed: Seed)
    ensures IsBorn(NewActor(a, seed), a, seed)
  {}

  /** Creation needs a place, an identifier nobody has, and room; it tells of the
      new actor and of its arrival. */
  lemma CreatingMeans(w: World, a: Action, seed: Seed)
    ensures var o, n := ApplyCreateActor(w, a, seed), |w.actors|;
            && (o.status == Success <==>
                  FindLocation(w.locations, BirthPlace(a)) < |w.locations| && FindActor(w.actors, a.actor) == n && n < 2048)
            && (o.status == Success ==>
                  && o.world == w.(actors := o.world.actors) && |o.world.actors| == n + 1 && o.world.actors[..n] == w.actors
                  && IsBorn(o.world.actors[n], a, seed) && o.events == [ActorCreated, ActorEnteredLocation])
  {
    BirthMeans(a, seed);
    hide NewActor, IsBorn, FirstIndex;
  }

  predicate Fallen(w: World, id: Id) {
    var i := FindActor(w.actors, id);
    i < |w.actors| && w.actors[i].status == KnockedOut
  }

  /** Main result: a rescue spends a charge of the rescuer's own potion on somebody
      knocked out here, who rises unhurt; of the two the one chosen is the human
      from now on and the other one is not. */
  lemma RescuingMeans(w: World, a: Action)
    ensures var o, i := ApplyCompleteRescue(w, a), FindItem(w.items, a.item);
            var k, t := FindActor(w.actors, a.actor), FindActor(w.actors, a.target);
            && (o.status == Success <==>
                  && ActiveActor(w, a.actor) && Fallen(w, a.target) && w.actors[t].location == w.actors[k].location
                  && Charged(w, a) && w.items[i].kind == 1 && (a.content == a.actor || a.content == a.target))
            && (o.status == Success ==>
                  && t != k && o.events == [ItemUsed, RescueCompleted, AvatarReleased]
                  && var chosen, other := if a.content == a.actor then Human else Npc, if a.content == a.actor then Npc else Human;
                     var risen := w.actors[t].(damage := 0, status := Active, kind := other,
                                               conditions := w.actors[t].conditions.(unconscious := false));
                     o.world == w.(actors := w.actors[t := risen][k := w.actors[k].(kind := chosen)],
                                   items := w.items[i := Spent(w.items[i])]))
  {
    hide FirstIndex;
  }

  /** A replacement is a new actor, born as ever, in a world where the one who fell
      first is dead and the potion named, wherever it is, is used up; the one
      who tried to rescue lies knocked out too. */
  lemma ReplacingMeans(w: World, a: Action, seed: Seed)
    ensures var o, i, t, n := ApplyReplaceRescuer(w, a, seed), FindItem(w.items, a.item), FindActor(w.actors, a.target), |w.actors|;
            && (o.status == Success <==>
                  && FindLocation(w.locations, BirthPlace(a)) < |w.locations| && FindActor(w.actors, a.actor) == n && n < 2048
                  && Fallen(w, a.target) && Fallen(w, a.content) && a.target != a.content
                  && i < |w.items| && w.items[i].kind == 1)
            && (o.status == Success ==>
                  && o.world == w.(actors := o.world.actors, items := o.world.items)
                  && |o.world.actors| == n + 1 && IsBorn(o.world.actors[n], a, seed)
                  && o.world.actors[..n] == w.actors[t := w.actors[t].(status := Dead, kind := Npc)]
                  && o.world.items == w.items[i := Spent(w.items[i].(charges := 1))]
                  && o.events == [CombatDeath, ActorCreated, ActorEnteredLocation])
  {
    BirthMeans(a, seed);
    hide NewActor, IsBorn, FirstIndex;
  }

  // ------------------------------------------------------------ words and dice

  /** Anybody active may speak, which changes nothing. */
  lemma SpeakingMeans(w: World, a: Action)
    ensures var o := ApplySay(w, a);
            && (o.status == Success <==> ActiveActor(w, a.actor))
            && (o.status == Success ==> o == Outcome(Success, w, [MessageCreated]))
  {
    hide FirstIndex;
  }

  /** The die, the ability and the modifier reach the difficulty, ten if none is given. */
  predicate Reaches(actor: Actor, a: Action, seed: Seed) {
    (if a.dc == 0 then 10 else a.dc)
    <= ToI16(RollD20(seed, 1, a.rollMode) + ToI16(AbilityModifier(StatValue(actor.stats, a.ability)) + a.modifier))
  }

  /** The abilities by number; any other number counts as ten. */
  lemma StatMeans(stats: Stats, ability: nat)
    ensures var v := StatValue(stats, ability);
            && (ability == 0 ==> v == stats.strength) && (ability == 1 ==> v == stats.dexterity)
            && (ability == 2 ==> v == stats.constitution) && (ability == 3 ==> v == stats.intelligence)
            && (ability == 4 ==> v == stats.wisdom) && (ability == 5 ==> v == stats.charisma) && (ability > 5 ==> v == 10)
  {}

  /** A check only tells whether it was passed. */
  lemma CheckingMeans(w: World, a: Action, seed: Seed)
    ensures var o := ApplyAbilityCheck(w, a, seed);
            && (o.status == Success <==> ActiveActor(w, a.actor) && a.rollMode <= 2 && a.dc <= 0x7FFF)
            && (o.status == Success ==>
                  o == Outcome(Success, w, [AbilityCheckRolled(Reaches(w.actors[FindActor(w.actors, a.actor)], a, seed))]))
  {
    hide ToI16, RollD20, AbilityModifier, StatValue, FirstIndex;
  }

  /** A discovery is made where its actor stands, with a check if it is difficult. */
  lemma DiscoveringMeans(w: World, a: Action, seed: Seed, event: EventKind)
    ensures var o, k := ApplyDiscovery(w, a, seed, event), FindActor(w.actors, a.actor);
            && (o.status == Success <==>
                  && ActiveActor(w, a.actor) && a.location != 0 && a.location == w.actors[k].location
                  && FindLocation(w.locations, a.location) < |w.locations|
                  && (a.dc != 0 ==> a.rollMode <= 2 && a.dc <= 0x7FFF))
            && (o.status == Success ==>
                  o == Outcome(Success, w, if a.dc == 0 then [event] else [AbilityCheckRolled(Reaches(w.actors[k], a, seed)), event]))
  {
    hide ToI16, RollD20, AbilityModifier, StatValue, FirstIndex;
  }

  predicate WellPushed(p: PushInput) {
    p.baseProgress > 0 && p.locationCount > 0 && p.remainingProgress > 0 && p.prepared <= 1 && p.evidenceCount <= p.locationCount
  }

  /** What preparation adds: its bonus, one if none is given, one more with any
      evidence, and two more with evidence at every one of several places. */
  function Preparation(p: PushInput): nat {
    if p.prepared == 0 then 0
    else (if p.preparedBonus == 0 then 1 else p.preparedBonus)
         + (if p.evidenceCount == 0 then 0 else if p.locationCount >= 2 && p.evidenceCount == p.locationCount then 2 else 1)
  }

  /** A push earns its base and preparation, but no more than remains. */
  lemma PushingMeans(w: World, a: Action)
    ensures var o, p := ApplyProjectPush(w, a), a.push;
            && (o.status == Success <==> ActiveActor(w, a.actor) && WellPushed(p))
            && (o.status == Success ==> o == Outcome(Success, w, [ProjectPushResolved]))
            && (WellPushed(p) ==>
                  var earned := PushProgress(p);
                  && earned <= p.remainingProgress && earned <= p.baseProgress + Preparation(p)
                  && (earned == p.remainingProgress || earned == p.baseProgress + Preparation(p)))
  {
    hide FirstIndex;
  }

  // -------------------------------------------------------------------- travel

  /** Somewhere else, and there is a legal way. */
  predicate MayGo(w: World, a: Action)
    requires ActiveActor(w, a.actor)
  {
    var here := w.actors[FindActor(w.actors, a.actor)].location;
    && a.destination != 0 && a.destination != here && FindLocation(w.locations, a.destination) < |w.locations|
    && LegalCrossing(w, a.actor, here, a.destination, a.threshold)
  }

  lemma GoingMeans(w: World, a: Action)
    requires ActiveActor(w, a.actor) && Known(w, a.actor)
    ensures MoveRefusal(w, a) == NoReason <==> MayGo(w, a)
  {
    var here := w.actors[FindActor(w.actors, a.actor)].location;
    if FindExit(w.exits, here, a.destination) < |w.exits| {
      ClearMeansLegal(w, w, a.actor, here, a.destination, a.threshold);
    } else {
      assert !LegalCrossing(w, a.actor, here, a.destination, a.threshold);
    }
    hide LegalCrossing, CrossingOf, FirstIndex;
  }

  /** Main result: moving. */
  lemma MovingMeans(w: World, a: Action)
    ensures var o, k := ApplyMove(w, a), FindActor(w.actors, a.actor);
            && (o.status == Success <==> ActiveActor(w, a.actor) && MayGo(w, a))
            && (o.status == Success ==>
                  o == Outcome(Success, w.(actors := w.actors[k := w.actors[k].(location := a.destination)]), [ActorMoved]))
  {
    if ActiveActor(w, a.actor) {
      GoingMeans(w, a);
    }
    hide MoveRefusal, MayGo, FirstIndex;
  }

  /** Fleeing is moving away from where fighting is allowed, off guard and in sight. */
  lemma FleeingMeans(w: World, a: Action)
    ensures var o, k := ApplyFlee(w, a), FindActor(w.actors, a.actor);
            && (o.status == Success <==> ActiveActor(w, a.actor) && FightingAllowed(w, w.actors[k].location) && MayGo(w, a))
            && (o.status == Success ==>
                  o == Outcome(Success,
                               w.(actors := w.actors[k := w.actors[k].(location := a.destination,
                                    conditions := w.actors[k].conditions.(defending := false, hidden := false))]),
                               [FleeSuccess]))
  {
    if ActiveActor(w, a.actor) {
      GoingMeans(w, a);
    }
    hide MoveRefusal, MayGo, FirstIndex;
  }

  /** Unlocking needs a locked exit between two places, with no gate of its own. */
  lemma UnlockingMeans(w: World, a: Action)
    ensures var o, x := ApplyUnlock(w, a), FindExit(w.exits, a.location, a.destination);
            && (o.status == Success <==>
                  && FindLocation(w.locations, a.location) < |w.locations|
                  && FindLocation(w.locations, a.destination) < |w.locations|
                  && x < |w.exits| && w.exits[x].locked
                  && forall g :: 0 <= g < |w.gates| ==>
                       !(w.gates[g].target == ExitTarget && w.gates[g].from == a.location && w.gates[g].to == a.destination))
            && (o.status == Success ==>
                  o == Outcome(Success, w.(exits := w.exits[x := Exit(a.location, a.destination, false)]), [ExitUnlocked]))
  {
    hide FirstIndex;
  }
}
