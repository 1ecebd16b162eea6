/**
  What the combat rules do, told without their own helpers: who may take a turn,
  when a blow lands and what it does, and how encounters open, grow, lose a
  fighter and close.
 */
module CombatMeaning {
  import opened KernelTypes
  import opened Lookup
  import opened GateRules
  import opened CombatRules

  // --------------------------------------------------------------------- dice

  /** An ability modifier is half the distance from ten, rounded down. */
  lemma AbilityModifierMeans(score: int)
    ensures 2 * AbilityModifier(score) <= score - 10 <= 2 * AbilityModifier(score) + 1
  {}

  /** Sixteen-bit arithmetic: the same number modulo 2^16, and in range. */
  lemma SixteenBitsMean(n: int)
    ensures -0x8000 <= ToI16(n) <= 0x7FFF && (n - ToI16(n)) % 0x1_0000 == 0
    ensures -0x8000 <= n <= 0x7FFF ==> ToI16(n) == n
  {}

  /** A twenty-sided roll: one draw, with advantage the better of two, and with
      any other mode the worse. */
  lemma RollMeans(seed: Seed, salt: nat, mode: nat)
    ensures var a, b := seed.draw(salt, false) % 20 + 1, seed.draw(salt, true) % 20 + 1;
            var roll := RollD20(seed, salt, mode);
            && (mode == 0 ==> roll == a)
            && (mode == 1 ==> roll >= a && roll >= b && (roll == a || roll == b))
            && (mode >= 2 ==> roll <= a && roll <= b && (roll == a || roll == b))
  {}

  /** Any other die is one draw. */
  lemma DieMeans(seed: Seed, salt: nat, sides: nat)
    requires sides > 0
    ensures RollDie(seed, salt, sides) == seed.draw(salt, false) % sides + 1
  {}

  /** Two up to the fourth level, then one more for every four, six at most. */
  lemma ProficiencyMeans(actor: Actor)
    ensures var level := actor.stats.level;
            && (level <= 4 ==> Proficiency(actor) == 2) && (5 <= level <= 8 ==> Proficiency(actor) == 3)
            && (9 <= level <= 12 ==> Proficiency(actor) == 4) && (13 <= level <= 16 ==> Proficiency(actor) == 5)
            && (17 <= level ==> Proficiency(actor) == 6)
  {}

  // -------------------------------------------------------------------- turns

  /** The encounter an action is about: the one it names, else the first active one
      in which its actor stands unescaped. */
  predicate IsAbout(w: World, a: Action, k: nat)
    requires k < |w.encounters|
  {
    if a.content != 0 then w.encounters[k].id == a.content && forall j :: 0 <= j < k ==> w.encounters[j].id != a.content
    else Unescaped(w.encounters[k], a.actor) && forall j :: 0 <= j < k ==> !Unescaped(w.encounters[j], a.actor)
  }

  predicate Unescaped(e: Encounter, id: Id) {
    e.status == Ongoing && exists j :: 0 <= j < |e.participants| && e.participants[j].actor == id && !e.participants[j].escaped
  }

  predicate ActiveActor(w: World, id: Id) {
    var i := FindActor(w.actors, id);
    i < |w.actors| && w.actors[i].status == Active
  }

  /** The seat of an able participant. */
  predicate AbleAt(w: World, e: Encounter, j: nat) {
    j < |e.participants| && !e.participants[j].escaped && ActiveActor(w, e.participants[j].actor)
  }

  /** The action's actor holds the turn of the `k`-th encounter and can act in it. */
  predicate MayTakeTurn(w: World, a: Action, k: nat) {
    && k < |w.encounters| && IsAbout(w, a, k) && w.encounters[k].status == Ongoing
    && var e := w.encounters[k];
       AbleAt(w, e, FindParticipant(e.participants, a.actor))
       && a.actor == if e.current < |e.participants| then e.participants[e.current].actor else 0
  }

  /** Having the turn, told over the tables. */
  lemma TurnMeans(w: World, a: Action)
    ensures HoldsTurn(w, a) <==> exists k :: MayTakeTurn(w, a, k)
    ensures forall k :: MayTakeTurn(w, a, k) ==> k == ReferredEncounter(w, a)
  {
    hide FirstIndex;
    var k := ReferredEncounter(w, a);
    forall e: Encounter, id: Id ensures Engages(e, id) <==> Unescaped(e, id) {}
    forall j | MayTakeTurn(w, a, j) ensures j == k {
      assert IsAbout(w, a, j);
    }
    if HoldsTurn(w, a) {
      assert MayTakeTurn(w, a, k);
    }
  }

  // ------------------------------------------------------ attacks in turn order

  /** What an attacker adds to its die: strength, or for a finesse attack the ability
      named, or without one the better of strength and dexterity. */
  function AttackBonus(attacker: Actor, a: Action, finesse: bool): int {
    var strength, dexterity := AbilityModifier(attacker.stats.strength), AbilityModifier(attacker.stats.dexterity);
    if !finesse then strength
    else if 1 <= a.ability <= 5 then AbilityModifier(StatValue(attacker.stats, a.ability))
    else if strength < dexterity then dexterity
    else strength
  }

  /** The die of an attack in turn order: the worse of two against a dodging target. */
  function AttackDie(target: Actor, seed: Seed): int {
    RollD20(seed, 1, if target.conditions.dodging then 2 else 0)
  }

  /** A twenty lands and a one does not; else the die with ability and proficiency
      must reach ten and the target's dexterity modifier. */
  predicate Lands(attacker: Actor, target: Actor, a: Action, seed: Seed, finesse: bool) {
    var die := AttackDie(target, seed);
    || die == 20
    || (die != 1 && ToI16(10 + AbilityModifier(target.stats.dexterity))
                    <= ToI16(die + ToI16(AttackBonus(attacker, a, finesse) + Proficiency(attacker))))
  }

  /** The sides of the weapon's die: its flags from two on, eight without a weapon. */
  function WeaponSides(w: World, a: Action): (n: nat)
    ensures n >= 2
  {
    var i := FindItem(w.items, a.item);
    if a.item != 0 && i < |w.items| && w.items[i].flags >= 2 then w.items[i].flags else 8
  }

  /** The harm of a blow that lands: the weapon's die, twice on a twenty, and the
      ability modifier, but nothing below zero. */
  function Harm(w: World, attacker: Actor, target: Actor, a: Action, seed: Seed, finesse: bool): int {
    var sides := WeaponSides(w, a);
    var dice := RollDie(seed, 2, sides) + if AttackDie(target, seed) == 20 then RollDie(seed, 3, sides) else 0;
    var harm := ToI16(ToI16(dice) + AttackBonus(attacker, a, finesse));
    if harm < 0 then 0 else harm
  }

  /** The hit points left: those at birth less the damage, nothing below zero. */
  function HitPointsLeft(x: Actor): int {
    if ToI16(x.stats.hpBase - x.damage) < 0 then 0 else ToI16(x.stats.hpBase - x.damage)
  }

  /** What a blow of this harm makes of its target: knocked out with one hit point
      if it is positive and takes them all, else the more damaged. */
  predicate Wounded(before: Actor, after: Actor, harm: int) {
    if harm > 0 && harm >= HitPointsLeft(before) then
      after.status == KnockedOut && after.conditions.unconscious
      && after.damage == if before.stats.hpBase > 1 then before.stats.hpBase - 1 else 0
    else after.status == before.status && after.damage == ToI16(before.damage + harm)
  }

  predicate Unharmed(before: Actor, after: Actor) {
    after.status == before.status && after.damage == before.damage
  }

  /** Who can strike whom: turn, target and weapon. */
  predicate MayStrike(w: World, a: Action, k: nat) {
    && MayTakeTurn(w, a, k) && a.target != a.actor
    && var e := w.encounters[k];
       var i, j := FindParticipant(e.participants, a.actor), FindParticipant(e.participants, a.target);
       && AbleAt(w, e, j) && e.participants[i].side != e.participants[j].side
       && (a.item != 0 ==> var x := FindItem(w.items, a.item);
                           x < |w.items| && w.items[x].holder == a.actor && w.items[x].role == ROLE_WEAPON
                           && w.items[x].zone == Equipped)
  }

  lemma BlowMeans(w: World, a: Action, seed: Seed, finesse: bool)
    requires ActiveActor(w, a.actor) && ActiveActor(w, a.target)
    ensures var blow := CombatBlow(w, a, seed, finesse);
            var x, y := w.actors[FindActor(w.actors, a.actor)], w.actors[FindActor(w.actors, a.target)];
            && (blow.Hit? <==> Lands(x, y, a, seed, finesse))
            && (blow.Hit? ==> blow.damage == Harm(w, x, y, a, seed, finesse)
                              && (blow.knocksOut <==> blow.damage > 0 && blow.damage >= HitPointsLeft(y)))
  {
    hide ToI16, RollD20, RollDie, AbilityModifier, StatValue, Proficiency, FirstIndex;
  }

  lemma StrikeMeans(w: World, target: Id, blow: Blow)
    requires Known(w, target)
    ensures var r, i := Strike(w, target, blow), FindActor(w.actors, target);
            && |r.actors| == |w.actors|
            && (forall j :: 0 <= j < |w.actors| && j != i ==> r.actors[j] == w.actors[j])
            && (blow.Miss? ==> r == w)
            && (blow.Hit? && blow.knocksOut ==>
                  r.actors[i].status == KnockedOut && r.actors[i].conditions.unconscious
                  && r.actors[i].damage == if w.actors[i].stats.hpBase > 1 then w.actors[i].stats.hpBase - 1 else 0)
            && (blow.Hit? && !blow.knocksOut ==>
                  r.actors[i].status == w.actors[i].status && r.actors[i].damage == ToI16(w.actors[i].damage + blow.damage))
  {
    hide ToI16, FirstIndex;
  }

  /** Ending a turn harms nobody. */
  lemma EndingHarmsNobody(w: World, k: nat)
    requires k < |w.encounters|
    ensures var r := FinishTurn(w, k).world;
            && |r.actors| == |w.actors|
            && forall i :: 0 <= i < |w.actors| ==>
                 Unharmed(w.actors[i], r.actors[i]) && r.actors[i].conditions.unconscious == w.actors[i].conditions.unconscious
  {
    hide AdvanceTurn, SideCanAct, NextStep, FirstIndex;
  }

  lemma EndingTellsNoBlow(w: World, k: nat)
    requires k < |w.encounters|
    ensures forall x :: x in FinishTurn(w, k).events ==> x == TurnEnded || x == TurnStarted || x == EncounterResolved
  {
    hide AdvanceTurn, SideCanAct, NextStep, StopDodging;
  }

  lemma AttackRefusalMeans(w: World, a: Action, k: nat)
    requires MayTakeTurn(w, a, k) && HoldsTurn(w, a) && k == ReferredEncounter(w, a)
    ensures CombatAttackRefusal(w, a) == NoReason <==> MayStrike(w, a, k)
  {
    hide FirstIndex;
  }

  /** What an attack in turn order does to everybody, and tells. */
  predicate Struck(w: World, r: World, a: Action, seed: Seed, finesse: bool, events: seq<EventKind>) {
    var x, y := FindActor(w.actors, a.actor), FindActor(w.actors, a.target);
    && x < |w.actors| && y < |w.actors| && |r.actors| == |w.actors|
    && (forall i :: 0 <= i < |w.actors| && i != y ==> Unharmed(w.actors[i], r.actors[i]))
    && var lands, harm := Lands(w.actors[x], w.actors[y], a, seed, finesse),
                         Harm(w, w.actors[x], w.actors[y], a, seed, finesse);
       && (lands ==> Wounded(w.actors[y], r.actors[y], harm))
       && (!lands ==> Unharmed(w.actors[y], r.actors[y]))
       && (AttackHit in events <==> lands) && (AttackMiss in events <==> !lands)
       && (KnockedOutEvent in events <==> lands && harm > 0 && harm >= HitPointsLeft(w.actors[y]))
       && |events| > 0 && events[0] == AttackAttempt
  }

  /** Main result: when an attack in turn order is accepted, and what it does. */
  lemma InTurnAttackMeans(w: World, a: Action, seed: Seed, finesse: bool)
    ensures var o := ApplyCombatAttack(w, a, seed, finesse);
            && (o.status == Success <==> exists k :: MayStrike(w, a, k))
            && (o.status == Success ==> Struck(w, o.world, a, seed, finesse, o.events))
  {
    TurnMeans(w, a);
    if HoldsTurn(w, a) {
      var k := ReferredEncounter(w, a);
      assert MayTakeTurn(w, a, k);
      AttackRefusalMeans(w, a, k);
      if CombatAttackRefusal(w, a) == NoReason {
        AcceptedAttackStrikes(w, a, seed, finesse, k);
      }
    }
    hide MayTakeTurn, HoldsTurn, CombatAttackRefusal, Struck, CombatBlow, Strike, FinishTurn, ReferredEncounter, BlowEvents;
  }

  lemma BlowIsTold(blow: Blow, rest: seq<EventKind>)
    requires forall x :: x in rest ==> x == TurnEnded || x == TurnStarted || x == EncounterResolved
    ensures var events := BlowEvents(blow) + rest;
            && events[0] == AttackAttempt
            && (AttackHit in events <==> blow.Hit?) && (AttackMiss in events <==> blow.Miss?)
            && (KnockedOutEvent in events <==> blow.Hit? && blow.knocksOut)
  {
    var first := BlowEvents(blow);
    forall x ensures x in first + rest <==> x in first || x in rest {}
    if blow.Hit? {
      assert AttackHit == first[1];
      if blow.knocksOut {
        assert KnockedOutEvent == first[2];
      }
    } else {
      assert AttackMiss == first[1];
    }
  }

  lemma BlowWounds(w: World, a: Action, seed: Seed, finesse: bool, k: nat)
    requires ActiveActor(w, a.actor) && ActiveActor(w, a.target)
    requires Known(w, a.target) && k < |w.encounters|
    ensures var r := FinishTurn(Strike(w, a.target, CombatBlow(w, a, seed, finesse)), k).world;
            var x, y := w.actors[FindActor(w.actors, a.actor)], FindActor(w.actors, a.target);
            && |r.actors| == |w.actors|
            && (forall i :: 0 <= i < |w.actors| && i != y ==> Unharmed(w.actors[i], r.actors[i]))
            && (if Lands(x, w.actors[y], a, seed, finesse) then Wounded(w.actors[y], r.actors[y], Harm(w, x, w.actors[y], a, seed, finesse))
                else Unharmed(w.actors[y], r.actors[y]))
  {
    BlowMeans(w, a, seed, finesse);
    var blow := CombatBlow(w, a, seed, finesse);
    StrikeMeans(w, a.target, blow);
    EndingHarmsNobody(Strike(w, a.target, blow), k);
    hide CombatBlow, Strike, FinishTurn, Lands, Harm, HitPointsLeft, ToI16, FirstIndex;
  }

  lemma AcceptedAttackStrikes(w: World, a: Action, seed: Seed, finesse: bool, k: nat)
    requires MayStrike(w, a, k) && Known(w, a.actor) && Known(w, a.target)
    ensures var blow := CombatBlow(w, a, seed, finesse);
            var t := FinishTurn(Strike(w, a.target, blow), k);
            Struck(w, t.world, a, seed, finesse, BlowEvents(blow) + t.events)
  {
    StrikersAreActive(w, a, k);
    hide MayStrike, CombatBlow, Strike, FinishTurn, Lands, Harm, HitPointsLeft, Wounded, Unharmed, ActiveActor, BlowEvents;
    var blow := CombatBlow(w, a, seed, finesse);
    BlowMeans(w, a, seed, finesse);
    BlowWounds(w, a, seed, finesse, k);
    EndingTellsNoBlow(Strike(w, a.target, blow), k);
    BlowIsTold(blow, FinishTurn(Strike(w, a.target, blow), k).events);
  }

  lemma StrikersAreActive(w: World, a: Action, k: nat)
    requires MayStrike(w, a, k)
    ensures ActiveActor(w, a.actor) && ActiveActor(w, a.target) && k < |w.encounters|
  {}
}
