/**
  What crafting and resting do, told without their own helpers: which recipes are
  accepted, what becomes of the inputs, what is made and for whom, and which
  exhausted items a rest of each grade restores.
 */
module CraftMeaning {
  import opened KernelTypes
  import opened Lookup
  import opened Carrying
  import opened GateRules
  import opened ItemRules
  import opened Atomicity
  import opened ItemLaws
  import opened RestLaws
  import opened CombatMeaning
  import opened ItemMeaning

  // ------------------------------------------------------------------ recipes

  /** The one recipe that needs no input. */
  predicate FromNothing(a: Action) {
    a.content == 3105 && a.item == 0 && a.targetItem == 0 && a.output != 0 && a.itemDisposition == 0 && a.targetDisposition == 0
  }

  /** The item is in the crafter's hands or with nobody where the crafter stands. */
  predicate WithinReach(w: World, item: Id, crafter: Actor) {
    var i := FindItem(w.items, item);
    && i < |w.items|
    && ((w.items[i].holder == crafter.id && w.items[i].location == 0)
        || (w.items[i].holder == 0 && w.items[i].location == crafter.location))
  }

  /** With nobody where the crafter stands. */
  predicate LiesBy(w: World, item: Id, crafter: Actor) {
    var i := FindItem(w.items, item);
    i < |w.items| && w.items[i].holder == 0 && w.items[i].location == crafter.location
  }

  /** The inputs fit the recipe.  Two inputs that both persist are one in hand and
      one lying here; any other inputs are merely within reach. */
  predicate SuitsRecipe(w: World, a: Action, crafter: Actor) {
    && a.content != 0 && a.itemDisposition <= 3 && a.targetDisposition <= 3
    && (a.targetItem == 0 ==> a.targetDisposition == 0) && (a.targetItem != 0 ==> a.item != a.targetItem)
    && if a.item == 0 then FromNothing(a)
       else if a.targetItem != 0 && a.itemDisposition == 0 && a.targetDisposition == 0
       then HeldBy(w, a.item, a.actor) && LiesBy(w, a.targetItem, crafter)
       else WithinReach(w, a.item, crafter) && (a.targetItem != 0 ==> WithinReach(w, a.targetItem, crafter))
  }

  lemma RecipeMeans(w: World, a: Action)
    requires ActiveActor(w, a.actor) && Known(w, a.actor)
    ensures CraftRefusal(w, a) == NoReason <==> SuitsRecipe(w, a, w.actors[FindActor(w.actors, a.actor)])
  {
    hide FirstIndex;
  }

  /** Consumed is one and transformed is three: either way the item is gone. */
  predicate Gone(disposition: nat) {
    disposition == 1 || disposition == 3
  }

  /** What the items that stay with somebody weigh, less what they carry. */
  function Burden(items: seq<Item>, a: Action, id: Id): int {
    if items == [] then 0
    else
      var x := items[|items| - 1];
      var gone := id == a.actor
                  && ((x.id == a.item && Gone(a.itemDisposition)) || (x.id == a.targetItem && Gone(a.targetDisposition)));
      Burden(items[..|items| - 1], a, id) + if x.holder == id && !gone then WeightOf(x) - CapacityOf(x) else 0
  }

  lemma {:induction false} KeptIsBurden(items: seq<Item>, a: Action, id: Id, n: nat)
    requires n <= |items|
    ensures id == a.actor ==> Burden(items[..n], a, id) == KeptWeight(items, a, n) - KeptCapacity(items, a, n)
    ensures id != a.actor ==> Burden(items[..n], a, id) == HeldWeight(items[..n], id, n) - HeldCapacity(items[..n], id, n)
  {
    if n > 0 {
      assert items[..n][..n - 1] == items[..n - 1];
      KeptIsBurden(items, a, id, n - 1);
      SumsAgree(items[..n], items[..n - 1], id, n - 1, n, n - 1);
    }
    hide WeightOf, CapacityOf;
  }

  /** Summing a prefix of the table is summing the table so far. */
  lemma {:induction false} SumsAgree(items: seq<Item>, others: seq<Item>, id: Id, n: nat, skip: nat, also: nat)
    requires n <= |items| && n <= |others| && n <= skip && n <= also
    requires forall j :: 0 <= j < n ==> items[j] == others[j]
    ensures WeightUpTo(items, id, skip, n) == WeightUpTo(others, id, also, n)
    ensures CapacityUpTo(items, id, skip, n) == CapacityUpTo(others, id, also, n)
  {
    hide WeightOf, CapacityOf;
    if n > 0 {
      SumsAgree(items, others, id, n - 1, skip, also);
    }
  }

  function UsedUp(a: Action): nat {
    (if Gone(a.itemDisposition) then 1 else 0) + (if a.targetItem != 0 && Gone(a.targetDisposition) then 1 else 0)
  }

  /** What is made, if anything, is well described, new, has room in the table once
      the inputs are gone, and goes to somebody active who can bear it or to a
      place that exists. */
  predicate CanBeMade(w: World, a: Action) {
    a.output != 0 ==>
      && a.outputTarget != 0 && a.outputKind != 0 && a.outputCharges != 0 && a.outputSize <= 4 && a.outputRole <= 7
      && (a.outputCapacity != 0 ==> a.outputRole == 5)
      && FindItem(w.items, a.output) == |w.items| && |w.items| < 1024 + UsedUp(a)
      && 1 <= a.outputTargetKind <= 3
      && if a.outputTargetKind == 1
         then ActiveActor(w, a.outputTarget)
              && Burden(w.items, a, a.outputTarget) + (if a.outputWeight == 0 then 10 else a.outputWeight)
                 <= BaseCapacity(w.actors[FindActor(w.actors, a.outputTarget)])
         else FindLocation(w.locations, a.outputTarget) < |w.locations|
  }

  lemma OutputMeans(w: World, a: Action)
    requires Known(w, a.actor) && CraftRefusal(w, a) == NoReason
    ensures CheckOutputSlot(w, a) == SlotFree <==> CanBeMade(w, a)
  {
    KeptIsBurden(w.items, a, a.outputTarget, |w.items|);
    assert w.items[..|w.items|] == w.items;
    RemovalsMean(w, a);
    hide CraftRefusal, RemovedCount, UsedUp, Burden, HeldWeight, HeldCapacity, KeptWeight, KeptCapacity, BaseCapacity, FirstIndex;
  }

  lemma RemovalsMean(w: World, a: Action)
    requires Known(w, a.actor) && CraftRefusal(w, a) == NoReason
    ensures RemovedCount(w, a) == UsedUp(a)
  {
    hide FirstIndex;
  }

  // ------------------------------------------------------------ what is made

  /** A used item: gone, or without charges, and exhausted if it was in the crafter's hands. */
  function Without(items: seq<Item>, item: Id, disposition: nat, crafter: Id): seq<Item> {
    var i := FindItem(items, item);
    if item == 0 || disposition == 0 || i == |items| then items
    else if Gone(disposition) then items[..i] + items[i + 1..]
    else
      var x := items[i];
      items[i := if x.holder != crafter then x.(charges := 0)
                 else x.(charges := 0, zone := Exhausted,
                         recoveryZone := if x.zone == NoZone || x.zone == Exhausted then x.recoveryZone else x.zone)]
  }

  function Remaining(items: seq<Item>, a: Action): seq<Item> {
    Without(Without(items, a.item, a.itemDisposition, a.actor), a.targetItem, a.targetDisposition, a.actor)
  }

  /** The new item: full, with the defaults for what the recipe leaves open, in the
      hand, on the floor or installed. */
  predicate IsMade(x: Item, a: Action, tick: nat) {
    && x.id == a.output && x.kind == a.outputKind && x.charges == a.outputCharges == x.maxCharges
    && x.weight == (if a.outputWeight == 0 then 10 else a.outputWeight)
    && x.sizeClass == (if a.outputSize == 0 then 2 else a.outputSize)
    && x.role == (if a.outputRole != 0 then a.outputRole else if a.outputKind == 1 then 1 else 0)
    && x.containerCapacity == a.outputCapacity && x.flags == 0 && !x.restRecovery && x.recoveryZone == NoZone
    && x.container == 0
    && (a.outputTargetKind == 1 ==> x.zone == Carried && x.holder == a.outputTarget && x.location == 0 && x.heldSince == tick)
    && (a.outputTargetKind == 2 ==> x.zone == WorldZone && x.holder == 0 && x.location == a.outputTarget && x.heldSince == 0)
    && (a.outputTargetKind == 3 ==> x.zone == Installed && x.holder == 0 && x.location == a.outputTarget && x.heldSince == 0)
  }

  /** The events of a craft before evolution. */
  function Told(a: Action): seq<EventKind> {
    [ItemCrafted] + (if a.item == 0 then [] else UsedEvents(a.itemDisposition))
    + (if a.targetItem == 0 then [] else UsedEvents(a.targetDisposition)) + (if a.output == 0 then [] else [ItemCreated])
  }

  function UsedEvents(disposition: nat): seq<EventKind> {
    match disposition
    case 1 => [ItemConsumed] case 2 => [ItemExhausted] case 3 => [ItemTransformed] case _ => []
  }

  lemma DisposalMeans(w: World, crafter: Id, item: Id, disposition: nat)
    requires item != 0 && disposition <= 3
    ensures DisposeInput(w, crafter, item, disposition) == w.(items := Without(w.items, item, disposition, crafter))
  {
    hide FirstIndex;
  }

  lemma EventsMean(a: Action)
    requires a.itemDisposition <= 3 && a.targetDisposition <= 3
    ensures [ItemCrafted] + InputEvents(a) + (if a.output == 0 then [] else [ItemCreated]) == Told(a)
  {
    var first := if a.item == 0 then [] else UsedEvents(a.itemDisposition);
    var second := if a.targetItem == 0 then [] else UsedEvents(a.targetDisposition);
    assert InputEvents(a) == first + second;
    hide InputEvents, UsedEvents;
    assert [ItemCrafted] + (first + second) == [ItemCrafted] + first + second;
  }

  lemma InputsMean(w: World, a: Action)
    requires a.itemDisposition <= 3 && a.targetDisposition <= 3
    ensures ConsumeInputs(w, a) == w.(items := Remaining(w.items, a))
  {
    hide DisposeInput;
    if a.item != 0 {
      DisposalMeans(w, a.actor, a.item, a.itemDisposition);
    }
    if a.targetItem != 0 {
      DisposalMeans(w.(items := Without(w.items, a.item, a.itemDisposition, a.actor)), a.actor, a.targetItem, a.targetDisposition);
    }
  }

  /** Main result: when a craft is accepted, */
  lemma CraftingIff(w: World, a: Action)
    ensures ApplyCraft(w, a).status == Success <==>
              ActiveActor(w, a.actor) && SuitsRecipe(w, a, w.actors[FindActor(w.actors, a.actor)]) && CanBeMade(w, a)
  {
    if ActiveActor(w, a.actor) {
      RecipeMeans(w, a);
      if CraftRefusal(w, a) == NoReason {
        OutputMeans(w, a);
        if a.output != 0 && CheckOutputSlot(w, a) == SlotFree {
          CraftCreationCannotFail(w, a);
        }
      }
    }
    hide CraftRefusal, CheckOutputSlot, ConsumeInputs, CreateStatus, SuitsRecipe, CanBeMade, Evolve, FirstIndex;
  }

  /** What a craft leaves, once its inputs are dealt with. */
  predicate Leaves(w: World, o: Outcome, items: seq<Item>, a: Action, tick: nat, events: seq<EventKind>) {
    if a.output != 0 then |o.world.items| == |items| + 1 && IsMade(o.world.items[|items|], a, tick)
                          && PlacedAs(w, o, items + [o.world.items[|items|]], events)
    else if a.targetItem != 0 then PlacedTwiceAs(w, o, items, events)
    else PlacedAs(w, o, items, events)
  }

  lemma CommittingMeans(w: World, used: World, a: Action, events: seq<EventKind>)
    requires used == w.(items := used.items)
    requires a.output != 0 ==> CreateStatus(used, a) == Success
    ensures Leaves(w, CommitCraft(used, a, events), used.items, a, w.tick, events + if a.output == 0 then [] else [ItemCreated])
  {
    if a.output != 0 {
      var x := OutputItem(a, w.tick);
      assert IsMade(x, a, w.tick) by { hide CreateStatus; }
      EvolvingMeans(w.(items := used.items + [x]), 0);
    } else {
      assert events + [] == events;
    }
    hide CreateStatus, Evolve, EvolvedFrom, IsMade, OutputItem;
  }

  /** And what it leaves: the inputs dealt with, the output at the end of the table,
      then evolution, twice when two inputs make nothing. */
  lemma CraftingMeans(w: World, a: Action)
    requires ApplyCraft(w, a).status == Success
    ensures Leaves(w, ApplyCraft(w, a), Remaining(w.items, a), a, w.tick, Told(a))
  {
    CraftingIff(w, a);
    RecipeMeans(w, a);
    OutputMeans(w, a);
    InputsMean(w, a);
    EventsMean(a);
    if a.output != 0 {
      CraftCreationCannotFail(w, a);
    }
    CommittingMeans(w, ConsumeInputs(w, a), a, [ItemCrafted] + InputEvents(a));
    hide CraftRefusal, CheckOutputSlot, ConsumeInputs, CreateStatus, SuitsRecipe, CanBeMade, InputEvents, Told, Remaining,
         CommitCraft, Leaves, FirstIndex;
  }

  // ------------------------------------------------------------------ resting

  /** What a rest can restore: a used-up rechargeable item that the rest heeds, a
      spell at camp or lodged, and at a hearth a charm or a relic too. */
  predicate Restorable(x: Item, id: Id, grade: nat) {
    && x.holder == id && x.zone == Exhausted && x.charges == 0 && x.maxCharges > 0 && x.restRecovery
    && match grade
       case 1 => x.role == 4
       case 2 => x.role == 4
       case 3 => x.role == 3 || x.role == 4 || x.role == 7
       case _ => false
  }

  /** Full again, and back where it came from: the zone it remembers, or without one
      the deck for a spell, worn for a charm, else carried. */
  function Restored(x: Item): Item {
    var home := if x.recoveryZone != NoZone && x.recoveryZone != Exhausted then x.recoveryZone
                else match x.role case 4 => SpellDeck case 3 => Equipped case _ => Carried;
    x.(charges := x.maxCharges, zone := home, recoveryZone := if x.recoveryZone == NoZone then home else x.recoveryZone)
  }

  /** At camp only the one with the least identifier, else every restorable one. */
  predicate Rests(items: seq<Item>, id: Id, grade: nat, j: nat)
    requires j < |items|
  {
    && Restorable(items[j], id, grade)
    && (grade == 1 ==> forall i :: 0 <= i < |items| && Restorable(items[i], id, grade) ==> items[j].id <= items[i].id)
  }

  /** How many items the rest restores, one at most at camp. */
  function RestedCount(items: seq<Item>, id: Id, grade: nat): nat {
    var n := |RestorablePlaces(items, id, grade, |items|)|;
    if grade == 1 && n >= 2 then 1 else n
  }

  lemma RestorableMeans(x: Item, id: Id, grade: nat)
    requires 1 <= grade <= 3
    ensures Refreshable(x, id, grade) <==> Restorable(x, id, grade)
    ensures Refresh(x) == Restored(x)
  {}

  /** The places of the restorable ones among the first `n`. */
  function RestorablePlaces(items: seq<Item>, id: Id, grade: nat, n: nat): set<nat>
    requires n <= |items|
  {
    set j | 0 <= j < n && Restorable(items[j], id, grade)
  }

  lemma {:induction false} CountMeans(items: seq<Item>, id: Id, grade: nat, n: nat)
    requires n <= |items| && 1 <= grade <= 3
    ensures RefreshableCount(items, id, grade, n) == |RestorablePlaces(items, id, grade, n)|
  {
    hide Refreshable, Restorable;
    if n > 0 {
      CountMeans(items, id, grade, n - 1);
      RestorableMeans(items[n - 1], id, grade);
      assert RestorablePlaces(items, id, grade, n)
          == RestorablePlaces(items, id, grade, n - 1) + if Restorable(items[n - 1], id, grade) then {n - 1} else {};
    }
  }

  lemma RestCountMeans(w: World, a: Action)
    requires 1 <= a.restRequested <= 3
    ensures RestCount(w, a) == RestedCount(w.items, a.actor, a.restRequested)
  {
    CountMeans(w.items, a.actor, a.restRequested, |w.items|);
    hide Restorable, RefreshableCount;
  }

  /** Main result: a rest is accepted of an active actor who asks for a grade it is
      entitled to and whose events fit the buffer, and restores exactly that much. */
  lemma RestingMeans(w: World, a: Action, buffered: bool)
    requires DistinctIds(w.items) && NonzeroIds(w.items)
    ensures var o, n := ApplyRest(w, a, buffered), RestedCount(w.items, a.actor, a.restRequested);
            && (o.status == Success <==>
                  ActiveActor(w, a.actor) && 1 <= a.restRequested <= a.restEntitled <= 3 && n <= 256 && (n > 0 ==> buffered))
            && (o.status == Success ==>
                  && o.world == w.(items := o.world.items) && |o.world.items| == |w.items|
                  && |o.events| == n && (forall k :: 0 <= k < n ==> o.events[k] == ItemRefreshed)
                  && forall j: nat :: j < |w.items| ==>
                       o.world.items[j] == if Rests(w.items, a.actor, a.restRequested, j) then Restored(w.items[j]) else w.items[j])
  {
    if ActiveActor(w, a.actor) && 1 <= a.restRequested <= a.restEntitled <= 3 {
      RestCountMeans(w, a);
      PickedIsChosen(w, a);
      if RestCount(w, a) <= MAX_EVENTS {
        RestIsExact(w, a);
        assert RestCount(w, a) == 0 || buffered ==> ApplyRest(w, a, buffered) == ApplyRest(w, a, true);
        ChosenMeans(w.items, a.actor, a.restRequested);
      }
    }
    hide RestCount, RestedCount, Chosen, Rests, Restored, Refresh, SelectRefresh, RefreshAll, FirstIndex, DistinctIds;
  }

  lemma ChosenMeans(items: seq<Item>, id: Id, grade: nat)
    requires 1 <= grade <= 3
    ensures forall j: nat :: j < |items| ==>
              (Chosen(items, id, grade, j) <==> Rests(items, id, grade, j)) && Refresh(items[j]) == Restored(items[j])
  {
    forall x ensures (Refreshable(x, id, grade) <==> Restorable(x, id, grade)) && Refresh(x) == Restored(x) {
      RestorableMeans(x, id, grade);
    }
    hide Refreshable, Restorable, Refresh, Restored;
  }
}
