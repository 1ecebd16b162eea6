/**
  Resting.  The two loops of the rest rule, one that picks items in identifier
  order and one that refreshes them, together refresh exactly the items the
  grade allows: the least one at camp, and otherwise all of them.
 */
module RestLaws {
  import opened KernelTypes
  import opened Lookup
  import opened ItemRules
  import opened ItemLaws

  /** How many of the first `n` items still wait, above the identifier `after`. */
  function WaitingCount(items: seq<Item>, actor: Id, grade: nat, after: Id, n: nat): nat
    requires n <= |items|
  {
    if n == 0 then 0
    else WaitingCount(items, actor, grade, after, n - 1) + if Waiting(items[n - 1], actor, grade, after) then 1 else 0
  }

  lemma {:induction false} AllWaitAtFirst(items: seq<Item>, actor: Id, grade: nat, n: nat)
    requires n <= |items| && NonzeroIds(items)
    ensures WaitingCount(items, actor, grade, 0, n) == RefreshableCount(items, actor, grade, n)
  {
    hide Refreshable;
    if n > 0 {
      AllWaitAtFirst(items, actor, grade, n - 1);
    }
  }

  /** Passing the least waiting item leaves one fewer. */
  lemma {:induction false} PassingLeavesOneFewer(items: seq<Item>, actor: Id, grade: nat, after: Id, k: nat, n: nat)
    requires DistinctIds(items) && k < |items| && Waiting(items[k], actor, grade, after) && n <= |items|
    requires forall j :: 0 <= j < |items| && Waiting(items[j], actor, grade, after) ==> items[k].id <= items[j].id
    ensures WaitingCount(items, actor, grade, after, n)
         == WaitingCount(items, actor, grade, items[k].id, n) + if k < n then 1 else 0
  {
    hide Refreshable;
    if n > 0 {
      PassingLeavesOneFewer(items, actor, grade, after, k, n - 1);
      assert Waiting(items[n - 1], actor, grade, after) && n - 1 != k ==> items[n - 1].id != items[k].id;
    }
  }

  lemma {:induction false} SomebodyWaits(items: seq<Item>, actor: Id, grade: nat, after: Id, n: nat)
    requires n <= |items|
    ensures WaitingCount(items, actor, grade, after, n) > 0 ==>
              exists j :: 0 <= j < n && Waiting(items[j], actor, grade, after)
    ensures WaitingCount(items, actor, grade, after, n) == 0 ==>
              forall j :: 0 <= j < n ==> !Waiting(items[j], actor, grade, after)
  {
    hide Waiting;
    if n > 0 {
      SomebodyWaits(items, actor, grade, after, n - 1);
      if Waiting(items[n - 1], actor, grade, after) {
        assert 0 <= n - 1 < n && Waiting(items[n - 1], actor, grade, after);
      }
    }
  }

  predicate Rising(items: seq<Item>, indices: seq<nat>, after: Id) {
    && (forall k :: 0 <= k < |indices| ==> indices[k] < |items| && items[indices[k]].id > after)
    && forall k, l :: 0 <= k < l < |indices| ==> items[indices[k]].id < items[indices[l]].id
  }

  /** The picking loop never runs dry, and picks in rising order. */
  lemma {:induction false} PickingSucceeds(items: seq<Item>, actor: Id, grade: nat, n: nat, after: Id)
    requires DistinctIds(items) && n <= WaitingCount(items, actor, grade, after, |items|)
    ensures var s := SelectRefresh(items, actor, grade, n, after); s.Selected? && Rising(items, s.indices, after)
    decreases n
  {
    hide Refreshable;
    SomebodyWaits(items, actor, grade, after, |items|);
    if n > 0 {
      var k := NextRefreshable(items, actor, grade, after, |items|);
      PassingLeavesOneFewer(items, actor, grade, after, k, |items|);
      PickingSucceeds(items, actor, grade, n - 1, items[k].id);
      hide NextRefreshable;
      hide WaitingCount;
    }
  }

  lemma PassedStillWait(items: seq<Item>, actor: Id, grade: nat, after: Id, k: nat, j: nat)
    requires DistinctIds(items) && k < |items| && j < |items| && j != k
    requires Waiting(items[j], actor, grade, after) && items[k].id <= items[j].id
    ensures Waiting(items[j], actor, grade, items[k].id)
  {}

  /** Whatever it leaves has a greater identifier than anything it picks, and
      when it may pick them all it leaves nothing. */
  lemma {:induction false} PickingTakesTheLeast(items: seq<Item>, actor: Id, grade: nat, n: nat, after: Id, j: nat)
    requires DistinctIds(items) && n <= WaitingCount(items, actor, grade, after, |items|)
    requires j < |items| && Waiting(items[j], actor, grade, after)
    ensures var s := SelectRefresh(items, actor, grade, n, after);
            s.Selected? && (j in s.indices || forall k: nat :: k < |s.indices| ==> items[s.indices[k]].id < items[j].id)
    ensures n == WaitingCount(items, actor, grade, after, |items|) ==>
              j in SelectRefresh(items, actor, grade, n, after).indices
    decreases n
  {
    hide Refreshable;
    SomebodyWaits(items, actor, grade, after, |items|);
    if n > 0 {
      var k := NextRefreshable(items, actor, grade, after, |items|);
      PassingLeavesOneFewer(items, actor, grade, after, k, |items|);
      PickingSucceeds(items, actor, grade, n - 1, items[k].id);
      var rest := SelectRefresh(items, actor, grade, n - 1, items[k].id).indices;
      assert SelectRefresh(items, actor, grade, n, after) == Selected([k] + rest);
      hide SelectRefresh, WaitingCount, NextRefreshable, DistinctIds;
      if j != k {
        PassedStillWait(items, actor, grade, after, k, j);
        PickingTakesTheLeast(items, actor, grade, n - 1, items[k].id, j);
        assert j in rest ==> j in [k] + rest;
      }
    }
  }

  /** The refreshing loop refreshes each picked record once and no other. */
  lemma {:induction false} RefreshingIsExact(items: seq<Item>, indices: seq<nat>)
    requires forall k :: 0 <= k < |indices| ==> indices[k] < |items|
    requires forall k, l :: 0 <= k < l < |indices| ==> indices[k] != indices[l]
    ensures forall j: nat :: j < |items| ==>
              RefreshAll(items, indices)[j] == if j in indices then Refresh(items[j]) else items[j]
    decreases |indices|
  {
    hide Refresh;
    if indices != [] {
      var once := items[indices[0] := Refresh(items[indices[0]])];
      RefreshingIsExact(once, indices[1..]);
      assert indices[0] !in indices[1..];
      assert forall j: nat :: j in indices <==> j == indices[0] || j in indices[1..];
    }
  }

  predicate GradesAgree(a: Action) {
    CAMP <= a.restRequested <= HEARTH && a.restRequested <= a.restEntitled <= HEARTH
  }

  /** What the rest may refresh: at camp the least refreshable item, else all. */
  predicate Chosen(items: seq<Item>, actor: Id, grade: nat, j: nat)
    requires j < |items|
  {
    && Refreshable(items[j], actor, grade)
    && (grade == CAMP ==>
          forall i :: 0 <= i < |items| && Refreshable(items[i], actor, grade) ==> items[j].id <= items[i].id)
  }

  lemma PickedIsChosen(w: World, a: Action)
    requires DistinctIds(w.items) && NonzeroIds(w.items)
    ensures var s := SelectRefresh(w.items, a.actor, a.restRequested, RestCount(w, a), 0);
            && s.Selected? && Rising(w.items, s.indices, 0)
            && forall j: nat :: j < |w.items| ==> (j in s.indices <==> Chosen(w.items, a.actor, a.restRequested, j))
  {
    var items, grade, n := w.items, a.restRequested, RestCount(w, a);
    AllWaitAtFirst(items, a.actor, grade, |items|);
    SomebodyWaits(items, a.actor, grade, 0, |items|);
    PickingSucceeds(items, a.actor, grade, n, 0);
    var s := SelectRefresh(items, a.actor, grade, n, 0);
    forall j: nat | j < |items| && Waiting(items[j], a.actor, grade, 0)
      ensures j in s.indices || forall k: nat :: k < |s.indices| ==> items[s.indices[k]].id < items[j].id
      ensures n == WaitingCount(items, a.actor, grade, 0, |items|) ==> j in s.indices
    {
      PickingTakesTheLeast(items, a.actor, grade, n, 0, j);
    }
    hide SelectRefresh;
    hide WaitingCount;
    hide RefreshableCount;
    hide Refreshable;
    forall j: nat | j < |items| && Refreshable(items[j], a.actor, grade) ensures Waiting(items[j], a.actor, grade, 0) {}
    forall j: nat | j < |items| ensures j in s.indices <==> Chosen(items, a.actor, grade, j) {
      if grade == CAMP && j in s.indices {
        assert s.indices == [j];
      } else if grade == CAMP && Refreshable(items[j], a.actor, grade) {
        assert n == 1;
        assert items[s.indices[0]].id < items[j].id;
      }
    }
  }

  /** A well-graded rest with room for its events always succeeds, and refreshes
      exactly the chosen items. */
  lemma RestIsExact(w: World, a: Action)
    requires DistinctIds(w.items) && NonzeroIds(w.items)
    requires IsActive(w, a.actor) && GradesAgree(a) && RestCount(w, a) <= MAX_EVENTS
    ensures var o := ApplyRest(w, a, true);
            && o.status == Success && o.events == seq(RestCount(w, a), _ => ItemRefreshed)
            && |o.world.items| == |w.items|
            && forall j: nat :: j < |w.items| ==>
                 o.world.items[j] == if Chosen(w.items, a.actor, a.restRequested, j) then Refresh(w.items[j]) else w.items[j]
  {
    PickedIsChosen(w, a);
    hide Chosen;
    hide RestCount;
    var s := SelectRefresh(w.items, a.actor, a.restRequested, RestCount(w, a), 0);
    hide SelectRefresh;
    RefreshingIsExact(w.items, s.indices);
    hide RefreshAll;
    hide Refresh;
  }

  /** The rule's internal error cannot occur. */
  lemma RestNeverFindsFewer(w: World, a: Action, buffered: bool)
    requires DistinctIds(w.items) && NonzeroIds(w.items)
    ensures ApplyRest(w, a, buffered).status != ErrInvalid
  {
    PickedIsChosen(w, a);
    hide SelectRefresh;
    hide RestCount;
  }
}
