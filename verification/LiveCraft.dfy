/**
  The handlers that use, recover, steal and craft items, in place.
 */
module LiveCraft {
  import opened KernelTypes
  import opened Lookup
  import opened Carrying
  import opened GateRules
  import opened ItemRules
  import opened LiveState
  import opened LiveItems

  // ------------------------------------------------------------- using items

  method Exhaust(m: WorldState, i: nat)
    requires i < |m.items|
    modifies m`items
    ensures m.items == old(m.items)[i := ExhaustItem(old(m.items)[i])]
  {
    var item := m.items[i];
    if item.zone != NoZone && item.zone != Exhausted {
      item := item.(recoveryZone := item.zone);
    }
    m.items := m.items[i := item.(zone := Exhausted)];
  }

  method Spend(m: WorldState, i: nat)
    requires i < |m.items| && m.items[i].charges > 0
    modifies m`items
    ensures m.items == old(m.items)[i := SpendCharge(old(m.items)[i])]
  {
    m.items := m.items[i := m.items[i].(charges := m.items[i].charges - 1)];
    if m.items[i].charges == 0 {
      Exhaust(m, i);
    }
  }

  method CheckUse(m: WorldState, a: Action, actor: Actor) returns (reason: Reason, i: nat, j: nat)
    requires Known(m.Now(), a.actor) && actor == GetActor(m.Now(), a.actor)
    ensures reason == UseRefusal(m.Now(), a)
    ensures reason == NoReason ==>
              i == FindItem(m.items, a.item) < |m.items| && m.items[i].charges > 0
              && j == FindActor(m.actors, Aim(a)) < |m.actors|
  {
    hide FindActor;
    hide FindItem;
    j := |m.actors|;
    i := m.LocateItem(a.item);
    if i == |m.items| {
      return ItemNotFound, i, j;
    }
    if m.items[i].holder != actor.id || m.items[i].charges == 0 {
      return ItemNotAvailable, i, j;
    }
    j := m.LocateActor(if a.target != 0 then a.target else actor.id);
    if j == |m.actors| {
      return TargetNotFound, i, j;
    }
    if m.actors[j].location != actor.location {
      return NotSameLocation, i, j;
    }
    if m.items[i].kind != POTION {
      return InvalidAction, i, j;
    }
    reason := if m.actors[j].status == Active && m.actors[j].damage <= 0 then TargetUnavailable else NoReason;
  }

  method Heal(m: WorldState, j: nat)
    requires j < |m.actors|
    modifies m`actors
    ensures m.actors == old(m.actors)[j := Healed(old(m.actors)[j])]
  {
    var target := m.actors[j];
    m.actors := m.actors[j := target.(damage := if target.damage > 10 then target.damage - 10 else 0)];
    target := m.actors[j];
    if target.status == KnockedOut && CurrentHp(target) > 0 {
      m.actors := m.actors[j := target.(status := Active, conditions := target.conditions.(unconscious := false))];
    }
  }

  lemma UseInPlace(w: World, a: Action, i: nat, j: nat)
    requires IsActive(w, a.actor) && UseRefusal(w, a) == NoReason
    requires i == FindItem(w.items, a.item) && j == FindActor(w.actors, Aim(a))
    ensures i < |w.items| && w.items[i].charges > 0 && j < |w.actors|
    ensures ApplyUseItem(w, a)
         == Outcome(Success,
                    w.(actors := w.actors[j := Healed(w.actors[j])], items := w.items[i := SpendCharge(w.items[i])]),
                    [ItemUsed])
  {
    hide FirstIndex, Healed, SpendCharge;
  }

  /** The accepted use: the target healed, the charge spent. */
  method Drink(m: WorldState, a: Action, i: nat, j: nat, out: EventBuffer?)
    requires IsActive(m.Now(), a.actor) && UseRefusal(m.Now(), a) == NoReason
    requires i == FindItem(m.items, a.item) && j == FindActor(m.actors, Aim(a))
    modifies m, out
    ensures m.Did(old(m.LogOf(out)), ApplyUseItem(old(m.Now()), a), Success, out)
  {
    UseInPlace(m.Now(), a, i, j);
    hide WorldState.Did, FindActor, FindItem, UseRefusal, Healed, SpendCharge, ApplyUseItem, AppendEvent;
    Heal(m, j);
    Spend(m, i);
    m.Emit(ItemUsed, out);
    AppendOne(old(m.LogOf(out)), ItemUsed);
    m.Conclude(old(m.LogOf(out)), ApplyUseItem(old(m.Now()), a), Success, out);
  }

  method UsePotion(m: WorldState, a: Action, out: EventBuffer?) returns (status: Status)
    modifies m, out
    ensures m.Did(old(m.LogOf(out)), ApplyUseItem(old(m.Now()), a), status, out)
  {
    hide WorldState.Did, FindActor, FindItem, UseRefusal, Healed, SpendCharge;
    var at;
    status, at := m.RequireActive(a.actor, out);
    if status != Success {
      return;
    }
    var reason, i, j := CheckUse(m, a, m.actors[at]);
    if reason != NoReason {
      status := m.Refuse(reason, out);
      return;
    }
    Drink(m, a, i, j, out);
  }

  method Utilize(m: WorldState, a: Action, out: EventBuffer?) returns (status: Status)
    modifies m, out
    ensures m.Did(old(m.LogOf(out)), ApplyUtilize(old(m.Now()), a), status, out)
  {
    hide WorldState.Did;
    hide FindActor;
    hide FindItem;
    var at;
    status, at := m.RequireActive(a.actor, out);
    if status != Success {
      return;
    }
    var i := m.LocateItem(a.item);
    if i == |m.items| {
      status := m.Refuse(ItemNotFound, out);
      return;
    }
    if m.items[i].holder != a.actor || m.items[i].charges == 0 {
      status := m.Refuse(ItemNotAvailable, out);
      return;
    }
    m.Emit(ItemUsed, out);
    AppendOne(old(m.LogOf(out)), ItemUsed);
    status := Success;
    m.Conclude(old(m.LogOf(out)), ApplyUtilize(old(m.Now()), a), status, out);
  }

  method CheckMagic(m: WorldState, a: Action, actor: Actor) returns (reason: Reason, i: nat)
    requires Known(m.Now(), a.actor) && actor == GetActor(m.Now(), a.actor)
    ensures reason == MagicRefusal(m.Now(), a)
    ensures reason == NoReason ==> i == FindItem(m.items, a.item) < |m.items| && m.items[i].charges > 0
  {
    hide FindActor;
    hide FindItem;
    i := m.LocateItem(a.item);
    if i == |m.items| || m.items[i].holder != actor.id || m.items[i].role != ROLE_SPELL
       || m.items[i].zone != SpellDeck || m.items[i].charges == 0 {
      return ItemNotAvailable, i;
    }
    var j := m.LocateActor(if a.target != 0 then a.target else actor.id);
    if j == |m.actors| || m.actors[j].status != Active {
      return TargetUnavailable, i;
    }
    reason := if m.actors[j].location != actor.location then NotSameLocation else NoReason;
  }

  method CastSpell(m: WorldState, a: Action, out: EventBuffer?) returns (status: Status)
    modifies m, out
    ensures m.Did(old(m.LogOf(out)), ApplyMagic(old(m.Now()), a), status, out)
  {
    hide WorldState.Did;
    hide FindActor;
    hide FindItem;
    hide MagicRefusal;
    hide SpendCharge;
    var at;
    status, at := m.RequireActive(a.actor, out);
    if status != Success {
      return;
    }
    var reason, i := CheckMagic(m, a, m.actors[at]);
    if reason != NoReason {
      status := m.Refuse(reason, out);
      return;
    }
    Spend(m, i);
    m.Emit(SpellCast, out);
    AppendOne(old(m.LogOf(out)), SpellCast);
    status := Success;
    m.Conclude(old(m.LogOf(out)), ApplyMagic(old(m.Now()), a), status, out);
  }

  method CheckTheft(m: WorldState, a: Action, actor: Actor) returns (reason: Reason, i: nat)
    requires Known(m.Now(), a.actor) && actor == GetActor(m.Now(), a.actor)
    ensures reason == TheftRefusal(m.Now(), a)
    ensures reason == NoReason ==> i == FindItem(m.items, a.item) < |m.items|
  {
    hide FindActor;
    hide FindItem;
    hide CanExchange;
    var j := m.LocateActor(a.target);
    i := m.LocateItem(a.item);
    if j == |m.actors| || m.actors[j].status != Active || m.actors[j].id == actor.id {
      return TargetUnavailable, i;
    }
    if m.actors[j].location != actor.location {
      return NotSameLocation, i;
    }
    if i == |m.items| {
      return ItemNotFound, i;
    }
    if m.items[i].holder != m.actors[j].id || m.items[i].zone == Escrow {
      return ItemNotAvailable, i;
    }
    var fits := CheckExchange(m, actor, |m.items|, i);
    reason := if fits then NoReason else CapacityExceeded;
  }

  method Steal(m: WorldState, a: Action, seed: Seed, out: EventBuffer?) returns (status: Status)
    modifies m, out
    ensures m.Did(old(m.LogOf(out)), ApplyTheft(old(m.Now()), a, seed), status, out)
  {
    hide WorldState.Did;
    hide FindActor;
    hide FindItem;
    hide TheftRefusal;
    hide TheftSucceeds;
    var at;
    status, at := m.RequireActive(a.actor, out);
    if status != Success {
      return;
    }
    var reason, i := CheckTheft(m, a, m.actors[at]);
    if reason != NoReason {
      status := m.Refuse(reason, out);
      return;
    }
    var succeeds := TheftSucceeds(m.actors[at], a, seed);
    TakeIfWon(m, i, a.actor, succeeds, out);
    status := Success;
    m.Conclude(old(m.LogOf(out)), ApplyTheft(old(m.Now()), a, seed), status, out);
  }

  /** The attempt is on record either way; only a won roll moves the item. */
  method TakeIfWon(m: WorldState, i: nat, actor: Id, won: bool, out: EventBuffer?)
    requires i < |m.items|
    modifies m`items, m`nextSeq, out
    ensures m.items == if won then old(m.items)[i := InHandOf(old(m.items)[i], actor, m.tick)] else old(m.items)
    ensures m.LogOf(out) == AppendAll(old(m.LogOf(out)), if won then [TheftAttempt, ItemStolen] else [TheftAttempt])
  {
    ghost var log := m.LogOf(out);
    m.Emit(TheftAttempt, out);
    AppendOne(log, TheftAttempt);
    AppendPair(log, TheftAttempt, ItemStolen);
    if won {
      PutInHand(m, i, actor);
      m.Emit(ItemStolen, out);
    }
  }

  // ------------------------------------------------------------------- rest

  method NextToRefresh(m: WorldState, actor: Id, grade: nat, after: Id) returns (k: nat)
    ensures k == NextRefreshable(m.items, actor, grade, after, |m.items|)
  {
    hide Waiting;
    k := |m.items|;
    var i := 0;
    while i < |m.items|
      invariant i <= |m.items|
      invariant k == NextRefreshable(m.items, actor, grade, after, i)
    {
      if Waiting(m.items[i], actor, grade, after) && !(k < |m.items| && m.items[k].id < m.items[i].id) {
        k := i;
      }
      i := i + 1;
    }
  }

  method CountRefreshable(m: WorldState, actor: Id, grade: nat) returns (n: nat)
    ensures n == RefreshableCount(m.items, actor, grade, |m.items|)
  {
    hide Refreshable;
    n := 0;
    var i := 0;
    while i < |m.items|
      invariant i <= |m.items| && n == RefreshableCount(m.items, actor, grade, i)
    {
      if Refreshable(m.items[i], actor, grade) {
        n := n + 1;
      }
      i := i + 1;
    }
  }

  function Continued(picked: seq<nat>, rest: Selection): Selection {
    match rest
    case NoSelection => NoSelection
    case Selected(indices) => Selected(picked + indices)
  }

  lemma PickingContinues(items: seq<Item>, actor: Id, grade: nat, n: nat, after: Id, picked: seq<nat>)
    requires n > 0
    ensures var k := NextRefreshable(items, actor, grade, after, |items|);
            Continued(picked, SelectRefresh(items, actor, grade, n, after))
            == if k == |items| then NoSelection
               else Continued(picked + [k], SelectRefresh(items, actor, grade, n - 1, items[k].id))
  {
    hide NextRefreshable;
    var k := NextRefreshable(items, actor, grade, after, |items|);
    if k < |items| {
      var rest := SelectRefresh(items, actor, grade, n - 1, items[k].id);
      if rest.Selected? {
        assert picked + ([k] + rest.indices) == (picked + [k]) + rest.indices;
      }
    }
  }

  /** The picking loop; `all` reports whether it never ran dry. */
  method PickRefresh(m: WorldState, actor: Id, grade: nat, n: nat) returns (all: bool, picked: seq<nat>)
    ensures Continued([], SelectRefresh(m.items, actor, grade, n, 0)) == if all then Selected(picked) else NoSelection
  {
    hide NextRefreshable;
    picked := [];
    var last, i := 0, 0;
    while i < n
      invariant i <= n
      invariant Continued([], SelectRefresh(m.items, actor, grade, n, 0))
             == Continued(picked, SelectRefresh(m.items, actor, grade, n - i, last))
    {
      hide SelectRefresh;
      hide Continued;
      PickingContinues(m.items, actor, grade, n - i, last, picked);
      var k := NextToRefresh(m, actor, grade, last);
      if k == |m.items| {
        return false, picked;
      }
      last := m.items[k].id;
      picked := picked + [k];
      i := i + 1;
    }
    all := true;
  }

  lemma ContinuedFromNothing(s: Selection)
    ensures Continued([], s) == s
  {
    if s.Selected? {
      assert [] + s.indices == s.indices;
    }
  }

  method RefreshPicked(m: WorldState, picked: seq<nat>, out: EventBuffer?)
    requires forall k :: 0 <= k < |picked| ==> picked[k] < |m.items|
    modifies m, out
    ensures m.Now() == old(m.Now()).(items := RefreshAll(old(m.items), picked))
    ensures m.LogOf(out) == AppendAll(old(m.LogOf(out)), seq(|picked|, _ => ItemRefreshed))
  {
    hide Refresh;
    hide AppendEvent;
    ghost var start, log := m.Now(), m.LogOf(out);
    var i := 0;
    while i < |picked|
      invariant i <= |picked| && |m.items| == |start.items|
      invariant m.Now() == start.(items := m.items)
      invariant RefreshAll(start.items, picked) == RefreshAll(m.items, picked[i..])
      invariant m.LogOf(out) == AppendAll(log, seq(i, _ => ItemRefreshed))
    {
      assert picked[i..][0] == picked[i] && picked[i..][1..] == picked[i + 1..];
      AppendOne(m.LogOf(out), ItemRefreshed);
      AppendAllConcat(log, seq(i, _ => ItemRefreshed), [ItemRefreshed]);
      assert seq(i, _ => ItemRefreshed) + [ItemRefreshed] == seq(i + 1, _ => ItemRefreshed);
      m.items := m.items[picked[i] := Refresh(m.items[picked[i]])];
      m.Emit(ItemRefreshed, out);
      i := i + 1;
    }
    assert picked[i..] == [];
  }

  method RestUp(m: WorldState, a: Action, out: EventBuffer?) returns (status: Status)
    modifies m, out
    ensures m.Did(old(m.LogOf(out)), ApplyRest(old(m.Now()), a, out != null), status, out)
  {
    hide SelectRefresh;
    hide RefreshAll;
    hide RefreshableCount;
    var at;
    status, at := m.RequireActive(a.actor, out);
    if status != Success {
      return;
    }
    if a.restRequested < CAMP || a.restRequested > HEARTH || a.restEntitled < CAMP || a.restEntitled > HEARTH
       || a.restRequested > a.restEntitled {
      status := m.Refuse(RestGradeOverclaimed, out);
      return;
    }
    var n := CountRefreshable(m, a.actor, a.restRequested);
    if a.restRequested == CAMP && n > 1 {
      n := 1;
    }
    if n > MAX_EVENTS || (n > 0 && out == null) {
      return ErrFull;
    }
    ContinuedFromNothing(SelectRefresh(m.items, a.actor, a.restRequested, n, 0));
    var all, picked := PickRefresh(m, a.actor, a.restRequested, n);
    if !all {
      return ErrInvalid;
    }
    assert SelectRefresh(m.items, a.actor, a.restRequested, n, 0) == Selected(picked);
    assert seq(|picked|, _ => ItemRefreshed) == seq(n, _ => ItemRefreshed);
    RefreshPicked(m, picked, out);
    status := Success;
  }

  // ------------------------------------------------------------------ craft

  /** What the crafter keeps, and whether the output fits on top of it. */
  method CheckOutputFits(m: WorldState, a: Action, holder: Actor) returns (fits: bool)
    requires holder.id == a.actor
    ensures fits == (KeptWeight(m.items, a, |m.items|) + OutputWeight(a)
                     <= BaseCapacity(holder) + KeptCapacity(m.items, a, |m.items|))
  {
    hide LeavesActor;
    var weight, capacity, i := 0, BaseCapacity(holder), 0;
    while i < |m.items|
      invariant i <= |m.items|
      invariant weight == KeptWeight(m.items, a, i) && capacity == BaseCapacity(holder) + KeptCapacity(m.items, a, i)
    {
      if m.items[i].holder == a.actor && !LeavesActor(m.items[i], a) {
        weight := weight + WeightOf(m.items[i]);
        capacity := capacity + CapacityOf(m.items[i]);
      }
      i := i + 1;
    }
    fits := weight + OutputWeight(a) <= capacity;
  }

  /** The same question for somebody else's hand, where nothing is given up. */
  method CheckGiftFits(m: WorldState, a: Action, holder: Actor) returns (fits: bool)
    ensures fits == (HeldWeight(m.items, holder.id, |m.items|) + OutputWeight(a)
                     <= BaseCapacity(holder) + HeldCapacity(m.items, holder.id, |m.items|))
  {
    var weight, capacity, i := 0, BaseCapacity(holder), 0;
    while i < |m.items|
      invariant i <= |m.items|
      invariant weight == WeightUpTo(m.items, holder.id, |m.items|, i)
      invariant capacity == BaseCapacity(holder) + CapacityUpTo(m.items, holder.id, |m.items|, i)
    {
      if m.items[i].holder == holder.id {
        weight := weight + WeightOf(m.items[i]);
        capacity := capacity + CapacityOf(m.items[i]);
      }
      i := i + 1;
    }
    fits := weight + OutputWeight(a) <= capacity;
  }

  method CountRemoved(m: WorldState, a: Action) returns (n: nat)
    ensures n == RemovedCount(m.Now(), a)
  {
    n := 0;
    if Removes(a.itemDisposition) {
      var i := m.LocateItem(a.item);
      if i < |m.items| {
        n := n + 1;
      }
    }
    if a.targetItem != 0 && Removes(a.targetDisposition) {
      var j := m.LocateItem(a.targetItem);
      if j < |m.items| {
        n := n + 1;
      }
    }
  }

  method CheckHand(m: WorldState, a: Action) returns (slot: SlotCheck)
    ensures slot == if !IsActive(m.Now(), a.outputTarget) then SlotRefused(TargetNotFound)
                    else if !OutputFits(m.Now(), a) then SlotRefused(CapacityExceeded) else SlotFree
  {
    hide FindActor;
    hide FindItem;
    var j := m.LocateActor(a.outputTarget);
    if j == |m.actors| || m.actors[j].status != Active {
      return SlotRefused(TargetNotFound);
    }
    var fits;
    if m.actors[j].id == a.actor {
      fits := CheckOutputFits(m, a, m.actors[j]);
    } else {
      fits := CheckGiftFits(m, a, m.actors[j]);
    }
    slot := if fits then SlotFree else SlotRefused(CapacityExceeded);
  }

  method CheckSlot(m: WorldState, a: Action) returns (slot: SlotCheck)
    ensures slot == CheckOutputSlot(m.Now(), a)
  {
    hide FindActor;
    hide FindItem;
    hide RemovedCount;
    hide OutputFits;
    hide IsActive;
    if a.output == 0 {
      return SlotFree;
    }
    if a.outputTarget == 0 || a.outputTargetKind == 0 || a.outputKind == 0 || a.outputCharges == 0 {
      return SlotRefused(InvalidAction);
    }
    if OutputSize(a) < SIZE_TINY || OutputSize(a) > SIZE_LARGE || OutputRole(a) > ROLE_RELIC
       || (a.outputCapacity != 0 && OutputRole(a) != ROLE_CONTAINER) {
      return SlotRefused(InvalidAction);
    }
    var i := m.LocateItem(a.output);
    if i < |m.items| {
      return SlotRefused(ItemNotAvailable);
    }
    var removed := CountRemoved(m, a);
    if |m.items| - removed >= MAX_ITEMS {
      return SlotFull;
    }
    if a.outputTargetKind == ACTOR_HAND {
      slot := CheckHand(m, a);
    } else if a.outputTargetKind == LOCATION_FLOOR || a.outputTargetKind == LOCATION_FIXTURE {
      var l := m.LocateLocation(a.outputTarget);
      slot := if l == |m.locations| then SlotRefused(LocationNotFound) else SlotFree;
    } else {
      slot := SlotRefused(InvalidAction);
    }
  }

  method CheckCraft(m: WorldState, a: Action, actor: Actor) returns (reason: Reason)
    requires Known(m.Now(), a.actor) && actor == GetActor(m.Now(), a.actor)
    ensures reason == CraftRefusal(m.Now(), a)
  {
    hide FindActor;
    hide FindItem;
    if a.content == 0 || (a.item == 0 && !InputlessSupply(a))
       || (a.targetItem != 0 && a.item == a.targetItem)
       || a.itemDisposition > TRANSFORMED || a.targetDisposition > TRANSFORMED
       || (a.targetItem == 0 && a.targetDisposition != PERSISTS) {
      return InvalidAction;
    }
    var i := m.LocateItem(a.item);
    var j := m.LocateItem(a.targetItem);
    if (a.item != 0 && i == |m.items|) || (a.targetItem != 0 && j == |m.items|) {
      return ItemNotFound;
    }
    if a.targetItem != 0 && a.itemDisposition == PERSISTS && a.targetDisposition == PERSISTS {
      if m.items[i].holder != actor.id || m.items[j].holder != 0 || m.items[j].location != actor.location {
        return ItemNotAvailable;
      }
    } else if !InputlessSupply(a) {
      if !IsLocal(m.items[i], actor) || (a.targetItem != 0 && !IsLocal(m.items[j], actor)) {
        return ItemNotAvailable;
      }
    }
    reason := NoReason;
  }

  /** Compaction: the records behind the removed one move up. */
  method RemoveRecord(m: WorldState, id: Id)
    modifies m`items
    ensures m.Now() == RemoveItem(old(m.Now()), id)
  {
    var i := m.LocateItem(id);
    if i < |m.items| {
      m.items := m.items[..i] + m.items[i + 1..];
    }
  }

  method Dispose(m: WorldState, actor: Id, id: Id, disposition: nat, out: EventBuffer?)
    requires disposition <= TRANSFORMED
    modifies m, out
    ensures m.Now() == DisposeInput(old(m.Now()), actor, id, disposition)
    ensures m.LogOf(out) == AppendAll(old(m.LogOf(out)), DispositionEvents(disposition))
  {
    hide FindActor;
    hide FindItem;
    if disposition == PERSISTS {
      return;
    }
    var kind := if disposition == CONSUMED then ItemConsumed
                else if disposition == EXHAUSTS then ItemExhausted else ItemTransformed;
    AppendOne(m.LogOf(out), kind);
    m.Emit(kind, out);
    if disposition == EXHAUSTS {
      var i := m.LocateItem(id);
      if i < |m.items| {
        m.items := m.items[i := m.items[i].(charges := 0)];
        if m.items[i].holder == actor {
          Exhaust(m, i);
        }
      }
    } else {
      RemoveRecord(m, id);
    }
  }

  method ConsumeBoth(m: WorldState, a: Action, out: EventBuffer?)
    requires a.itemDisposition <= TRANSFORMED && a.targetDisposition <= TRANSFORMED
    modifies m, out
    ensures m.Now() == ConsumeInputs(old(m.Now()), a)
    ensures m.LogOf(out) == AppendAll(old(m.LogOf(out)), InputEvents(a))
  {
    hide DisposeInput;
    hide DispositionEvents;
    ghost var log := m.LogOf(out);
    if a.item != 0 {
      Dispose(m, a.actor, a.item, a.itemDisposition, out);
    }
    if a.targetItem != 0 {
      Dispose(m, a.actor, a.targetItem, a.targetDisposition, out);
    }
    AppendAllConcat(log, if a.item != 0 then DispositionEvents(a.itemDisposition) else [],
                    if a.targetItem != 0 then DispositionEvents(a.targetDisposition) else []);
  }

  /** The creation step, guards and all. */
  method CreateItem(m: WorldState, a: Action) returns (status: Status)
    modifies m`items
    ensures status == CreateStatus(old(m.Now()), a)
    ensures m.items == if status == Success then old(m.items) + [OutputItem(a, m.tick)] else old(m.items)
  {
    hide FindActor;
    hide FindItem;
    var i := m.LocateItem(a.output);
    if a.output == 0 || a.outputKind == 0 || a.outputCharges == 0 || i < |m.items| {
      return ErrInvalid;
    }
    if |m.items| >= MAX_ITEMS {
      return ErrFull;
    }
    if a.outputTargetKind < ACTOR_HAND || a.outputTargetKind > LOCATION_FIXTURE {
      return ErrInvalid;
    }
    m.items := m.items + [OutputItem(a, m.tick)];
    status := Success;
  }

  method FinishCraft(m: WorldState, a: Action, out: EventBuffer?, ghost log: Log, ghost events: seq<EventKind>)
    returns (status: Status)
    requires m.LogOf(out) == AppendAll(log, events)
    modifies m, out
    ensures m.Did(log, CommitCraft(old(m.Now()), a, events), status, out)
  {
    hide CreateStatus;
    hide Placed;
    hide PlacedTwice;
    hide OutputItem;
    if a.output != 0 {
      status := CreateItem(m, a);
      if status != Success {
        return;
      }
      m.Emit(ItemCreated, out);
      AppendAllConcat(log, events, [ItemCreated]);
      AppendOne(AppendAll(log, events), ItemCreated);
      status := FinishPlacement(m, out, log, events + [ItemCreated]);
    } else if a.targetItem != 0 {
      status := FinishTwice(m, out, log, events);
    } else {
      status := FinishPlacement(m, out, log, events);
    }
  }

  method CraftItem(m: WorldState, a: Action, out: EventBuffer?) returns (status: Status)
    modifies m, out
    ensures m.Did(old(m.LogOf(out)), ApplyCraft(old(m.Now()), a), status, out)
  {
    hide WorldState.Did;
    hide FindActor;
    hide FindItem;
    hide CheckOutputSlot;
    hide ConsumeInputs;
    hide CommitCraft;
    hide InputEvents;
    var at;
    status, at := m.RequireActive(a.actor, out);
    if status != Success {
      return;
    }
    assert CraftRefusal(m.Now(), a) == NoReason ==> a.itemDisposition <= TRANSFORMED && a.targetDisposition <= TRANSFORMED;
    hide CraftRefusal;
    var reason := CheckCraft(m, a, m.actors[at]);
    if reason != NoReason {
      status := m.Refuse(reason, out);
      return;
    }
    var slot := CheckSlot(m, a);
    if slot.SlotRefused? {
      status := m.Refuse(slot.reason, out);
      return;
    }
    if slot.SlotFull? {
      m.Conclude(m.LogOf(out), Outcome(ErrFull, m.Now(), []), ErrFull, out);
      return ErrFull;
    }
    status := Produce(m, a, out);
  }

  /** The inputs are dealt with, then the output is made. */
  method Produce(m: WorldState, a: Action, out: EventBuffer?) returns (status: Status)
    requires a.itemDisposition <= TRANSFORMED && a.targetDisposition <= TRANSFORMED
    modifies m, out
    ensures m.Did(old(m.LogOf(out)), CommitCraft(ConsumeInputs(old(m.Now()), a), a, [ItemCrafted] + InputEvents(a)),
                  status, out)
  {
    hide ConsumeInputs;
    hide CommitCraft;
    hide InputEvents;
    ghost var log := m.LogOf(out);
    m.Emit(ItemCrafted, out);
    AppendOne(log, ItemCrafted);
    ConsumeBoth(m, a, out);
    AppendAllConcat(log, [ItemCrafted], InputEvents(a));
    status := FinishCraft(m, a, out, log, [ItemCrafted] + InputEvents(a));
  }
}
