/**
  Rules that move, use, recover, craft and steal items, and the evolution
  tracks that item placement can complete.
 */
module ItemRules {
  import opened KernelTypes
  import opened Lookup
  import opened Carrying
  import opened GateRules

  // ---------------------------------------------------------------- placing

  function OnFloorAt(item: Item, location: Id): Item {
    item.(holder := 0, location := location, heldSince := 0, zone := WorldZone, container := 0)
  }

  function InHandOf(item: Item, actor: Id, tick: nat): Item {
    item.(holder := actor, location := 0, heldSince := tick, zone := Carried, container := 0)
  }

  // -------------------------------------------------------------- evolution

  predicate RequirementMet(w: World, r: Requirement) {
    && HasItem(w, r.item)
    && var x := GetItem(w, r.item);
       match r
       case InHand(_, actor) => x.holder == actor && x.location == 0
       case OnFloor(_, location) => x.holder == 0 && x.location == location
  }

  predicate TrackComplete(w: World, t: Track) {
    |t.requirements| > 0 && forall k :: 0 <= k < |t.requirements| ==> RequirementMet(w, t.requirements[k])
  }

  /** The track's actor is active, not yet evolved, and every requirement is met. */
  predicate ReadyToEvolve(w: World, t: Track) {
    IsActive(w, t.actor) && GetActor(w, t.actor).stats.level < 2 && TrackComplete(w, t)
  }

  function Evolved(actor: Actor): Actor {
    actor.(stats := actor.stats.(level := 2, hpBase := ToI16(actor.stats.hpBase + 2)))
  }

  datatype Evolution = Evolution(world: World, events: seq<EventKind>)

  /** The pass over the tracks from index `i` that follows every placement. */
  function Evolve(w: World, i: nat): Evolution
    requires i <= |w.tracks|
    decreases |w.tracks| - i
  {
    if i == |w.tracks| then Evolution(w, [])
    else if !ReadyToEvolve(w, w.tracks[i]) then Evolve(w, i + 1)
    else
      var next := Evolve(PutActor(w, Evolved(GetActor(w, w.tracks[i].actor))), i + 1);
      Evolution(next.world, [AvatarEvolved(w.tracks[i].actor)] + next.events)
  }

  function EvolveAll(w: World): Evolution {
    Evolve(w, 0)
  }

  function Placed(w: World, events: seq<EventKind>): Outcome {
    var e := EvolveAll(w);
    Outcome(Success, e.world, events + e.events)
  }

  // ------------------------------------------------------ pick up and drop

  function PickUpRefusal(w: World, a: Action): Reason
    requires Known(w, a.actor)
  {
    if !HasItem(w, a.item) then ItemNotFound
    else
      var actor, item := GetActor(w, a.actor), GetItem(w, a.item);
      var incoming := FindItem(w.items, a.item);
      if item.holder != 0 || item.location != actor.location || item.zone != WorldZone then ItemNotAvailable
      else if CanExchange(w, actor, |w.items|, incoming) then NoReason
      else if a.targetItem == 0 || !HasItem(w, a.targetItem)
              || GetItem(w, a.targetItem).holder != actor.id
              || !CanExchange(w, actor, FindItem(w.items, a.targetItem), incoming)
      then CapacityExceeded
      else NoReason
  }

  /** The exchange happens only when the item does not fit on its own. */
  predicate NeedsExchange(w: World, a: Action)
    requires Known(w, a.actor)
  {
    !CanExchange(w, GetActor(w, a.actor), |w.items|, FindItem(w.items, a.item))
  }

  function DropForExchange(w: World, a: Action): (r: World)
    requires Known(w, a.actor) && PickUpRefusal(w, a) == NoReason
    ensures r == w.(items := r.items) && HasItem(r, a.item)
  {
    if NeedsExchange(w, a)
    then PutItem(w, OnFloorAt(GetItem(w, a.targetItem), GetActor(w, a.actor).location)) else w
  }

  function CommitPickUp(w: World, a: Action): World
    requires Known(w, a.actor) && PickUpRefusal(w, a) == NoReason
  {
    var dropped := DropForExchange(w, a);
    PutItem(dropped, InHandOf(GetItem(dropped, a.item), a.actor, w.tick))
  }

  function ApplyPickUp(w: World, a: Action): Outcome {
    if !IsActive(w, a.actor) then RejectInactive(w, a.actor)
    else if PickUpRefusal(w, a) != NoReason then Reject(w, PickUpRefusal(w, a))
    else Placed(CommitPickUp(w, a), if NeedsExchange(w, a) then [ItemDropped, ItemPickedUp] else [ItemPickedUp])
  }

  function DropRefusal(w: World, a: Action): Reason
    requires Known(w, a.actor)
  {
    if !HasItem(w, a.item) then ItemNotFound
    else if GetItem(w, a.item).holder != a.actor then ItemNotAvailable
    else if !CanExchange(w, GetActor(w, a.actor), FindItem(w.items, a.item), |w.items|) then CapacityExceeded
    else NoReason
  }

  function CommitDrop(w: World, a: Action): World
    requires Known(w, a.actor) && DropRefusal(w, a) == NoReason
  {
    PutItem(w, OnFloorAt(GetItem(w, a.item), GetActor(w, a.actor).location))
  }

  function ApplyDrop(w: World, a: Action): Outcome {
    if !IsActive(w, a.actor) then RejectInactive(w, a.actor)
    else if DropRefusal(w, a) != NoReason then Reject(w, DropRefusal(w, a))
    else Placed(CommitDrop(w, a), [ItemDropped])
  }

  // -------------------------------------------------------- give and trade

  function PartnerRefusal(w: World, a: Action): Reason
    requires Known(w, a.actor)
  {
    if !Known(w, a.target) then TargetNotFound
    else if !IsActive(w, a.target) || a.target == a.actor then TargetUnavailable
    else if GetActor(w, a.target).location != GetActor(w, a.actor).location then NotSameLocation
    else NoReason
  }

  function GiveRefusal(w: World, a: Action): Reason
    requires Known(w, a.actor)
  {
    if PartnerRefusal(w, a) != NoReason then PartnerRefusal(w, a)
    else if !HasItem(w, a.item) then ItemNotFound
    else if GetItem(w, a.item).holder != a.actor then ItemNotAvailable
    else if a.targetItem != 0 && (!HasItem(w, a.targetItem) || GetItem(w, a.targetItem).holder != a.target)
    then ItemNotAvailable
    else
      var given := FindItem(w.items, a.item);
      var returned := if a.targetItem != 0 then FindItem(w.items, a.targetItem) else |w.items|;
      if !CanExchange(w, GetActor(w, a.actor), given, returned)
         || !CanExchange(w, GetActor(w, a.target), returned, given) then CapacityExceeded
      else NoReason
  }

  /** Hands one item to `receiver` and, when `back` names one, another to `giver`. */
  function Exchange(w: World, item: Id, receiver: Id, back: Id, giver: Id): (r: World)
    requires HasItem(w, item) && (back != 0 ==> HasItem(w, back))
    ensures r == w.(items := r.items)
  {
    var one := PutItem(w, InHandOf(GetItem(w, item), receiver, w.tick));
    if back != 0 then PutItem(one, InHandOf(GetItem(one, back), giver, w.tick)) else one
  }

  function CommitGive(w: World, a: Action): World
    requires Known(w, a.actor) && GiveRefusal(w, a) == NoReason
  {
    Exchange(w, a.item, a.target, a.targetItem, a.actor)
  }

  function ApplyGive(w: World, a: Action): Outcome {
    if !IsActive(w, a.actor) then RejectInactive(w, a.actor)
    else if GiveRefusal(w, a) != NoReason then Reject(w, GiveRefusal(w, a))
    else Placed(CommitGive(w, a), [ItemGiven])
  }

  function TradeRefusal(w: World, a: Action): Reason
    requires Known(w, a.actor)
  {
    if a.item == 0 || a.targetItem == 0 || a.item == a.targetItem then InvalidAction
    else if PartnerRefusal(w, a) != NoReason then PartnerRefusal(w, a)
    else if !HasItem(w, a.item) || !HasItem(w, a.targetItem) then ItemNotFound
    else if GetItem(w, a.item).holder != a.actor || GetItem(w, a.targetItem).holder != a.target then ItemNotAvailable
    else
      var offered, requested := FindItem(w.items, a.item), FindItem(w.items, a.targetItem);
      if !CanExchange(w, GetActor(w, a.actor), offered, requested)
         || !CanExchange(w, GetActor(w, a.target), requested, offered) then CapacityExceeded
      else NoReason
  }

  function CommitTrade(w: World, a: Action): World
    requires Known(w, a.actor) && TradeRefusal(w, a) == NoReason
  {
    Exchange(w, a.item, a.target, a.targetItem, a.actor)
  }

  /** Two evolution passes, one for each item that changed hands. */
  function PlacedTwice(w: World, events: seq<EventKind>): Outcome {
    var first := EvolveAll(w);
    var second := EvolveAll(first.world);
    Outcome(Success, second.world, events + first.events + second.events)
  }

  function ApplyTrade(w: World, a: Action): Outcome {
    if !IsActive(w, a.actor) then RejectInactive(w, a.actor)
    else if TradeRefusal(w, a) != NoReason then Reject(w, TradeRefusal(w, a))
    else PlacedTwice(CommitTrade(w, a), [ItemTraded])
  }

  // ------------------------------------------------------ search and reveal

  predicate IsHidden(item: Item) {
    item.holder == 0 && item.location == 0 && item.charges != 0
  }

  function SearchRefusal(w: World, a: Action): Reason
    requires Known(w, a.actor)
  {
    var here := GetActor(w, a.actor).location;
    if a.location != 0 && a.location != here then NotSameLocation
    else if !LocationExists(w, here) then LocationNotFound
    else if !HasItem(w, a.item) then ItemNotFound
    else if !IsHidden(GetItem(w, a.item)) then ItemNotAvailable
    else NoReason
  }

  function CommitSearch(w: World, a: Action): World
    requires Known(w, a.actor) && SearchRefusal(w, a) == NoReason
  {
    PutItem(w, OnFloorAt(GetItem(w, a.item), GetActor(w, a.actor).location))
  }

  function ApplySearch(w: World, a: Action): Outcome {
    if !IsActive(w, a.actor) then RejectInactive(w, a.actor)
    else if SearchRefusal(w, a) != NoReason then Reject(w, SearchRefusal(w, a))
    else Placed(CommitSearch(w, a), [ItemFound])
  }

  predicate LiesLoose(item: Item, location: Id) {
    item.holder == 0 && item.location == location && item.zone == WorldZone
  }

  function RevealRefusal(w: World, a: Action): Reason {
    if !LocationExists(w, a.location) then LocationNotFound
    else if !HasItem(w, a.item) then ItemNotFound
    else if !IsHidden(GetItem(w, a.item)) then ItemNotAvailable
    else if exists j :: 0 <= j < |w.items| && LiesLoose(w.items[j], a.location) then CapacityExceeded
    else NoReason
  }

  function ApplyReveal(w: World, a: Action): Outcome {
    if RevealRefusal(w, a) != NoReason then Reject(w, RevealRefusal(w, a))
    else Outcome(Success, PutItem(w, OnFloorAt(GetItem(w, a.item), a.location)), [ItemRevealed])
  }

  // ------------------------------------------------------------- using items

  function SpendCharge(item: Item): (r: Item)
    requires item.charges > 0
    ensures r.id == item.id && r.holder == item.holder && r.charges == item.charges - 1
  {
    var spent := item.(charges := item.charges - 1);
    if spent.charges == 0 then ExhaustItem(spent) else spent
  }

  /** An action without a target is aimed at its own actor. */
  function Aim(a: Action): Id {
    if a.target != 0 then a.target else a.actor
  }

  function UseRefusal(w: World, a: Action): Reason
    requires Known(w, a.actor)
  {
    if !HasItem(w, a.item) then ItemNotFound
    else if GetItem(w, a.item).holder != a.actor || GetItem(w, a.item).charges == 0 then ItemNotAvailable
    else if !Known(w, Aim(a)) then TargetNotFound
    else if GetActor(w, Aim(a)).location != GetActor(w, a.actor).location then NotSameLocation
    else if GetItem(w, a.item).kind != POTION then InvalidAction
    else if GetActor(w, Aim(a)).status == Active && GetActor(w, Aim(a)).damage <= 0 then TargetUnavailable
    else NoReason
  }

  /** A potion heals ten and raises a knocked-out actor who has hit points again. */
  function Healed(target: Actor): (r: Actor)
    ensures r.id == target.id && r.location == target.location
    ensures target.status == Active ==> r.status == Active
  {
    var healed := target.(damage := if target.damage > 10 then target.damage - 10 else 0);
    if healed.status == KnockedOut && CurrentHp(healed) > 0
    then healed.(status := Active, conditions := healed.conditions.(unconscious := false))
    else healed
  }

  function ApplyUseItem(w: World, a: Action): Outcome {
    if !IsActive(w, a.actor) then RejectInactive(w, a.actor)
    else if UseRefusal(w, a) != NoReason then Reject(w, UseRefusal(w, a))
    else Outcome(Success,
                 PutItem(PutActor(w, Healed(GetActor(w, Aim(a)))), SpendCharge(GetItem(w, a.item))),
                 [ItemUsed])
  }

  function ApplyUtilize(w: World, a: Action): Outcome {
    if !IsActive(w, a.actor) then RejectInactive(w, a.actor)
    else if !HasItem(w, a.item) then Reject(w, ItemNotFound)
    else if GetItem(w, a.item).holder != a.actor || GetItem(w, a.item).charges == 0
    then Reject(w, ItemNotAvailable)
    else Outcome(Success, w, [ItemUsed])
  }

  function MagicRefusal(w: World, a: Action): Reason
    requires Known(w, a.actor)
  {
    if !HasItem(w, a.item) || GetItem(w, a.item).holder != a.actor
       || GetItem(w, a.item).role != ROLE_SPELL || GetItem(w, a.item).zone != SpellDeck
       || GetItem(w, a.item).charges == 0
    then ItemNotAvailable
    else if !IsActive(w, Aim(a)) then TargetUnavailable
    else if GetActor(w, Aim(a)).location != GetActor(w, a.actor).location then NotSameLocation
    else NoReason
  }

  function ApplyMagic(w: World, a: Action): Outcome {
    if !IsActive(w, a.actor) then RejectInactive(w, a.actor)
    else if MagicRefusal(w, a) != NoReason then Reject(w, MagicRefusal(w, a))
    else Outcome(Success, PutItem(w, SpendCharge(GetItem(w, a.item))), [SpellCast])
  }

  // ------------------------------------------------------------------- rest

  const CAMP: nat := 1
  const LODGED: nat := 2
  const HEARTH: nat := 3

  predicate Refreshable(item: Item, actor: Id, grade: nat) {
    && item.holder == actor && item.zone == Exhausted && item.charges == 0
    && item.maxCharges != 0 && item.restRecovery
    && (if grade == CAMP || grade == LODGED then item.role == ROLE_SPELL
        else grade == HEARTH
             && (item.role == ROLE_SPELL || item.role == ROLE_SKILL_CHARM || item.role == ROLE_RELIC))
  }

  function RestoreZone(item: Item): Zone {
    if item.recoveryZone != NoZone && item.recoveryZone != Exhausted then item.recoveryZone
    else if item.role == ROLE_SPELL then SpellDeck
    else if item.role == ROLE_SKILL_CHARM then Equipped
    else Carried
  }

  function Refresh(item: Item): Item {
    item.(charges := item.maxCharges, zone := RestoreZone(item),
          recoveryZone := if item.recoveryZone == NoZone then RestoreZone(item) else item.recoveryZone)
  }

  function RefreshableCount(items: seq<Item>, actor: Id, grade: nat, n: nat): nat
    requires n <= |items|
  {
    if n == 0 then 0
    else RefreshableCount(items, actor, grade, n - 1) + if Refreshable(items[n - 1], actor, grade) then 1 else 0
  }

  predicate Waiting(item: Item, actor: Id, grade: nat, after: Id) {
    Refreshable(item, actor, grade) && item.id > after
  }

  /** Among the first `n` items, the index of the refreshable one with the least
      identifier above `after`, the last on ties; the table's length if none. */
  function NextRefreshable(items: seq<Item>, actor: Id, grade: nat, after: Id, n: nat): (k: nat)
    requires n <= |items|
    ensures k < n || k == |items|
    ensures k < |items| ==> Waiting(items[k], actor, grade, after)
    ensures forall j :: 0 <= j < n && Waiting(items[j], actor, grade, after) ==>
              k < |items| && items[k].id <= items[j].id
  {
    if n == 0 then |items|
    else
      var best := NextRefreshable(items, actor, grade, after, n - 1);
      if !Waiting(items[n - 1], actor, grade, after) || (best < |items| && items[best].id < items[n - 1].id)
      then best else n - 1
  }

  datatype Selection = Selected(indices: seq<nat>) | NoSelection

  /** The first loop: `n` items in increasing identifier order above `after`. */
  function SelectRefresh(items: seq<Item>, actor: Id, grade: nat, n: nat, after: Id): (s: Selection)
    ensures s.Selected? ==> |s.indices| == n
    ensures s.Selected? ==>
              forall k :: 0 <= k < n ==> s.indices[k] < |items| && Refreshable(items[s.indices[k]], actor, grade)
    decreases n
  {
    if n == 0 then Selected([])
    else
      var k := NextRefreshable(items, actor, grade, after, |items|);
      if k == |items| then NoSelection
      else
        var rest := SelectRefresh(items, actor, grade, n - 1, items[k].id);
        if rest.NoSelection? then NoSelection else Selected([k] + rest.indices)
  }

  /** The second loop: refresh the selected records. */
  function RefreshAll(items: seq<Item>, indices: seq<nat>): (r: seq<Item>)
    requires forall k :: 0 <= k < |indices| ==> indices[k] < |items|
    ensures |r| == |items|
    ensures forall j :: 0 <= j < |items| ==> r[j].id == items[j].id
    decreases |indices|
  {
    if indices == [] then items
    else
      RefreshAll(items[indices[0] := Refresh(items[indices[0]])], indices[1..])
  }

  function RestCount(w: World, a: Action): nat {
    var found := RefreshableCount(w.items, a.actor, a.restRequested, |w.items|);
    if a.restRequested == CAMP && found > 1 then 1 else found
  }

  function ApplyRest(w: World, a: Action, buffered: bool): Outcome {
    if !IsActive(w, a.actor) then RejectInactive(w, a.actor)
    else if a.restRequested < CAMP || a.restRequested > HEARTH
            || a.restEntitled < CAMP || a.restEntitled > HEARTH
            || a.restRequested > a.restEntitled
    then Reject(w, RestGradeOverclaimed)
    else
      var n := RestCount(w, a);
      if n > MAX_EVENTS || (n > 0 && !buffered) then Outcome(ErrFull, w, [])
      else
        var s := SelectRefresh(w.items, a.actor, a.restRequested, n, 0);
        if s.NoSelection? then Outcome(ErrInvalid, w, [])
        else Outcome(Success, w.(items := RefreshAll(w.items, s.indices)), seq(n, _ => ItemRefreshed))
  }

  // ------------------------------------------------------------------ theft

  function TheftRefusal(w: World, a: Action): Reason
    requires Known(w, a.actor)
  {
    if !IsActive(w, a.target) || a.target == a.actor then TargetUnavailable
    else if GetActor(w, a.target).location != GetActor(w, a.actor).location then NotSameLocation
    else if !HasItem(w, a.item) then ItemNotFound
    else if GetItem(w, a.item).holder != a.target || GetItem(w, a.item).zone == Escrow then ItemNotAvailable
    else if !CanExchange(w, GetActor(w, a.actor), |w.items|, FindItem(w.items, a.item)) then CapacityExceeded
    else NoReason
  }

  predicate TheftSucceeds(actor: Actor, a: Action, seed: Seed) {
    ToI16(RollD20(seed, 1, ROLL_NORMAL) + AbilityModifier(actor.stats.dexterity))
    >= ToI16(if a.dc != 0 then a.dc else 12)
  }

  function ApplyTheft(w: World, a: Action, seed: Seed): Outcome {
    if !IsActive(w, a.actor) then RejectInactive(w, a.actor)
    else if TheftRefusal(w, a) != NoReason then Reject(w, TheftRefusal(w, a))
    else if TheftSucceeds(GetActor(w, a.actor), a, seed) then
      Outcome(Success, PutItem(w, InHandOf(GetItem(w, a.item), a.actor, w.tick)), [TheftAttempt, ItemStolen])
    else Outcome(Success, w, [TheftAttempt])
  }

  // ------------------------------------------------------------------ craft

  predicate Removes(disposition: nat) {
    disposition == CONSUMED || disposition == TRANSFORMED
  }

  /** Deletes the first record with this identifier and closes the gap. */
  function RemoveItem(w: World, id: Id): World {
    var i := FindItem(w.items, id);
    if i == |w.items| then w else w.(items := w.items[..i] + w.items[i + 1..])
  }

  function OutputRole(a: Action): nat {
    if a.outputRole != 0 then a.outputRole
    else if a.outputKind == POTION then ROLE_CONSUMABLE else ROLE_GENERIC
  }

  function OutputSize(a: Action): nat {
    if a.outputSize != 0 then a.outputSize else SIZE_SMALL
  }

  function OutputWeight(a: Action): nat {
    if a.outputWeight != 0 then a.outputWeight else DEFAULT_WEIGHT
  }

  /** The item a successful craft leaves behind. */
  function OutputItem(a: Action, tick: nat): Item {
    var inHand := a.outputTargetKind == ACTOR_HAND;
    Item(a.output, a.outputKind, a.outputCharges, a.outputCharges,
         OutputWeight(a), a.outputCapacity, OutputSize(a), OutputRole(a),
         if inHand then Carried else if a.outputTargetKind == LOCATION_FLOOR then WorldZone else Installed,
         0, false, NoZone,
         if inHand then 0 else a.outputTarget, if inHand then a.outputTarget else 0,
         0, if inHand then tick else 0)
  }

  predicate LeavesActor(item: Item, a: Action) {
    (item.id == a.item && Removes(a.itemDisposition))
    || (item.id == a.targetItem && Removes(a.targetDisposition))
  }

  function KeptWeight(items: seq<Item>, a: Action, n: nat): nat
    requires n <= |items|
  {
    if n == 0 then 0
    else KeptWeight(items, a, n - 1)
         + if items[n - 1].holder == a.actor && !LeavesActor(items[n - 1], a) then WeightOf(items[n - 1]) else 0
  }

  function KeptCapacity(items: seq<Item>, a: Action, n: nat): nat
    requires n <= |items|
  {
    if n == 0 then 0
    else KeptCapacity(items, a, n - 1)
         + if items[n - 1].holder == a.actor && !LeavesActor(items[n - 1], a) then CapacityOf(items[n - 1]) else 0
  }

  predicate OutputFits(w: World, a: Action)
    requires Known(w, a.outputTarget)
  {
    var holder := GetActor(w, a.outputTarget);
    if holder.id == a.actor
    then KeptWeight(w.items, a, |w.items|) + OutputWeight(a) <= BaseCapacity(holder) + KeptCapacity(w.items, a, |w.items|)
    else HeldWeight(w.items, holder.id, |w.items|) + OutputWeight(a)
         <= BaseCapacity(holder) + HeldCapacity(w.items, holder.id, |w.items|)
  }

  function RemovedCount(w: World, a: Action): nat {
    (if Removes(a.itemDisposition) && HasItem(w, a.item) then 1 else 0)
    + (if a.targetItem != 0 && Removes(a.targetDisposition) && HasItem(w, a.targetItem) then 1 else 0)
  }

  datatype SlotCheck = SlotFree | SlotRefused(reason: Reason) | SlotFull

  function CheckOutputSlot(w: World, a: Action): SlotCheck {
    if a.output == 0 then SlotFree
    else if a.outputTarget == 0 || a.outputTargetKind == 0 || a.outputKind == 0 || a.outputCharges == 0
    then SlotRefused(InvalidAction)
    else if OutputSize(a) < SIZE_TINY || OutputSize(a) > SIZE_LARGE || OutputRole(a) > ROLE_RELIC
            || (a.outputCapacity != 0 && OutputRole(a) != ROLE_CONTAINER)
    then SlotRefused(InvalidAction)
    else if HasItem(w, a.output) then SlotRefused(ItemNotAvailable)
    else if |w.items| - RemovedCount(w, a) >= MAX_ITEMS then SlotFull
    else if a.outputTargetKind == ACTOR_HAND then
      if !IsActive(w, a.outputTarget) then SlotRefused(TargetNotFound)
      else if !OutputFits(w, a) then SlotRefused(CapacityExceeded)
      else SlotFree
    else if a.outputTargetKind == LOCATION_FLOOR || a.outputTargetKind == LOCATION_FIXTURE then
      if !LocationExists(w, a.outputTarget) then SlotRefused(LocationNotFound) else SlotFree
    else SlotRefused(InvalidAction)
  }

  /** The guard inside item creation, which craft reaches after its removals. */
  function CreateStatus(w: World, a: Action): Status {
    if a.output == 0 || a.outputKind == 0 || a.outputCharges == 0 || HasItem(w, a.output) then ErrInvalid
    else if |w.items| >= MAX_ITEMS then ErrFull
    else if a.outputTargetKind < ACTOR_HAND || a.outputTargetKind > LOCATION_FIXTURE then ErrInvalid
    else Success
  }

  function DisposeInput(w: World, actor: Id, id: Id, disposition: nat): (r: World)
    ensures r == w.(items := r.items)
  {
    if disposition == PERSISTS then w
    else if disposition == EXHAUSTS then
      if !HasItem(w, id) then w
      else
        var x := GetItem(w, id).(charges := 0);
        PutItem(w, if x.holder == actor then ExhaustItem(x) else x)
    else RemoveItem(w, id)
  }

  function DispositionEvents(disposition: nat): seq<EventKind> {
    if disposition == CONSUMED then [ItemConsumed]
    else if disposition == EXHAUSTS then [ItemExhausted]
    else if disposition == TRANSFORMED then [ItemTransformed]
    else []
  }

  predicate InputlessSupply(a: Action) {
    && a.content == 3105 && a.item == 0 && a.targetItem == 0 && a.output != 0
    && a.itemDisposition == PERSISTS && a.targetDisposition == PERSISTS
  }

  predicate IsLocal(item: Item, actor: Actor) {
    (item.holder == actor.id && item.location == 0) || (item.holder == 0 && item.location == actor.location)
  }

  function CraftRefusal(w: World, a: Action): Reason
    requires Known(w, a.actor)
  {
    var actor := GetActor(w, a.actor);
    if a.content == 0 || (a.item == 0 && !InputlessSupply(a))
       || (a.targetItem != 0 && a.item == a.targetItem)
       || a.itemDisposition > TRANSFORMED || a.targetDisposition > TRANSFORMED
       || (a.targetItem == 0 && a.targetDisposition != PERSISTS)
    then InvalidAction
    else if (a.item != 0 && !HasItem(w, a.item)) || (a.targetItem != 0 && !HasItem(w, a.targetItem))
    then ItemNotFound
    else if a.targetItem != 0 && a.itemDisposition == PERSISTS && a.targetDisposition == PERSISTS then
      // The two-input recipe: one input in hand, the other at the location.  An
      // absent first input was refused above because a second one is present.
      if GetItem(w, a.item).holder != actor.id
         || GetItem(w, a.targetItem).holder != 0 || GetItem(w, a.targetItem).location != actor.location
      then ItemNotAvailable else NoReason
    else if InputlessSupply(a) then NoReason
    else if !IsLocal(GetItem(w, a.item), actor)
            || (a.targetItem != 0 && !IsLocal(GetItem(w, a.targetItem), actor))
    then ItemNotAvailable
    else NoReason
  }

  function ConsumeInputs(w: World, a: Action): (r: World)
    ensures r == w.(items := r.items)
  {
    var one := if a.item != 0 then DisposeInput(w, a.actor, a.item, a.itemDisposition) else w;
    if a.targetItem != 0 then DisposeInput(one, a.actor, a.targetItem, a.targetDisposition) else one
  }

  function InputEvents(a: Action): seq<EventKind> {
    (if a.item != 0 then DispositionEvents(a.itemDisposition) else [])
    + (if a.targetItem != 0 then DispositionEvents(a.targetDisposition) else [])
  }

  function ApplyCraft(w: World, a: Action): Outcome {
    if !IsActive(w, a.actor) then RejectInactive(w, a.actor)
    else if CraftRefusal(w, a) != NoReason then Reject(w, CraftRefusal(w, a))
    else
      var slot := CheckOutputSlot(w, a);
      if slot.SlotRefused? then Reject(w, slot.reason)
      else if slot.SlotFull? then Outcome(ErrFull, w, [])
      else
        CommitCraft(ConsumeInputs(w, a), a, [ItemCrafted] + InputEvents(a))
  }

  /** Creation and evolution, once the inputs have been dealt with. */
  function CommitCraft(used: World, a: Action, events: seq<EventKind>): Outcome {
    if a.output != 0 then
      if CreateStatus(used, a) != Success then Outcome(CreateStatus(used, a), used, events)
      else Placed(used.(items := used.items + [OutputItem(a, used.tick)]), events + [ItemCreated])
    else if a.targetItem != 0 then PlacedTwice(used, events)
    else Placed(used, events)
  }
}
