/**
  The item handlers in place.  Each searches, refuses or overwrites records of
  the live world, emits its events, and is proved to be its rule.
 */
module LiveItems {
  import opened KernelTypes
  import opened Lookup
  import opened Carrying
  import opened ItemRules
  import opened LiveState

  /** The transfer check as one pass with two running totals. */
  method CheckExchange(m: WorldState, actor: Actor, removed: nat, added: nat) returns (fits: bool)
    ensures fits == CanExchange(m.Now(), actor, removed, added)
  {
    var weight, capacity, i := 0, BaseCapacity(actor), 0;
    while i < |m.items|
      invariant i <= |m.items|
      invariant weight == WeightUpTo(m.items, actor.id, removed, i)
      invariant capacity == BaseCapacity(actor) + CapacityUpTo(m.items, actor.id, removed, i)
    {
      var item := m.items[i];
      if item.holder == actor.id && i != removed {
        weight := weight + WeightOf(item);
        capacity := capacity + CapacityOf(item);
      }
      i := i + 1;
    }
    if added < |m.items| && added != removed {
      weight := weight + WeightOf(m.items[added]);
      capacity := capacity + CapacityOf(m.items[added]);
    }
    fits := weight <= capacity;
  }

  // -------------------------------------------------------------- evolution

  method CheckRequirement(m: WorldState, r: Requirement) returns (met: bool)
    ensures met == RequirementMet(m.Now(), r)
  {
    var i := m.LocateItem(r.item);
    if i == |m.items| {
      return false;
    }
    match r {
      case InHand(_, actor) => met := m.items[i].holder == actor && m.items[i].location == 0;
      case OnFloor(_, location) => met := m.items[i].holder == 0 && m.items[i].location == location;
    }
  }

  method CheckTrack(m: WorldState, t: Track) returns (complete: bool)
    ensures complete == TrackComplete(m.Now(), t)
  {
    var k := 0;
    while k < |t.requirements|
      invariant k <= |t.requirements|
      invariant forall j :: 0 <= j < k ==> RequirementMet(m.Now(), t.requirements[j])
    {
      var met := CheckRequirement(m, t.requirements[k]);
      if !met {
        return false;
      }
      k := k + 1;
    }
    complete := |t.requirements| != 0;
  }

  method EvolveOne(m: WorldState, track: Track, out: EventBuffer?)
    modifies m, out
    ensures if ReadyToEvolve(old(m.Now()), track)
            then m.Now() == PutActor(old(m.Now()), Evolved(GetActor(old(m.Now()), track.actor)))
                 && m.LogOf(out) == AppendEvent(old(m.LogOf(out)), AvatarEvolved(track.actor))
            else m.Now() == old(m.Now()) && m.LogOf(out) == old(m.LogOf(out))
  {
    hide TrackComplete;
    var at := m.LocateActor(track.actor);
    if at < |m.actors| && m.actors[at].status == Active && m.actors[at].stats.level < 2 {
      var complete := CheckTrack(m, track);
      if complete {
        m.actors := m.actors[at := Evolved(m.actors[at])];
        m.Emit(AvatarEvolved(track.actor), out);
      }
    }
  }

  /** The pass over all tracks after a placement, evolving actors as it goes. */
  method EvolvePass(m: WorldState, out: EventBuffer?)
    modifies m, out
    ensures m.Now() == EvolveAll(old(m.Now())).world
    ensures m.LogOf(out) == AppendAll(old(m.LogOf(out)), EvolveAll(old(m.Now())).events)
  {
    hide ReadyToEvolve;
    hide AppendEvent;
    hide Evolved;
    ghost var start, log := m.Now(), m.LogOf(out);
    var i := 0;
    while i < |m.tracks|
      invariant i <= |m.tracks|
      invariant EvolveAll(start).world == Evolve(m.Now(), i).world
      invariant AppendAll(log, EvolveAll(start).events) == AppendAll(m.LogOf(out), Evolve(m.Now(), i).events)
    {
      EvolveOne(m, m.tracks[i], out);
      i := i + 1;
    }
  }

  /** The end of a handler that placed an item: evolution, and success. */
  method FinishPlacement(m: WorldState, out: EventBuffer?, ghost log: Log, ghost events: seq<EventKind>)
    returns (status: Status)
    requires m.LogOf(out) == AppendAll(log, events)
    modifies m, out
    ensures m.Did(log, Placed(old(m.Now()), events), status, out)
  {
    hide EvolveAll;
    AppendAllConcat(log, events, EvolveAll(m.Now()).events);
    EvolvePass(m, out);
    status := Success;
  }

  // -------------------------------------------------------- moving one item

  method PutOnFloor(m: WorldState, i: nat, location: Id)
    requires i < |m.items|
    modifies m`items
    ensures m.items == old(m.items)[i := OnFloorAt(old(m.items)[i], location)]
  {
    m.items := m.items[i := m.items[i].(holder := 0, location := location, heldSince := 0,
                                        zone := WorldZone, container := 0)];
  }

  method PutInHand(m: WorldState, i: nat, actor: Id)
    requires i < |m.items|
    modifies m`items
    ensures m.items == old(m.items)[i := InHandOf(old(m.items)[i], actor, m.tick)]
  {
    m.items := m.items[i := m.items[i].(holder := actor, location := 0, heldSince := m.tick,
                                        zone := Carried, container := 0)];
  }

  method TakeItem(m: WorldState, a: Action, i: nat, other: nat, out: EventBuffer?) returns (status: Status)
    requires Known(m.Now(), a.actor) && PickUpRefusal(m.Now(), a) == NoReason && i == FindItem(m.items, a.item)
    requires other == if NeedsExchange(m.Now(), a) then FindItem(m.items, a.targetItem) else |m.items|
    modifies m, out
    ensures m.Did(old(m.LogOf(out)),
                  Placed(CommitPickUp(old(m.Now()), a),
                         if NeedsExchange(old(m.Now()), a) then [ItemDropped, ItemPickedUp] else [ItemPickedUp]),
                  status, out)
  {
    hide FindActor;
    hide FindItem;
    hide CanExchange;
    hide Placed;
    ghost var start, log := m.Now(), m.LogOf(out);
    var at := m.LocateActor(a.actor);
    if other < |m.items| {
      PutOnFloor(m, other, m.actors[at].location);
      m.Emit(ItemDropped, out);
    }
    assert m.Now() == DropForExchange(start, a);
    PutInHand(m, i, a.actor);
    m.Emit(ItemPickedUp, out);
    assert m.Now() == CommitPickUp(start, a);
    hide CommitPickUp;
    hide DropForExchange;
    hide PickUpRefusal;
    AppendPair(log, ItemDropped, ItemPickedUp);
    status := FinishPlacement(m, out, log, if other < |m.items| then [ItemDropped, ItemPickedUp] else [ItemPickedUp]);
  }

  method CheckPickUp(m: WorldState, a: Action, actor: Actor) returns (reason: Reason, i: nat, other: nat)
    requires Known(m.Now(), a.actor) && actor == GetActor(m.Now(), a.actor)
    ensures reason == PickUpRefusal(m.Now(), a) && i == FindItem(m.items, a.item)
    ensures reason == NoReason ==> other == if NeedsExchange(m.Now(), a) then FindItem(m.items, a.targetItem) else |m.items|
  {
    hide FindActor;
    hide FindItem;
    hide CanExchange;
    other := |m.items|;
    i := m.LocateItem(a.item);
    if i == |m.items| {
      return ItemNotFound, i, other;
    }
    if m.items[i].holder != 0 || m.items[i].location != actor.location || m.items[i].zone != WorldZone {
      return ItemNotAvailable, i, other;
    }
    var fits := CheckExchange(m, actor, |m.items|, i);
    if !fits {
      if a.targetItem != 0 {
        other := m.LocateItem(a.targetItem);
      }
      var exchanges := false;
      if other < |m.items| && m.items[other].holder == actor.id {
        exchanges := CheckExchange(m, actor, other, i);
      }
      if !exchanges {
        return CapacityExceeded, i, other;
      }
    }
    reason := NoReason;
  }

  method PickUp(m: WorldState, a: Action, out: EventBuffer?) returns (status: Status)
    modifies m, out
    ensures m.Did(old(m.LogOf(out)), ApplyPickUp(old(m.Now()), a), status, out)
  {
    hide WorldState.Did;
    hide PickUpRefusal;
    hide NeedsExchange;
    hide Placed;
    hide CommitPickUp;
    var at;
    status, at := m.RequireActive(a.actor, out);
    if status != Success {
      return;
    }
    var reason, i, other := CheckPickUp(m, a, m.actors[at]);
    if reason != NoReason {
      status := m.Refuse(reason, out);
      return;
    }
    status := TakeItem(m, a, i, other, out);
  }

  method CheckDrop(m: WorldState, a: Action, actor: Actor) returns (reason: Reason, i: nat)
    requires Known(m.Now(), a.actor) && actor == GetActor(m.Now(), a.actor)
    ensures reason == DropRefusal(m.Now(), a) && i == FindItem(m.items, a.item)
  {
    hide FindActor;
    hide FindItem;
    hide CanExchange;
    i := m.LocateItem(a.item);
    if i == |m.items| {
      return ItemNotFound, i;
    }
    if m.items[i].holder != actor.id {
      return ItemNotAvailable, i;
    }
    var fits := CheckExchange(m, actor, i, |m.items|);
    reason := if fits then NoReason else CapacityExceeded;
  }

  method Drop(m: WorldState, a: Action, out: EventBuffer?) returns (status: Status)
    modifies m, out
    ensures m.Did(old(m.LogOf(out)), ApplyDrop(old(m.Now()), a), status, out)
  {
    hide FindActor;
    hide FindItem;
    hide WorldState.Did;
    hide DropRefusal;
    hide Placed;
    var at;
    status, at := m.RequireActive(a.actor, out);
    if status != Success {
      return;
    }
    var reason, i := CheckDrop(m, a, m.actors[at]);
    if reason != NoReason {
      status := m.Refuse(reason, out);
      return;
    }
    assert i < |m.items| by { DropFindsItem(m.Now(), a); }
    PutOnFloor(m, i, m.actors[at].location);
    m.Emit(ItemDropped, out);
    assert m.Now() == CommitDrop(old(m.Now()), a) by { DropFindsItem(old(m.Now()), a); }
    hide CommitDrop;
    AppendOne(old(m.LogOf(out)), ItemDropped);
    status := FinishPlacement(m, out, old(m.LogOf(out)), [ItemDropped]);
  }

  lemma DropFindsItem(w: World, a: Action)
    requires Known(w, a.actor) && DropRefusal(w, a) == NoReason
    ensures HasItem(w, a.item)
  {}

  // --------------------------------------------------------- give and trade

  method CheckPartner(m: WorldState, a: Action, actor: Actor) returns (reason: Reason, j: nat)
    requires Known(m.Now(), a.actor) && actor == GetActor(m.Now(), a.actor)
    ensures reason == PartnerRefusal(m.Now(), a)
    ensures reason == NoReason ==> j == FindActor(m.actors, a.target) < |m.actors|
  {
    j := m.LocateActor(a.target);
    if j == |m.actors| {
      return TargetNotFound, j;
    }
    if m.actors[j].status != Active || m.actors[j].id == actor.id {
      return TargetUnavailable, j;
    }
    reason := if m.actors[j].location != actor.location then NotSameLocation else NoReason;
  }

  /** Both directions of a swap: what each side gives up against what it gets. */
  method CheckSwap(m: WorldState, giver: Actor, receiver: Actor, given: nat, returned: nat) returns (fits: bool)
    ensures fits == (CanExchange(m.Now(), giver, given, returned) && CanExchange(m.Now(), receiver, returned, given))
  {
    hide CanExchange;
    fits := CheckExchange(m, giver, given, returned);
    if fits {
      fits := CheckExchange(m, receiver, returned, given);
    }
  }

  method CheckGive(m: WorldState, a: Action, actor: Actor) returns (reason: Reason, i: nat, back: nat)
    requires Known(m.Now(), a.actor) && actor == GetActor(m.Now(), a.actor)
    ensures reason == GiveRefusal(m.Now(), a)
    ensures reason == NoReason ==> i == FindItem(m.items, a.item)
    ensures reason == NoReason ==> back == if a.targetItem != 0 then FindItem(m.items, a.targetItem) else |m.items|
  {
    hide PartnerRefusal;
    hide FindActor;
    hide FindItem;
    hide CanExchange;
    i, back := |m.items|, |m.items|;
    var j;
    reason, j := CheckPartner(m, a, actor);
    if reason != NoReason {
      return;
    }
    i := m.LocateItem(a.item);
    if i == |m.items| {
      return ItemNotFound, i, back;
    }
    if m.items[i].holder != actor.id {
      return ItemNotAvailable, i, back;
    }
    if a.targetItem != 0 {
      back := m.LocateItem(a.targetItem);
      if back == |m.items| || m.items[back].holder != a.target {
        return ItemNotAvailable, i, back;
      }
    }
    var fits := CheckSwap(m, actor, m.actors[j], i, back);
    reason := if fits then NoReason else CapacityExceeded;
  }

  method SwapItems(m: WorldState, i: nat, receiver: Id, back: nat, giver: Id, ghost item: Id, ghost returned: Id)
    requires i == FindItem(m.items, item) < |m.items|
    requires back == (if returned != 0 then FindItem(m.items, returned) else |m.items|)
    requires returned != 0 ==> back < |m.items|
    modifies m`items
    ensures m.Now() == Exchange(old(m.Now()), item, receiver, returned, giver)
  {
    PutInHand(m, i, receiver);
    if back < |m.items| {
      PutInHand(m, back, giver);
    }
  }

  method Give(m: WorldState, a: Action, out: EventBuffer?) returns (status: Status)
    modifies m, out
    ensures m.Did(old(m.LogOf(out)), ApplyGive(old(m.Now()), a), status, out)
  {
    hide FindActor;
    hide FindItem;
    hide WorldState.Did;
    hide GiveRefusal;
    hide Placed;
    hide Exchange;
    var at;
    status, at := m.RequireActive(a.actor, out);
    if status != Success {
      return;
    }
    var reason, i, back := CheckGive(m, a, m.actors[at]);
    if reason != NoReason {
      status := m.Refuse(reason, out);
      return;
    }
    GiveFindsItems(m.Now(), a);
    SwapItems(m, i, a.target, back, a.actor, a.item, a.targetItem);
    m.Emit(ItemGiven, out);
    AppendOne(old(m.LogOf(out)), ItemGiven);
    status := FinishPlacement(m, out, old(m.LogOf(out)), [ItemGiven]);
  }

  lemma GiveFindsItems(w: World, a: Action)
    requires Known(w, a.actor) && GiveRefusal(w, a) == NoReason
    ensures HasItem(w, a.item) && (a.targetItem != 0 ==> HasItem(w, a.targetItem))
  {}

  method CheckTrade(m: WorldState, a: Action, actor: Actor) returns (reason: Reason, i: nat, back: nat)
    requires Known(m.Now(), a.actor) && actor == GetActor(m.Now(), a.actor)
    ensures reason == TradeRefusal(m.Now(), a)
    ensures reason == NoReason ==> i == FindItem(m.items, a.item) && back == FindItem(m.items, a.targetItem)
  {
    hide PartnerRefusal;
    hide FindActor;
    hide FindItem;
    hide CanExchange;
    i, back := |m.items|, |m.items|;
    if a.item == 0 || a.targetItem == 0 || a.item == a.targetItem {
      return InvalidAction, i, back;
    }
    var j;
    reason, j := CheckPartner(m, a, actor);
    if reason != NoReason {
      return;
    }
    i := m.LocateItem(a.item);
    back := m.LocateItem(a.targetItem);
    if i == |m.items| || back == |m.items| {
      return ItemNotFound, i, back;
    }
    if m.items[i].holder != actor.id || m.items[back].holder != a.target {
      return ItemNotAvailable, i, back;
    }
    var fits := CheckSwap(m, actor, m.actors[j], i, back);
    reason := if fits then NoReason else CapacityExceeded;
  }

  /** Two evolution passes, one for each item that changed hands. */
  method FinishTwice(m: WorldState, out: EventBuffer?, ghost log: Log, ghost events: seq<EventKind>)
    returns (status: Status)
    requires m.LogOf(out) == AppendAll(log, events)
    modifies m, out
    ensures m.Did(log, PlacedTwice(old(m.Now()), events), status, out)
  {
    hide EvolveAll;
    ghost var first := EvolveAll(m.Now());
    AppendAllConcat(log, events, first.events);
    EvolvePass(m, out);
    AppendAllConcat(log, events + first.events, EvolveAll(m.Now()).events);
    EvolvePass(m, out);
    status := Success;
  }

  method Trade(m: WorldState, a: Action, out: EventBuffer?) returns (status: Status)
    modifies m, out
    ensures m.Did(old(m.LogOf(out)), ApplyTrade(old(m.Now()), a), status, out)
  {
    hide FindActor;
    hide FindItem;
    hide WorldState.Did;
    hide TradeRefusal;
    hide PlacedTwice;
    hide Exchange;
    var at;
    status, at := m.RequireActive(a.actor, out);
    if status != Success {
      return;
    }
    var reason, i, back := CheckTrade(m, a, m.actors[at]);
    if reason != NoReason {
      status := m.Refuse(reason, out);
      return;
    }
    TradeFindsItems(m.Now(), a);
    SwapItems(m, i, a.target, back, a.actor, a.item, a.targetItem);
    m.Emit(ItemTraded, out);
    AppendOne(old(m.LogOf(out)), ItemTraded);
    status := FinishTwice(m, out, old(m.LogOf(out)), [ItemTraded]);
  }

  lemma TradeFindsItems(w: World, a: Action)
    requires Known(w, a.actor) && TradeRefusal(w, a) == NoReason
    ensures HasItem(w, a.item) && HasItem(w, a.targetItem) && a.targetItem != 0
  {}

  // ------------------------------------------------------- search and reveal

  method CheckSearch(m: WorldState, a: Action, here: Id) returns (reason: Reason, i: nat)
    requires Known(m.Now(), a.actor) && here == GetActor(m.Now(), a.actor).location
    ensures reason == SearchRefusal(m.Now(), a)
    ensures reason == NoReason ==> i == FindItem(m.items, a.item) < |m.items|
  {
    i := |m.items|;
    if a.location != 0 && a.location != here {
      return NotSameLocation, i;
    }
    var l := m.LocateLocation(here);
    if l == |m.locations| {
      return LocationNotFound, i;
    }
    i := m.LocateItem(a.item);
    if i == |m.items| {
      return ItemNotFound, i;
    }
    reason := if IsHidden(m.items[i]) then NoReason else ItemNotAvailable;
  }

  method SearchPlace(m: WorldState, a: Action, out: EventBuffer?) returns (status: Status)
    modifies m, out
    ensures m.Did(old(m.LogOf(out)), ApplySearch(old(m.Now()), a), status, out)
  {
    hide FindActor;
    hide FindItem;
    hide WorldState.Did;
    hide SearchRefusal;
    hide Placed;
    var at;
    status, at := m.RequireActive(a.actor, out);
    if status != Success {
      return;
    }
    var reason, i := CheckSearch(m, a, m.actors[at].location);
    if reason != NoReason {
      status := m.Refuse(reason, out);
      return;
    }
    PutOnFloor(m, i, m.actors[at].location);
    m.Emit(ItemFound, out);
    assert m.Now() == CommitSearch(old(m.Now()), a) by { assert HasItem(old(m.Now()), a.item); }
    hide CommitSearch;
    AppendOne(old(m.LogOf(out)), ItemFound);
    status := FinishPlacement(m, out, old(m.LogOf(out)), [ItemFound]);
  }

  method Reveal(m: WorldState, a: Action, out: EventBuffer?) returns (status: Status)
    modifies m, out
    ensures m.Did(old(m.LogOf(out)), ApplyReveal(old(m.Now()), a), status, out)
  {
    hide FindActor;
    hide FindItem;
    hide WorldState.Did;
    var l := m.LocateLocation(a.location);
    if l == |m.locations| {
      status := m.Refuse(LocationNotFound, out);
      return;
    }
    var i := m.LocateItem(a.item);
    if i == |m.items| {
      status := m.Refuse(ItemNotFound, out);
      return;
    }
    if !IsHidden(m.items[i]) {
      status := m.Refuse(ItemNotAvailable, out);
      return;
    }
    var k := 0;
    while k < |m.items| && !LiesLoose(m.items[k], a.location)
      invariant k <= |m.items| && forall j :: 0 <= j < k ==> !LiesLoose(m.items[j], a.location)
    {
      k := k + 1;
    }
    if k < |m.items| {
      status := m.Refuse(CapacityExceeded, out);
      return;
    }
    PutOnFloor(m, i, a.location);
    m.Emit(ItemRevealed, out);
    AppendOne(old(m.LogOf(out)), ItemRevealed);
    status := Success;
    m.Conclude(old(m.LogOf(out)), ApplyReveal(old(m.Now()), a), status, out);
  }
}
