/**
  Carrying capacity: what an actor holds, what an equipped container adds, and
  the check that every transfer of an item makes before it commits.
 */
module Carrying {
  import opened KernelTypes
  import opened Lookup

  function WeightOf(item: Item): nat {
    if item.weight != 0 then item.weight else DEFAULT_WEIGHT
  }

  /** Only an equipped container that is not itself inside another one counts. */
  function CapacityOf(item: Item): nat {
    if item.role != ROLE_CONTAINER || item.zone != Equipped || item.container != 0 then 0
    else item.containerCapacity
  }

  function BaseCapacity(actor: Actor): nat {
    (if actor.stats.strength < 1 then 1 else actor.stats.strength) * 150
  }

  /** Total weight `actor` holds among the first `n` items, leaving out index `skip`. */
  function WeightUpTo(items: seq<Item>, actor: Id, skip: nat, n: nat): nat
    requires n <= |items|
  {
    if n == 0 then 0
    else WeightUpTo(items, actor, skip, n - 1)
         + if items[n - 1].holder == actor && n - 1 != skip then WeightOf(items[n - 1]) else 0
  }

  /** Total container capacity `actor` holds among the first `n` items, leaving out `skip`. */
  function CapacityUpTo(items: seq<Item>, actor: Id, skip: nat, n: nat): nat
    requires n <= |items|
  {
    if n == 0 then 0
    else CapacityUpTo(items, actor, skip, n - 1)
         + if items[n - 1].holder == actor && n - 1 != skip then CapacityOf(items[n - 1]) else 0
  }

  function HeldWeight(items: seq<Item>, actor: Id, skip: nat): nat {
    WeightUpTo(items, actor, skip, |items|)
  }

  function HeldCapacity(items: seq<Item>, actor: Id, skip: nat): nat {
    CapacityUpTo(items, actor, skip, |items|)
  }

  /** The transfer check: may `actor` give up the item at `removed` and receive
      the item at `added`?  An index equal to the table's length means none. */
  predicate CanExchange(w: World, actor: Actor, removed: nat, added: nat) {
    var counted := added < |w.items| && added != removed;
    HeldWeight(w.items, actor.id, removed) + (if counted then WeightOf(w.items[added]) else 0)
    <= BaseCapacity(actor) + HeldCapacity(w.items, actor.id, removed)
       + (if counted then CapacityOf(w.items[added]) else 0)
  }

  /** Some pickup of the item at `incoming` fits, outright or against a held item. */
  predicate CanPickUp(w: World, actor: Actor, incoming: nat) {
    || CanExchange(w, actor, |w.items|, incoming)
    || exists out :: 0 <= out < |w.items| && w.items[out].holder == actor.id
                     && CanExchange(w, actor, out, incoming)
  }

  /** The actor holds no more than it can carry. */
  predicate WithinCapacity(w: World, id: Id)
    requires Known(w, id)
  {
    HeldWeight(w.items, id, |w.items|)
    <= BaseCapacity(GetActor(w, id)) + HeldCapacity(w.items, id, |w.items|)
  }

  function Contribution(item: Item, actor: Id): nat {
    if item.holder == actor then WeightOf(item) else 0
  }

  function CapacityContribution(item: Item, actor: Id): nat {
    if item.holder == actor then CapacityOf(item) else 0
  }

  /** Rewriting one record moves the held weight and capacity by exactly the
      change of that record's own share. */
  lemma {:induction false} ReplaceChangesShare(items: seq<Item>, i: nat, x: Item, actor: Id, none: nat, n: nat)
    requires i < |items| <= none && n <= |items|
    ensures WeightUpTo(items[i := x], actor, none, n)
         == WeightUpTo(items, actor, none, n)
            + if i < n then Contribution(x, actor) - Contribution(items[i], actor) else 0
    ensures CapacityUpTo(items[i := x], actor, none, n)
         == CapacityUpTo(items, actor, none, n)
            + if i < n then CapacityContribution(x, actor) - CapacityContribution(items[i], actor) else 0
  {
    if n != 0 {
      ReplaceChangesShare(items, i, x, actor, none, n - 1);
    }
  }

  /** Leaving an index out of the sum removes exactly that record's share. */
  lemma {:induction false} SkipRemovesShare(items: seq<Item>, skip: nat, actor: Id, none: nat, n: nat)
    requires n <= |items| <= none
    ensures WeightUpTo(items, actor, skip, n)
         == WeightUpTo(items, actor, none, n) - if skip < n then Contribution(items[skip], actor) else 0
    ensures CapacityUpTo(items, actor, skip, n)
         == CapacityUpTo(items, actor, none, n) - if skip < n then CapacityContribution(items[skip], actor) else 0
  {
    if n != 0 {
      SkipRemovesShare(items, skip, actor, none, n - 1);
    }
  }
}
