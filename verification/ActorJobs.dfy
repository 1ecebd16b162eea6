/**
  The actor job table and the writes workers make to it.  A worker reads the next
  claimable row, then claims it with an update that takes effect only while the
  row still looks as it was read; failure, requeue and completion are written by
  identifier alone.
 */
module ActorJobs {
  import opened Options
  import opened Sequences

  const LEASE_MS: nat := 120_000
  const MALFORMED_DELAY_MS: nat := 30_000
  const MAX_ATTEMPTS: nat := 3
  const U64_MAX: nat := 0xFFFF_FFFF_FFFF_FFFF
  const I64_MAX: int := 0x7FFF_FFFF_FFFF_FFFF

  type I64 = x: int | -0x8000_0000_0000_0000 <= x <= 0x7FFF_FFFF_FFFF_FFFF
  type U64 = x: nat | x <= 0xFFFF_FFFF_FFFF_FFFF
  type U32 = x: nat | x <= 0xFFFF_FFFF

  datatype Status = Pending | Running | Completed | Dead

  /** The stored payload, and whether it can be read back. */
  datatype Payload = Payload(text: string, readable: bool)

  datatype Job = Job(
    id: int, kind: string, actor: I64, sourceTick: I64, status: Status, attempts: I64, lease: Option<I64>,
    available: I64, payload: Payload, dedupeKey: string)

  datatype Table = Table(rows: seq<Job>, nextId: int)

  // -------------------------------------------------------------- arithmetic

  function SaturatingAdd(a: I64, b: nat): I64 {
    if a + b > I64_MAX then I64_MAX else a + b
  }

  /** An unsigned number reread as a signed one of the same width. */
  function AsSigned(x: U64): I64 {
    if x <= I64_MAX then x else x - 0x1_0000_0000_0000_0000
  }

  function AddUnsigned(a: U64, b: nat): U64 {
    if a + b > U64_MAX then U64_MAX else a + b
  }

  /** The attempt number a claim writes. */
  function NextAttempt(attempts: I64): I64 {
    SaturatingAdd(if attempts < 0 then 0 else attempts, 1)
  }

  /** The attempt number as the worker is told it: cut to 32 bits. */
  function ToldAttempt(attempt: I64): U32 {
    (if attempt < 0 then 0 else attempt) % 0x1_0000_0000
  }

  function PowerOfTwo(n: nat): nat {
    if n == 0 then 1 else 2 * PowerOfTwo(n - 1)
  }

  /** The wait after a failed attempt: doubling from a quarter second, up to eight. */
  function Backoff(attempts: U32, floor: U64): U64 {
    var exponent := if attempts == 0 then 0 else if attempts - 1 < 5 then attempts - 1 else 5;
    var wait := AddUnsigned(0, 250 * PowerOfTwo(exponent));
    if wait < floor then floor else wait
  }

  // ---------------------------------------------------------------- selection

  predicate LeasedAt(j: Job, now: I64) {
    j.status == Running && j.lease.Some? && j.lease.value > now
  }

  predicate Claimable(j: Job, now: I64) {
    || (j.status == Pending && j.available <= now)
    || (j.status == Running && j.lease.Some? && j.lease.value <= now)
  }

  /** Another job of the actor and kind holds an unexpired lease. */
  predicate Blocked(rows: seq<Job>, j: Job, now: I64) {
    exists k :: 0 <= k < |rows| && rows[k].actor == j.actor && rows[k].kind == j.kind && rows[k].id != j.id
                && LeasedAt(rows[k], now)
  }

  function EligibleIn(rows: seq<Job>, now: I64, kind: Option<string>): Job -> bool {
    (j: Job) => Claimable(j, now) && (kind.None? || j.kind == kind.value) && !Blocked(rows, j, now)
  }

  predicate Sooner(a: Job, b: Job) {
    a.sourceTick < b.sourceTick || (a.sourceTick == b.sourceTick && a.id < b.id)
  }

  function Selected(rows: seq<Job>, now: I64, kind: Option<string>): Option<Job> {
    var candidates := Sort(Filter(rows, EligibleIn(rows, now, kind)), Sooner);
    if candidates == [] then None else Some(candidates[0])
  }

  // ------------------------------------------------------------------ updates

  function UpdateWhere(rows: seq<Job>, condition: Job -> bool, change: Job -> Job): (r: seq<Job>)
    ensures |r| == |rows|
    ensures forall i :: 0 <= i < |rows| ==> r[i] == if condition(rows[i]) then change(rows[i]) else rows[i]
  {
    seq(|rows|, i requires 0 <= i < |rows| => if condition(rows[i]) then change(rows[i]) else rows[i])
  }

  /** The row is claimable and still looks as it was read. */
  predicate AsRead(j: Job, seen: Job, now: I64) {
    && j.id == seen.id && Claimable(j, now) && j.status == seen.status && j.attempts == seen.attempts
    && j.payload == seen.payload && j.lease == seen.lease && j.available == seen.available
  }

  function Unmoved(seen: Job, now: I64): Job -> bool {
    (j: Job) => AsRead(j, seen, now)
  }

  function Leasing(seen: Job, now: I64): Job -> Job {
    (j: Job) => j.(status := Running, attempts := NextAttempt(seen.attempts), lease := Some(SaturatingAdd(now, LEASE_MS)))
  }

  function Deferring(now: I64): Job -> Job {
    (j: Job) => j.(status := Pending, lease := None, available := SaturatingAdd(now, MALFORMED_DELAY_MS))
  }

  function WithId(id: int): Job -> bool {
    (j: Job) => j.id == id
  }

  function Setting(status: Status, available: I64): Job -> Job {
    (j: Job) => j.(status := status, lease := None, available := available)
  }

  function Completing(): Job -> Job {
    (j: Job) => j.(status := Completed, lease := None)
  }

  predicate Takes(rows: seq<Job>, seen: Job, now: I64) {
    exists i :: 0 <= i < |rows| && AsRead(rows[i], seen, now)
  }

  function ClaimRow(rows: seq<Job>, seen: Job, now: I64): seq<Job> {
    UpdateWhere(rows, Unmoved(seen, now), Leasing(seen, now))
  }

  function DeferRow(rows: seq<Job>, seen: Job, now: I64): seq<Job> {
    UpdateWhere(rows, Unmoved(seen, now), Deferring(now))
  }

  /** A failure returns the row to the queue, or buries it after the last attempt. */
  function FailRow(rows: seq<Job>, id: int, attempts: U32, now: U64, floor: U64): seq<Job> {
    UpdateWhere(rows, WithId(id), Setting(if attempts >= MAX_ATTEMPTS then Dead else Pending,
                                          AsSigned(AddUnsigned(now, Backoff(attempts, floor)))))
  }

  function RequeueRow(rows: seq<Job>, id: int, attempts: U32, now: U64, floor: U64): seq<Job> {
    UpdateWhere(rows, WithId(id), Setting(Pending, AsSigned(AddUnsigned(now, Backoff(attempts, floor)))))
  }

  function BuryRow(rows: seq<Job>, id: int, now: U64): seq<Job> {
    UpdateWhere(rows, WithId(id), Setting(Dead, AsSigned(now)))
  }

  function CompleteRow(rows: seq<Job>, id: int): seq<Job> {
    UpdateWhere(rows, WithId(id), Completing())
  }

  predicate KnowsKey(rows: seq<Job>, key: string) {
    exists i :: 0 <= i < |rows| && rows[i].dedupeKey == key
  }

  /** A new pending row, unless its key is already there. */
  function InsertRow(t: Table, kind: string, actor: I64, tick: I64, payload: Payload, key: string, available: I64): Table {
    if KnowsKey(t.rows, key) then t
    else Table(t.rows + [Job(t.nextId, kind, actor, tick, Pending, 0, None, available, payload, key)], t.nextId + 1)
  }

  // ---------------------------------------------------------------- the table

  datatype Claim = Idle | Lost | Malformed(id: int) | Granted(id: int, attempt: I64)

  class JobTable {
    var rows: seq<Job>
    var nextId: int

    constructor ()
      ensures rows == [] && nextId == 1
    {
      rows, nextId := [], 1;
    }

    ghost function Contents(): Table
      reads this
    {
      Table(rows, nextId)
    }

    method Insert(kind: string, actor: I64, tick: I64, payload: Payload, key: string, now: I64, delay: nat)
        returns (inserted: bool)
      modifies this
      ensures Contents() == InsertRow(old(Contents()), kind, actor, tick, payload, key, SaturatingAdd(now, delay))
      ensures inserted <==> !KnowsKey(old(rows), key)
    {
      inserted := !KnowsKey(rows, key);
      if inserted {
        rows := rows + [Job(nextId, kind, actor, tick, Pending, 0, None, SaturatingAdd(now, delay), payload, key)];
        nextId := nextId + 1;
      }
    }

    /** The conditional update of a claim; `claimed` tells whether a row changed. */
    method TryClaim(seen: Job, now: I64) returns (claimed: bool)
      modifies `rows
      ensures rows == ClaimRow(old(rows), seen, now) && (claimed <==> Takes(old(rows), seen, now))
    {
      claimed := Takes(rows, seen, now);
      rows := UpdateWhere(rows, Unmoved(seen, now), Leasing(seen, now));
    }

    method TryDefer(seen: Job, now: I64) returns (deferred: bool)
      modifies `rows
      ensures rows == DeferRow(old(rows), seen, now) && (deferred <==> Takes(old(rows), seen, now))
    {
      deferred := Takes(rows, seen, now);
      rows := UpdateWhere(rows, Unmoved(seen, now), Deferring(now));
    }

    /** Selection and update with nothing in between: the row taken is the one
        selected, so the update always finds it unchanged. */
    method ClaimNext(now: I64, kind: Option<string>) returns (r: Claim)
      modifies `rows
      ensures var seen := Selected(old(rows), now, kind);
              && (seen.None? ==> r == Idle && rows == old(rows))
              && (seen.Some? && seen.value.payload.readable ==>
                    r == Granted(seen.value.id, NextAttempt(seen.value.attempts))
                    && rows == ClaimRow(old(rows), seen.value, now))
              && (seen.Some? && !seen.value.payload.readable ==>
                    r == Malformed(seen.value.id) && rows == DeferRow(old(rows), seen.value, now))
    {
      var seen := Selected(rows, now, kind);
      if seen.None? {
        return Idle;
      }
      SelectedIsEligible(rows, now, kind);
      if seen.value.payload.readable {
        var claimed := TryClaim(seen.value, now);
        r := if claimed then Granted(seen.value.id, NextAttempt(seen.value.attempts)) else Lost;
      } else {
        var deferred := TryDefer(seen.value, now);
        r := if deferred then Malformed(seen.value.id) else Lost;
      }
    }

    method FailOrRetry(id: int, attempts: U32, now: U64, floor: U64)
      modifies `rows
      ensures rows == FailRow(old(rows), id, attempts, now, floor)
    {
      var terminal := attempts >= MAX_ATTEMPTS;
      var available := AsSigned(AddUnsigned(now, Backoff(attempts, floor)));
      rows := UpdateWhere(rows, WithId(id), Setting(if terminal then Dead else Pending, available));
    }

    method Requeue(id: int, attempts: U32, now: U64, floor: U64)
      modifies `rows
      ensures rows == RequeueRow(old(rows), id, attempts, now, floor)
    {
      rows := UpdateWhere(rows, WithId(id), Setting(Pending, AsSigned(AddUnsigned(now, Backoff(attempts, floor)))));
    }

    method Bury(id: int, now: U64)
      modifies `rows
      ensures rows == BuryRow(old(rows), id, now)
    {
      rows := UpdateWhere(rows, WithId(id), Setting(Dead, AsSigned(now)));
    }

    method Complete(id: int)
      modifies `rows
      ensures rows == CompleteRow(old(rows), id)
    {
      rows := UpdateWhere(rows, WithId(id), Completing());
    }
  }

  /** The selected row is in the table, claimable, unblocked, and no eligible row is sooner. */
  lemma SelectedIsEligible(rows: seq<Job>, now: I64, kind: Option<string>)
    ensures var seen := Selected(rows, now, kind);
            && (seen.Some? ==> seen.value in rows && EligibleIn(rows, now, kind)(seen.value)
                               && Takes(rows, seen.value, now))
            && (seen.None? ==> forall j :: j in rows ==> !EligibleIn(rows, now, kind)(j))
  {
    var seen, eligible := Selected(rows, now, kind), Filter(rows, EligibleIn(rows, now, kind));
    SortMembers(eligible, Sooner);
    hide Sort;
    if seen.Some? {
      assert seen.value in eligible;
      FilterMembers(rows, EligibleIn(rows, now, kind), seen.value);
      assert AsRead(seen.value, seen.value, now);
    } else {
      forall j | j in rows ensures !EligibleIn(rows, now, kind)(j) {
        FilterMembers(rows, EligibleIn(rows, now, kind), j);
      }
    }
  }
}
