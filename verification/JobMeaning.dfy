/**
  What the job table's reads and writes do, told without their own helpers: which
  row a worker gets, what each write makes of it, and that a worker that asks for
  one kind of job is granted no other.
 */
module JobMeaning {
  import opened Options
  import opened ActorJobs
  import opened JobLaws

  // ------------------------------------------------------------------ selection

  /** Waiting and due, or running on a lease that has ended. */
  predicate Ready(j: Job, now: I64) {
    || (j.status == Pending && j.available <= now)
    || (j.status == Running && j.lease.Some? && j.lease.value <= now)
  }

  /** Another job of the same actor and kind is running on a lease. */
  predicate HasRival(rows: seq<Job>, j: Job, now: I64) {
    exists i :: 0 <= i < |rows| && rows[i].id != j.id && rows[i].actor == j.actor && rows[i].kind == j.kind
                && rows[i].status == Running && rows[i].lease.Some? && rows[i].lease.value > now
  }

  /** The row can be taken by a worker that asks for this kind, or for any. */
  predicate Open(rows: seq<Job>, j: Job, now: I64, kind: Option<string>) {
    Ready(j, now) && (kind == None || kind == Some(j.kind)) && !HasRival(rows, j, now)
  }

  lemma OpenMeans(rows: seq<Job>, j: Job, now: I64, kind: Option<string>)
    ensures EligibleIn(rows, now, kind)(j) <==> Open(rows, j, now, kind)
  {}

  /** Main result: a worker gets an open row, of the kind it asks for if it does, and
      of the earliest tick and lowest identifier; and gets none only if none is open. */
  lemma SelectionMeans(rows: seq<Job>, now: I64, kind: Option<string>)
    requires forall i, j :: 0 <= i < j < |rows| ==> rows[i].id != rows[j].id
    ensures var seen := Selected(rows, now, kind);
            && (seen.None? ==> forall i :: 0 <= i < |rows| ==> !Open(rows, rows[i], now, kind))
            && (seen.Some? ==>
                  && seen.value in rows && Open(rows, seen.value, now, kind)
                  && (kind.Some? ==> seen.value.kind == kind.value)
                  && forall i :: 0 <= i < |rows| && Open(rows, rows[i], now, kind) && rows[i].id != seen.value.id ==>
                       seen.value.sourceTick < rows[i].sourceTick
                       || (seen.value.sourceTick == rows[i].sourceTick && seen.value.id < rows[i].id))
  {
    SelectedIsEligible(rows, now, kind);
    SelectedIsSoonest(rows, now, kind);
    forall j ensures EligibleIn(rows, now, kind)(j) <==> Open(rows, j, now, kind) {
      OpenMeans(rows, j, now, kind);
    }
    hide Selected, EligibleIn, HasRival, Ready, Takes;
    var seen := Selected(rows, now, kind);
    if seen.Some? {
      forall i | 0 <= i < |rows| && Open(rows, rows[i], now, kind) && rows[i].id != seen.value.id ensures Sooner(seen.value, rows[i]) {
        assert rows[i] in rows;
      }
    }
  }

  // --------------------------------------------------------------------- writes

  /** The row is as it was read, in all that a write can change, and still ready. */
  predicate StillAs(j: Job, seen: Job, now: I64) {
    j == seen.(kind := j.kind, actor := j.actor, sourceTick := j.sourceTick, dedupeKey := j.dedupeKey) && Ready(j, now)
  }

  /** A time this many milliseconds later, the last one there is at most. */
  function Later(now: I64, wait: nat): I64 {
    if now + wait <= 0x7FFF_FFFF_FFFF_FFFF then now + wait else 0x7FFF_FFFF_FFFF_FFFF
  }

  /** One more attempt than counted, or the first, while numbers last. */
  function OneMore(attempts: I64): I64 {
    if attempts <= 0 then 1 else if attempts == 0x7FFF_FFFF_FFFF_FFFF then attempts else attempts + 1
  }

  /** A claim and a deferral touch only the row that is still as it was read: the one
      runs it for two minutes and counts the attempt, the other puts it off by half a
      minute. */
  lemma ClaimsMean(rows: seq<Job>, seen: Job, now: I64)
    ensures Takes(rows, seen, now) <==> exists i :: 0 <= i < |rows| && StillAs(rows[i], seen, now)
    ensures |ClaimRow(rows, seen, now)| == |DeferRow(rows, seen, now)| == |rows|
    ensures forall i :: 0 <= i < |rows| ==>
              ClaimRow(rows, seen, now)[i] == if !StillAs(rows[i], seen, now) then rows[i]
                else rows[i].(status := Running, attempts := OneMore(seen.attempts), lease := Some(Later(now, 120000)))
    ensures forall i :: 0 <= i < |rows| ==>
              DeferRow(rows, seen, now)[i] == if !StillAs(rows[i], seen, now) then rows[i]
                else rows[i].(status := Pending, lease := None, available := Later(now, 30000))
  {
    forall j: Job ensures AsRead(j, seen, now) <==> StillAs(j, seen, now) {}
    hide AsRead, StillAs;
  }

  /** The worker is told the last 32 bits of the attempt's number. */
  lemma TellingMeans(attempt: I64)
    requires attempt >= 0
    ensures 0 <= ToldAttempt(attempt) <= 0xFFFF_FFFF && (attempt - ToldAttempt(attempt)) % 0x1_0000_0000 == 0
    ensures attempt <= 0xFFFF_FFFF ==> ToldAttempt(attempt) == attempt
  {}

  /** The wait before the next attempt: a quarter second, doubled with each attempt up
      to eight seconds, and no less than asked for. */
  function Wait(attempts: U32, floor: U64): U64 {
    var usual := match attempts case 0 => 250 case 1 => 250 case 2 => 500 case 3 => 1000 case 4 => 2000 case 5 => 4000 case _ => 8000;
    if usual < floor then floor else usual
  }

  /** The end of the wait: no later than the last unsigned time, and stored as the
      signed number of the same bits. */
  predicate IsDue(due: I64, now: U64, wait: U64) {
    var end := if now + wait <= 0xFFFF_FFFF_FFFF_FFFF then now + wait else 0xFFFF_FFFF_FFFF_FFFF;
    (due - end) % 0x1_0000_0000_0000_0000 == 0
  }

  lemma WaitMeans(attempts: U32, floor: U64)
    ensures Backoff(attempts, floor) == Wait(attempts, floor)
  {
    assert PowerOfTwo(0) == 1 && PowerOfTwo(1) == 2 && PowerOfTwo(2) == 4 && PowerOfTwo(3) == 8 && PowerOfTwo(4) == 16
           && PowerOfTwo(5) == 32;
  }

  lemma DueMeans(now: U64, wait: U64)
    ensures IsDue(AsSigned(AddUnsigned(now, wait)), now, wait)
  {}

  /** Nothing but these three has changed. */
  predicate Set(before: Job, after: Job, status: Status, now: U64, wait: U64) {
    after == before.(status := status, lease := None, available := after.available) && IsDue(after.available, now, wait)
  }

  /** A failure sends the row back to wait, or buries it from the third attempt on; a
      requeue sends it back whatever its attempts. */
  lemma FailuresMean(rows: seq<Job>, id: int, attempts: U32, now: U64, floor: U64)
    ensures var r, q := FailRow(rows, id, attempts, now, floor), RequeueRow(rows, id, attempts, now, floor);
            && |r| == |q| == |rows|
            && forall i :: 0 <= i < |rows| ==>
                 if rows[i].id != id then r[i] == rows[i] && q[i] == rows[i]
                 else Set(rows[i], r[i], if attempts < 3 then Pending else Dead, now, Wait(attempts, floor))
                      && Set(rows[i], q[i], Pending, now, Wait(attempts, floor))
  {
    WaitMeans(attempts, floor);
    DueMeans(now, Wait(attempts, floor));
    hide Backoff, Wait, AsSigned, AddUnsigned, IsDue;
  }

  /** A burial and a completion end a row for good. */
  lemma EndingsMean(rows: seq<Job>, id: int, now: U64)
    ensures var d, c := BuryRow(rows, id, now), CompleteRow(rows, id);
            && |d| == |c| == |rows|
            && forall i :: 0 <= i < |rows| ==>
                 if rows[i].id != id then d[i] == rows[i] && c[i] == rows[i]
                 else Set(rows[i], d[i], Dead, now, 0) && c[i] == rows[i].(status := Completed, lease := None)
  {
    DueMeans(now, 0);
    assert AddUnsigned(now, 0) == now;
    hide AsSigned, IsDue;
  }

  /** An insertion appends a fresh waiting row under the next identifier, unless some
      row has its key. */
  lemma InsertionMeans(t: Table, kind: string, actor: I64, tick: I64, payload: Payload, key: string, available: I64)
    ensures var r := InsertRow(t, kind, actor, tick, payload, key, available);
            if exists i :: 0 <= i < |t.rows| && t.rows[i].dedupeKey == key then r == t
            else
              && r.nextId == t.nextId + 1 && |r.rows| == |t.rows| + 1 && r.rows[..|t.rows|] == t.rows
              && r.rows[|t.rows|] == Job(t.nextId, kind, actor, tick, Pending, 0, None, available, payload, key)
  {}

  // ------------------------------------------------------- the kind asked for

  /** What the worker has read, if it still means to write, is of this kind. */
  predicate ReadsKind(s: System, worker: nat, kind: string) {
    worker in s.picks ==> exists i :: 0 <= i < |s.table.rows| && s.table.rows[i].id == s.picks[worker].seen.id
                                      && s.table.rows[i].kind == kind
  }

  lemma ExtendingKeepsKind(s: System, t: System, worker: nat, kind: string)
    requires ReadsKind(s, worker, kind) && Extends(s.table.rows, t.table.rows)
    requires worker in t.picks ==> worker in s.picks && t.picks[worker] == s.picks[worker]
    ensures ReadsKind(t, worker, kind)
  {
    if worker in t.picks {
      var i :| 0 <= i < |s.table.rows| && s.table.rows[i].id == s.picks[worker].seen.id && s.table.rows[i].kind == kind;
      assert Succeeds(s.table.rows[i], t.table.rows[i]);
    }
  }

  lemma OthersLeaveThePick(s: System, step: Step, worker: nat)
    requires !(step.Read? && step.worker == worker)
    ensures worker in Next(s, step).picks ==> worker in s.picks && Next(s, step).picks[worker] == s.picks[worker]
  {}

  lemma {:induction false} RunKeepsKind(s: System, steps: seq<Step>, worker: nat, kind: string)
    requires ReadsKind(s, worker, kind)
    requires forall i :: 0 <= i < |steps| ==> !(steps[i].Read? && steps[i].worker == worker)
    ensures ReadsKind(Run(s, steps), worker, kind)
    decreases |steps|
  {
    hide Next, ReadsKind;
    if steps != [] {
      StepExtends(s, steps[0]);
      OthersLeaveThePick(s, steps[0], worker);
      ExtendingKeepsKind(s, Next(s, steps[0]), worker, kind);
      RunKeepsKind(Next(s, steps[0]), steps[1..], worker, kind);
    }
  }

  lemma ReadingAKind(s: System, worker: nat, now: I64, kind: string)
    ensures ReadsKind(Next(s, Read(worker, now, Some(kind))), worker, kind)
  {
    SelectedIsEligible(s.table.rows, now, Some(kind));
    hide Selected, Takes, Blocked;
  }

  /** Main result: whatever happens between a worker's read for a kind and its write,
      the write grants it a row of that kind or nothing. */
  lemma GrantsAreOfTheKindAskedFor(s: System, worker: nat, now: I64, kind: string, steps: seq<Step>)
    requires forall i :: 0 <= i < |steps| ==> !(steps[i].Read? && steps[i].worker == worker)
    ensures var t := Run(Next(s, Read(worker, now, Some(kind))), steps);
            var after := Next(t, Write(worker));
            && |t.grants| <= |after.grants| <= |t.grants| + 1 && after.grants[..|t.grants|] == t.grants
            && (|after.grants| == |t.grants| + 1 ==>
                  var g := after.grants[|t.grants|];
                  && g.worker == worker
                  && exists i :: 0 <= i < |after.table.rows| && after.table.rows[i].id == g.id && after.table.rows[i].kind == kind)
  {
    var first := Next(s, Read(worker, now, Some(kind)));
    ReadingAKind(s, worker, now, kind);
    RunKeepsKind(first, steps, worker, kind);
    WritingGrants(Run(first, steps), worker, kind);
    hide Next, Run, ReadsKind;
  }

  lemma WritingGrants(t: System, worker: nat, kind: string)
    requires ReadsKind(t, worker, kind)
    ensures var after := Next(t, Write(worker));
            && |t.grants| <= |after.grants| <= |t.grants| + 1 && after.grants[..|t.grants|] == t.grants
            && (|after.grants| == |t.grants| + 1 ==>
                  var g := after.grants[|t.grants|];
                  && g.worker == worker
                  && exists i :: 0 <= i < |after.table.rows| && after.table.rows[i].id == g.id && after.table.rows[i].kind == kind)
  {
    StepExtends(t, Write(worker));
    hide Takes, ClaimRow, DeferRow, NextAttempt;
    if worker in t.picks {
      var i :| 0 <= i < |t.table.rows| && t.table.rows[i].id == t.picks[worker].seen.id && t.table.rows[i].kind == kind;
      assert Succeeds(t.table.rows[i], Next(t, Write(worker)).table.rows[i]);
    }
  }
}
