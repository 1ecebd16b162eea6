/**
  How long a lease, a completion or a death is respected: exactly until a write
  by identifier alone returns the row to the queue, and such a write really can
  have the job granted twice.
 */
module JobLeases {
  import opened Options
  import opened ActorJobs
  import opened JobLaws

  /** A write that returns the row to the queue without looking at it. */
  predicate Releases(step: Step, id: int) {
    match step
    case Fail(i, attempts, _, _) => i == id && attempts < MAX_ATTEMPTS
    case Requeue(i, _, _, _) => i == id
    case _ => false
  }

  /** When the released row becomes available again. */
  function ReleaseTime(step: Step): I64
    requires step.Fail? || step.Requeue?
  {
    AsSigned(AddUnsigned(step.at, Backoff(step.attempts, step.floor)))
  }

  /** The step is a worker's update that finds this row as it was read. */
  predicate TakesRow(s: System, step: Step, j: Job) {
    step.Write? && step.worker in s.picks && AsRead(j, s.picks[step.worker].seen, s.picks[step.worker].now)
  }

  /** Main result, for one step: a row that cannot be claimed at some time becomes
      claimable at that time, other than by a worker's own update of it, if and
      only if the step releases it for that time. */
  lemma ClaimableAgainIff(s: System, step: Step, k: nat, now: I64)
    requires k < |s.table.rows| && !Claimable(s.table.rows[k], now) && !TakesRow(s, step, s.table.rows[k])
    ensures k < |Next(s, step).table.rows|
    ensures Claimable(Next(s, step).table.rows[k], now)
       <==> Releases(step, s.table.rows[k].id) && ReleaseTime(step) <= now
  {
    hide Selected, Backoff, AsSigned, AddUnsigned, SaturatingAdd, NextAttempt, Takes;
  }

  // ---------------------------------------------------------------- horizons

  /** Times up to a horizon, or all of them. */
  predicate Before(now: I64, until: Option<I64>) {
    until.None? || now < until.value
  }

  /** No worker can claim the row before the horizon. */
  ghost predicate BarredUntil(j: Job, until: Option<I64>) {
    forall now: I64 {:trigger Claimable(j, now)} :: Before(now, until) ==> !Claimable(j, now)
  }

  /** A lease bars the row while it lasts, completion and death for ever. */
  function Horizon(j: Job): Option<I64> {
    if j.status == Running then j.lease else None
  }

  lemma AtRestMeansBarred(j: Job)
    requires j.status == Completed || j.status == Dead || (j.status == Running && j.lease.Some?)
    ensures BarredUntil(j, Horizon(j))
  {}

  /** A release that takes effect before the horizon. */
  predicate Opens(step: Step, id: int, until: Option<I64>) {
    Releases(step, id) && Before(ReleaseTime(step), until)
  }

  lemma BarredMeansNotTaken(s: System, step: Step, k: nat, until: Option<I64>)
    requires k < |s.table.rows| && BarredUntil(s.table.rows[k], until)
    requires step.Write? && step.worker in s.picks ==> Before(s.picks[step.worker].now, until)
    ensures !TakesRow(s, step, s.table.rows[k])
  {
    if step.Write? && step.worker in s.picks {
      assert !Claimable(s.table.rows[k], s.picks[step.worker].now);
    }
  }

  /** A barred row stays barred through a step exactly when the step does not open it. */
  lemma StaysBarredIff(s: System, step: Step, k: nat, until: Option<I64>)
    requires k < |s.table.rows| && BarredUntil(s.table.rows[k], until)
    requires step.Write? && step.worker in s.picks ==> Before(s.picks[step.worker].now, until)
    ensures k < |Next(s, step).table.rows|
    ensures BarredUntil(Next(s, step).table.rows[k], until) <==> !Opens(step, s.table.rows[k].id, until)
  {
    StepExtends(s, step);
    BarredMeansNotTaken(s, step, k, until);
    var j, after := s.table.rows[k], Next(s, step).table.rows[k];
    hide Next, TakesRow, Releases, ReleaseTime, Extends, Succeeds;
    forall now: I64 | Before(now, until)
      ensures Claimable(after, now) <==> Releases(step, j.id) && ReleaseTime(step) <= now
    {
      assert !Claimable(j, now);
      ClaimableAgainIff(s, step, k, now);
    }
    hide Claimable;
    if Opens(step, j.id, until) {
      assert Claimable(after, ReleaseTime(step));
    }
  }

  lemma NotTakenMeansNotGranted(s: System, step: Step, k: nat)
    requires IdsDistinct(s.table) && k < |s.table.rows| && !TakesRow(s, step, s.table.rows[k])
    ensures GrantsOf(Next(s, step).grants, s.table.rows[k].id) == GrantsOf(s.grants, s.table.rows[k].id)
  {
    var rows, id := s.table.rows, s.table.rows[k].id;
    if step.Write? && step.worker in s.picks {
      var p := s.picks[step.worker];
      if p.seen.id == id {
        forall i | 0 <= i < |rows| ensures !AsRead(rows[i], p.seen, p.now) {
          if i != k {
            DifferentIds(s.table, i, k);
          }
        }
        hide AsRead;
        assert Granting(s, step.worker) == [];
      }
      hide Written;
      OneGrantAtMost(s, step.worker);
      OtherGrants(s.grants, Granting(s, step.worker), id);
    } else {
      OnlyWritesGrant(s, step);
    }
  }

  lemma UnnamedIsUnchanged(s: System, step: Step, k: nat)
    requires k < |s.table.rows| && !TakesRow(s, step, s.table.rows[k]) && !NamesRow(step, s.table.rows[k].id)
    ensures k < |Next(s, step).table.rows| && Next(s, step).table.rows[k] == s.table.rows[k]
  {
    hide Selected, Backoff, AsSigned, AddUnsigned, SaturatingAdd, NextAttempt, Takes, Claimable;
  }

  // -------------------------------------------------------------------- runs

  /** A write by identifier alone, releasing or not. */
  predicate NamesRow(step: Step, id: int) {
    (step.Fail? || step.Requeue? || step.Bury? || step.Complete?) && step.id == id
  }

  predicate Unnamed(steps: seq<Step>, id: int) {
    forall i :: 0 <= i < |steps| ==> !NamesRow(steps[i], id)
  }

  predicate NeverOpened(steps: seq<Step>, id: int, until: Option<I64>) {
    forall i :: 0 <= i < |steps| ==> !Opens(steps[i], id, until)
  }

  /** Every worker that writes does so with a time before the horizon. */
  predicate WritesWithin(s: System, steps: seq<Step>, until: Option<I64>)
    decreases |steps|
  {
    steps != [] ==>
      && (steps[0].Write? && steps[0].worker in s.picks ==> Before(s.picks[steps[0].worker].now, until))
      && WritesWithin(Next(s, steps[0]), steps[1..], until)
  }

  lemma {:induction false} EverythingIsWithinNoHorizon(s: System, steps: seq<Step>)
    ensures WritesWithin(s, steps, None)
    decreases |steps|
  {
    hide Next;
    if steps != [] {
      EverythingIsWithinNoHorizon(Next(s, steps[0]), steps[1..]);
    }
  }

  /** The row is barred at the start and after every step. */
  ghost predicate BarredThroughout(s: System, steps: seq<Step>, k: nat, until: Option<I64>)
    decreases |steps|
  {
    && k < |s.table.rows| && BarredUntil(s.table.rows[k], until)
    && (steps != [] ==> BarredThroughout(Next(s, steps[0]), steps[1..], k, until))
  }

  lemma NeverOpenedSplits(steps: seq<Step>, id: int, until: Option<I64>)
    requires steps != []
    ensures NeverOpened(steps, id, until) <==> !Opens(steps[0], id, until) && NeverOpened(steps[1..], id, until)
  {
    hide Opens;
    if !Opens(steps[0], id, until) && NeverOpened(steps[1..], id, until) {
      forall i | 0 <= i < |steps| ensures !Opens(steps[i], id, until) {
        if i > 0 {
          assert steps[i] == steps[1..][i - 1];
        }
      }
    }
    if NeverOpened(steps, id, until) {
      forall i | 0 <= i < |steps[1..]| ensures !Opens(steps[1..][i], id, until) {
        assert steps[1..][i] == steps[i + 1];
      }
    }
  }

  /** Over a run, a barred row stays barred throughout if and only if no step opens it. */
  lemma {:induction false} BarredThroughoutIff(s: System, steps: seq<Step>, k: nat, until: Option<I64>)
    requires k < |s.table.rows| && BarredUntil(s.table.rows[k], until) && WritesWithin(s, steps, until)
    ensures BarredThroughout(s, steps, k, until) <==> NeverOpened(steps, s.table.rows[k].id, until)
    decreases |steps|
  {
    hide Next, BarredUntil, Opens;
    if steps != [] {
      var id, next := s.table.rows[k].id, Next(s, steps[0]);
      NeverOpenedSplits(steps, id, until);
      hide NeverOpened;
      StaysBarredIff(s, steps[0], k, until);
      StepExtends(s, steps[0]);
      assert Succeeds(s.table.rows[k], next.table.rows[k]);
      if BarredUntil(next.table.rows[k], until) {
        BarredThroughoutIff(next, steps[1..], k, until);
      }
    }
  }

  /** While it is barred the job is not granted; and unless it is named its row is
      not touched at all. */
  lemma {:induction false} BarredMeansNotGranted(s: System, steps: seq<Step>, k: nat, until: Option<I64>)
    requires Sound(s) && BarredThroughout(s, steps, k, until) && WritesWithin(s, steps, until)
    ensures var end, id := Run(s, steps), s.table.rows[k].id;
            && k < |end.table.rows| && end.table.rows[k].id == id
            && GrantsOf(end.grants, id) == GrantsOf(s.grants, id)
            && (Unnamed(steps, id) ==> end.table.rows[k] == s.table.rows[k])
    decreases |steps|
  {
    hide Next, BarredUntil, GrantsOf, NamesRow, TakesRow;
    if steps != [] {
      var id, next, rest := s.table.rows[k].id, Next(s, steps[0]), steps[1..];
      BarredMeansNotTaken(s, steps[0], k, until);
      NotTakenMeansNotGranted(s, steps[0], k);
      if !NamesRow(steps[0], id) {
        UnnamedIsUnchanged(s, steps[0], k);
      }
      StepExtends(s, steps[0]);
      assert Succeeds(s.table.rows[k], next.table.rows[k]);
      StepKeepsSound(s, steps[0]);
      hide Sound;
      assert forall i :: 0 <= i < |rest| ==> rest[i] == steps[i + 1];
      BarredMeansNotGranted(next, rest, k, until);
    }
  }

  /** Main result: a lease is respected, until its time is up, if and only if no
      write by identifier returns the row to the queue for an earlier time; and
      while it is respected nobody is granted the job. */
  lemma LeaseIsRespectedIff(s: System, steps: seq<Step>, k: nat)
    requires Sound(s) && k < |s.table.rows| && s.table.rows[k].status == Running && s.table.rows[k].lease.Some?
    requires WritesWithin(s, steps, s.table.rows[k].lease)
    ensures var j, end := s.table.rows[k], Run(s, steps);
            && (BarredThroughout(s, steps, k, j.lease) <==> NeverOpened(steps, j.id, j.lease))
            && (NeverOpened(steps, j.id, j.lease) ==> GrantsOf(end.grants, j.id) == GrantsOf(s.grants, j.id))
            && (Unnamed(steps, j.id) ==> k < |end.table.rows| && end.table.rows[k] == j)
  {
    var j := s.table.rows[k];
    AtRestMeansBarred(j);
    hide BarredUntil, Next, Opens;
    BarredThroughoutIff(s, steps, k, j.lease);
    if Unnamed(steps, j.id) {
      UnnamedIsNeverOpened(steps, j.id, j.lease);
    }
    hide NeverOpened, Unnamed;
    if BarredThroughout(s, steps, k, j.lease) {
      BarredMeansNotGranted(s, steps, k, j.lease);
    }
  }

  lemma UnnamedIsNeverOpened(steps: seq<Step>, id: int, until: Option<I64>)
    requires Unnamed(steps, id)
    ensures NeverOpened(steps, id, until)
  {}

  /** Main result: a completed or dead job can never be claimed again if and only if
      no write by identifier returns it to the queue; and then it is never granted. */
  lemma TerminalRowsStayIff(s: System, steps: seq<Step>, k: nat)
    requires Sound(s) && k < |s.table.rows|
    requires s.table.rows[k].status == Completed || s.table.rows[k].status == Dead
    ensures var j, end := s.table.rows[k], Run(s, steps);
            && (BarredThroughout(s, steps, k, None) <==> NeverOpened(steps, j.id, None))
            && (NeverOpened(steps, j.id, None) ==> GrantsOf(end.grants, j.id) == GrantsOf(s.grants, j.id))
            && (Unnamed(steps, j.id) ==> k < |end.table.rows| && end.table.rows[k] == j)
  {
    var j := s.table.rows[k];
    AtRestMeansBarred(j);
    hide BarredUntil, Next, Opens;
    EverythingIsWithinNoHorizon(s, steps);
    BarredThroughoutIff(s, steps, k, None);
    if Unnamed(steps, j.id) {
      UnnamedIsNeverOpened(steps, j.id, None);
    }
    hide NeverOpened, Unnamed;
    if BarredThroughout(s, steps, k, None) {
      BarredMeansNotGranted(s, steps, k, None);
    }
  }

  // ------------------------------------------------------ granted once more

  lemma GrantsOfOneMore(grants: seq<Grant>, g: Grant)
    ensures GrantsOf(grants + [g], g.id) == GrantsOf(grants, g.id) + [g]
  {
    assert (grants + [g])[..|grants|] == grants;
  }

  /** A worker that reads and then writes undisturbed is granted the job if and only
      if its row is the one selected and can be read back. */
  lemma GrantedIffSelected(s: System, worker: nat, now: I64, kind: Option<string>, k: nat)
    requires IdsDistinct(s.table) && k < |s.table.rows|
    ensures var j, after := s.table.rows[k], Next(Next(s, Read(worker, now, kind)), Write(worker));
            (GrantsOf(after.grants, j.id) == GrantsOf(s.grants, j.id) + [Grant(worker, j.id, NextAttempt(j.attempts))]
             <==> Selected(s.table.rows, now, kind) == Some(j) && j.payload.readable)
  {
    var rows, j := s.table.rows, s.table.rows[k];
    var read := Next(s, Read(worker, now, kind));
    SelectedIsEligible(rows, now, kind);
    hide Selected, Written, NextAttempt;
    if Selected(rows, now, kind).Some? {
      var seen := Selected(rows, now, kind).value;
      var i :| 0 <= i < |rows| && rows[i] == seen;
      if i != k {
        DifferentIds(s.table, i, k);
        OneGrantAtMost(read, worker);
        OtherGrants(s.grants, Granting(read, worker), j.id);
      } else if seen.payload.readable {
        assert Granting(read, worker) == [Grant(worker, j.id, NextAttempt(j.attempts))];
        GrantsOfOneMore(s.grants, Grant(worker, j.id, NextAttempt(j.attempts)));
      } else {
        assert s.grants + Granting(read, worker) == s.grants;
      }
    }
  }

  /** Main result: a release can have any job granted once more.  Once the release
      takes effect, a worker that then finds the row unblocked and no other
      claimable one sooner is granted it, whatever was granted before. */
  lemma ReleaseLeadsToGrant(s: System, step: Step, k: nat, worker: nat, now: I64)
    requires Sound(s) && k < |s.table.rows| && s.table.rows[k].payload.readable
    requires Releases(step, s.table.rows[k].id) && ReleaseTime(step) <= now
    requires !Blocked(Next(s, step).table.rows, Next(s, step).table.rows[k], now)
    requires var rows := Next(s, step).table.rows;
             forall i :: 0 <= i < |rows| && i != k ==> !Claimable(rows[i], now) || Sooner(rows[k], rows[i])
    ensures var j, end := s.table.rows[k], Run(s, [step, Read(worker, now, None), Write(worker)]);
            GrantsOf(end.grants, j.id) == GrantsOf(s.grants, j.id) + [Grant(worker, j.id, NextAttempt(j.attempts))]
  {
    var released := Next(s, step);
    ReleasedRow(s, step, k);
    StepKeepsSound(s, step);
    hide Next, Blocked, Selected, NextAttempt, Releases, Claimable;
    SelectsOne(released.table.rows, now, k);
    GrantedIffSelected(released, worker, now, None, k);
    RunOfThree(s, step, Read(worker, now, None), Write(worker));
    hide Run, Sound;
  }

  lemma ReleasedRow(s: System, step: Step, k: nat)
    requires k < |s.table.rows| && Releases(step, s.table.rows[k].id)
    ensures var j, rows := s.table.rows[k], Next(s, step).table.rows;
            k < |rows| && rows[k] == j.(status := Pending, lease := None, available := ReleaseTime(step))
    ensures Next(s, step).grants == s.grants
    ensures forall now: I64 :: Claimable(Next(s, step).table.rows[k], now) <==> ReleaseTime(step) <= now
  {
    hide Backoff, AsSigned, AddUnsigned;
  }

  // ----------------------------------------------------------- concrete runs

  /** Two workers in turn: the second is granted the job when the first's lease
      has run out at 120250, and holds it until 240250. */
  function Handover(): seq<Step> {
    [Insert("orb_chat", 7, 0, Payload("{}", true), "a", 250)] + ClaimSteps(1, 250) + ClaimSteps(2, 120_250)
  }

  /** The first worker's late report of its first attempt. */
  const LATE_FAILURE := Fail(1, 1, 130_000, 0)

  function HandedOver(): Job {
    Worn(2).(status := Running, lease := Some(240_250))
  }

  lemma FirstClaim()
    ensures Run(Single(Worn(0), []), ClaimSteps(1, 250))
         == Single(Worn(1).(status := Running, lease := Some(120_250)), [Grant(1, 1, 1)])
  {
    SingleClaim(Worn(0), [], 1, 250);
    hide Run, ClaimSteps;
  }

  lemma SecondClaim()
    ensures Run(Single(Worn(1).(status := Running, lease := Some(120_250)), [Grant(1, 1, 1)]), ClaimSteps(2, 120_250))
         == Single(HandedOver(), [Grant(1, 1, 1), Grant(2, 1, 2)])
  {
    SingleClaim(Worn(1).(status := Running, lease := Some(120_250)), [Grant(1, 1, 1)], 2, 120_250);
    hide Run, ClaimSteps;
    assert [Grant(1, 1, 1)] + [Grant(2, 1, 2)] == [Grant(1, 1, 1), Grant(2, 1, 2)];
  }

  lemma HandoverReaches()
    ensures Run(Start(), Handover()) == Single(HandedOver(), [Grant(1, 1, 1), Grant(2, 1, 2)])
  {
    assert Handover() == WearingDown(0) + ClaimSteps(1, 250) + ClaimSteps(2, 120_250);
    hide Run, ClaimSteps, Start, WearingDown, Handover, Worn, Single, HandedOver;
    RunJoins(Start(), WearingDown(0) + ClaimSteps(1, 250), ClaimSteps(2, 120_250));
    RunJoins(Start(), WearingDown(0), ClaimSteps(1, 250));
    WearingDownReaches(0);
    assert WornGrants(0) == [];
    FirstClaim();
    SecondClaim();
  }

  lemma LateFailureThenClaim(j: Job, grants: seq<Grant>)
    requires j.id == 1 && j.payload.readable && j.attempts == 2
    ensures Run(Run(Single(j, grants), [LATE_FAILURE]), ClaimSteps(3, 130_250)).grants == grants + [Grant(3, 1, 3)]
  {
    assert Backoff(1, 0) == 250 by { assert PowerOfTwo(0) == 1; }
    SingleWrite(j, grants, LATE_FAILURE);
    var released := j.(status := Pending, lease := None, available := 130_250);
    SingleClaim(released, grants, 3, 130_250);
    hide Run, ClaimSteps;
  }

  /** A concrete run from an empty table: worker 2 holds the job until 240250, the
      late report releases it, and worker 3 is granted it at 130250. */
  lemma GrantedUnderALease()
    ensures LeasedAt(HandedOver(), 130_250) && Run(Start(), Handover()).table.rows == [HandedOver()]
    ensures Run(Start(), Handover() + [LATE_FAILURE] + ClaimSteps(3, 130_250)).grants
         == [Grant(1, 1, 1), Grant(2, 1, 2), Grant(3, 1, 3)]
  {
    HandoverReaches();
    RunJoins(Start(), Handover() + [LATE_FAILURE], ClaimSteps(3, 130_250));
    RunJoins(Start(), Handover(), [LATE_FAILURE]);
    hide Run, ClaimSteps, Start, Handover;
    LateFailureThenClaim(HandedOver(), [Grant(1, 1, 1), Grant(2, 1, 2)]);
    assert [Grant(1, 1, 1), Grant(2, 1, 2)] + [Grant(3, 1, 3)] == [Grant(1, 1, 1), Grant(2, 1, 2), Grant(3, 1, 3)];
  }

  /** And one in which worker 2 has completed the job before. */
  lemma GrantedAfterCompletion()
    ensures var done := Run(Start(), Handover() + [Complete(1)]);
            && |done.table.rows| == 1 && done.table.rows[0].status == Completed
    ensures Run(Start(), Handover() + [Complete(1)] + [LATE_FAILURE] + ClaimSteps(3, 130_250)).grants
         == [Grant(1, 1, 1), Grant(2, 1, 2), Grant(3, 1, 3)]
  {
    HandoverReaches();
    RunJoins(Start(), Handover() + [Complete(1)] + [LATE_FAILURE], ClaimSteps(3, 130_250));
    RunJoins(Start(), Handover() + [Complete(1)], [LATE_FAILURE]);
    RunJoins(Start(), Handover(), [Complete(1)]);
    hide Run, ClaimSteps, Start, Handover;
    var grants := [Grant(1, 1, 1), Grant(2, 1, 2)];
    SingleWrite(HandedOver(), grants, Complete(1));
    LateFailureThenClaim(HandedOver().(status := Completed, lease := None), grants);
    assert grants + [Grant(3, 1, 3)] == [Grant(1, 1, 1), Grant(2, 1, 2), Grant(3, 1, 3)];
  }
}
