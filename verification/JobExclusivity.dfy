/**
  Exclusivity: one unexpired lease per actor and kind.  It holds while each worker
  selects and updates in one step; with the two apart it holds exactly as long as
  no update takes a blocked row.
 */
module JobExclusivity {
  import opened Options
  import opened ActorJobs
  import opened JobLaws

  /** No two unexpired leases of one actor and kind. */
  predicate Exclusive(rows: seq<Job>, now: I64) {
    forall i, j :: 0 <= i < j < |rows| && rows[i].actor == rows[j].actor && rows[i].kind == rows[j].kind ==>
      !(LeasedAt(rows[i], now) && LeasedAt(rows[j], now))
  }

  lemma LeasesOnlyExpire(rows: seq<Job>, from: I64, until: I64)
    requires Exclusive(rows, from) && from <= until
    ensures Exclusive(rows, until)
  {}

  /** Selection and update as one step. */
  function TakeNext(s: System, worker: nat, now: I64, kind: Option<string>): System {
    Next(Next(s, Read(worker, now, kind)), Write(worker))
  }

  /** A step that neither reads nor writes for a worker keeps exclusivity. */
  lemma OtherStepsKeepExclusive(s: System, step: Step, now: I64)
    requires Exclusive(s.table.rows, now) && !step.Read? && !step.Write?
    ensures Exclusive(Next(s, step).table.rows, now)
  {
    hide Backoff, AsSigned, AddUnsigned;
    var rows, after := s.table.rows, Next(s, step).table.rows;
    forall i | 0 <= i < |rows|
      ensures after[i].actor == rows[i].actor && after[i].kind == rows[i].kind
      ensures LeasedAt(after[i], now) ==> LeasedAt(rows[i], now)
    {}
  }

  /** A claim read at `now` and written at `at` keeps exclusivity at that moment
      exactly when the row it takes is not blocked then, or its lease is over
      already. */
  lemma ClaimKeepsExclusiveIff(t: Table, seen: Job, now: I64, at: I64, k: nat)
    requires IdsDistinct(t) && Exclusive(t.rows, at)
    requires k < |t.rows| && AsRead(t.rows[k], seen, now)
    ensures Exclusive(ClaimRow(t.rows, seen, now), at)
       <==> !(Blocked(t.rows, t.rows[k], at) && SaturatingAdd(now, LEASE_MS) > at)
  {
    var rows, after := t.rows, ClaimRow(t.rows, seen, now);
    var j := rows[k];
    AsReadMeans(j, seen, now);
    forall i | 0 <= i < |rows| && i != k ensures after[i] == rows[i] && rows[i].id != j.id {
      DifferentIds(t, i, k);
    }
    assert after[k].actor == j.actor && after[k].kind == j.kind
        && (LeasedAt(after[k], at) <==> SaturatingAdd(now, LEASE_MS) > at) by {
      assert after[k] == Leasing(seen, now)(j);
    }
    hide ClaimRow, AsRead, IdsDistinct, SaturatingAdd;
    if Blocked(rows, j, at) && SaturatingAdd(now, LEASE_MS) > at {
      var i :| 0 <= i < |rows| && rows[i].actor == j.actor && rows[i].kind == j.kind && rows[i].id != j.id
               && LeasedAt(rows[i], at);
      assert i != k && after[i] == rows[i];
      TwoLeases(after, i, k, at);
    } else {
      forall a, b | 0 <= a < b < |after| && after[a].actor == after[b].actor && after[a].kind == after[b].kind
        ensures !(LeasedAt(after[a], at) && LeasedAt(after[b], at))
      {
        if a == k {
          assert rows[b].id != j.id;
        } else if b == k {
          assert rows[a].id != j.id;
        }
      }
    }
  }

  lemma TwoLeases(rows: seq<Job>, i: nat, k: nat, at: I64)
    requires i < |rows| && k < |rows| && i != k && rows[i].actor == rows[k].actor && rows[i].kind == rows[k].kind
    requires LeasedAt(rows[i], at) && LeasedAt(rows[k], at)
    ensures !Exclusive(rows, at)
  {
    var a, b := if i < k then i else k, if i < k then k else i;
    assert LeasedAt(rows[a], at) && LeasedAt(rows[b], at);
  }

  lemma TakingKeepsExclusive(s: System, worker: nat, now: I64, kind: Option<string>)
    requires IdsDistinct(s.table) && Exclusive(s.table.rows, now)
    ensures Exclusive(TakeNext(s, worker, now, kind).table.rows, now)
  {
    var rows, seen := s.table.rows, Selected(s.table.rows, now, kind);
    SelectedIsEligible(rows, now, kind);
    hide Selected, Exclusive;
    if seen.Some? {
      var k :| 0 <= k < |rows| && rows[k] == seen.value;
      assert AsRead(rows[k], seen.value, now);
      if seen.value.payload.readable {
        ClaimKeepsExclusiveIff(s.table, seen.value, now, now, k);
      } else {
        DeferringKeepsExclusive(rows, seen.value, now, now);
      }
    }
  }

  lemma DeferringKeepsExclusive(rows: seq<Job>, seen: Job, now: I64, at: I64)
    requires Exclusive(rows, at)
    ensures Exclusive(DeferRow(rows, seen, now), at)
  {
    var after := DeferRow(rows, seen, now);
    hide AsRead, SaturatingAdd;
    forall i | 0 <= i < |rows|
      ensures after[i].actor == rows[i].actor && after[i].kind == rows[i].kind
      ensures LeasedAt(after[i], at) ==> LeasedAt(rows[i], at)
    {}
  }

  datatype Move = Take(worker: nat, now: I64, kind: Option<string>) | Other(step: Step)

  function Moved(s: System, m: Move): System {
    match m
    case Take(worker, now, kind) => TakeNext(s, worker, now, kind)
    case Other(step) => Next(s, step)
  }

  function Clock(at: I64, m: Move): I64 {
    if m.Take? then m.now else at
  }

  /** Claims are single steps, and the time they are made at never goes back. */
  predicate Orderly(at: I64, moves: seq<Move>)
    decreases |moves|
  {
    moves != [] ==>
      && at <= Clock(at, moves[0]) && (moves[0].Other? ==> !moves[0].step.Read? && !moves[0].step.Write?)
      && Orderly(Clock(at, moves[0]), moves[1..])
  }

  function MoveAll(s: System, moves: seq<Move>): System
    decreases |moves|
  {
    if moves == [] then s else MoveAll(Moved(s, moves[0]), moves[1..])
  }

  function ClockAfter(at: I64, moves: seq<Move>): I64
    decreases |moves|
  {
    if moves == [] then at else ClockAfter(Clock(at, moves[0]), moves[1..])
  }

  /** Main result: while each worker selects and updates in one step, no actor ever
      has two unexpired leases of one kind. */
  lemma {:induction false} ClaimsAreExclusive(s: System, at: I64, moves: seq<Move>)
    requires Sound(s) && Exclusive(s.table.rows, at) && Orderly(at, moves)
    ensures Exclusive(MoveAll(s, moves).table.rows, ClockAfter(at, moves))
    decreases |moves|
  {
    if moves != [] {
      var m, now := moves[0], Clock(at, moves[0]);
      LeasesOnlyExpire(s.table.rows, at, now);
      hide Exclusive, Next, Recorded, Fenced, KeysDistinct;
      if m.Take? {
        TakingKeepsExclusive(s, m.worker, m.now, m.kind);
        StepKeepsSound(s, Read(m.worker, m.now, m.kind));
        StepKeepsSound(Next(s, Read(m.worker, m.now, m.kind)), Write(m.worker));
      } else {
        OtherStepsKeepExclusive(s, m.step, now);
        StepKeepsSound(s, m.step);
      }
      hide Sound;
      ClaimsAreExclusive(Moved(s, m), now, moves[1..]);
    }
  }

  // ------------------------------------------------------- interleaved halves

  /** A step and the moment it is made at. */
  datatype Timed = Timed(step: Step, at: I64)

  /** The step takes a row that is blocked at that moment, for a lease not over yet. */
  predicate TakesBlocked(s: System, step: Step, at: I64) {
    && step.Write? && step.worker in s.picks && s.picks[step.worker].seen.payload.readable
    && SaturatingAdd(s.picks[step.worker].now, LEASE_MS) > at
    && exists k :: 0 <= k < |s.table.rows| && AsRead(s.table.rows[k], s.picks[step.worker].seen, s.picks[step.worker].now)
                   && Blocked(s.table.rows, s.table.rows[k], at)
  }

  lemma WriteKeepsExclusiveIff(s: System, worker: nat, at: I64)
    requires IdsDistinct(s.table) && Exclusive(s.table.rows, at) && worker in s.picks
    ensures Exclusive(Written(s, worker), at) <==> !TakesBlocked(s, Write(worker), at)
  {
    var p, rows := s.picks[worker], s.table.rows;
    if !p.seen.payload.readable {
      hide Exclusive, Blocked, AsRead;
      DeferringKeepsExclusive(rows, p.seen, p.now, at);
    } else if k :| 0 <= k < |rows| && AsRead(rows[k], p.seen, p.now) {
      AsReadMeans(rows[k], p.seen, p.now);
      forall i | 0 <= i < |rows| && AsRead(rows[i], p.seen, p.now) ensures i == k {
        AsReadMeans(rows[i], p.seen, p.now);
        SameIdSameRow(s.table, i, k);
      }
      hide Exclusive, Blocked, AsRead, IdsDistinct, SaturatingAdd, ClaimRow;
      ClaimKeepsExclusiveIff(s.table, p.seen, p.now, at, k);
    } else {
      assert Written(s, worker) == rows;
    }
  }

  lemma StepKeepsExclusiveIff(s: System, step: Step, at: I64)
    requires IdsDistinct(s.table) && Exclusive(s.table.rows, at)
    ensures Exclusive(Next(s, step).table.rows, at) <==> !TakesBlocked(s, step, at)
  {
    hide Exclusive, Blocked, AsRead, IdsDistinct, Written, Selected;
    if step.Write? {
      if step.worker in s.picks {
        WriteKeepsExclusiveIff(s, step.worker, at);
      }
    } else if !step.Read? {
      OtherStepsKeepExclusive(s, step, at);
    }
  }

  predicate ClockForward(at: I64, steps: seq<Timed>)
    decreases |steps|
  {
    steps != [] ==> at <= steps[0].at && ClockForward(steps[0].at, steps[1..])
  }

  /** After every step no actor has two leases of one kind unexpired at its moment. */
  predicate ExclusiveThroughout(s: System, steps: seq<Timed>)
    decreases |steps|
  {
    steps != [] ==>
      && Exclusive(Next(s, steps[0].step).table.rows, steps[0].at)
      && ExclusiveThroughout(Next(s, steps[0].step), steps[1..])
  }

  predicate NeverTakesBlocked(s: System, steps: seq<Timed>)
    decreases |steps|
  {
    steps != [] ==> !TakesBlocked(s, steps[0].step, steps[0].at) && NeverTakesBlocked(Next(s, steps[0].step), steps[1..])
  }

  /** Main result: over any interleaving whose clock does not go back, exclusivity
      holds throughout if and only if every row taken was unblocked at the moment
      it was taken, or its lease was over by then. */
  lemma {:induction false} ExclusiveIffNeverBlocked(s: System, at: I64, steps: seq<Timed>)
    requires Sound(s) && Exclusive(s.table.rows, at) && ClockForward(at, steps)
    ensures ExclusiveThroughout(s, steps) <==> NeverTakesBlocked(s, steps)
    decreases |steps|
  {
    if steps != [] {
      var step, now := steps[0].step, steps[0].at;
      LeasesOnlyExpire(s.table.rows, at, now);
      hide Exclusive, Next, TakesBlocked, Recorded, Fenced, KeysDistinct;
      StepKeepsExclusiveIff(s, step, now);
      StepKeepsSound(s, step);
      hide Sound;
      if Exclusive(Next(s, step).table.rows, now) {
        ExclusiveIffNeverBlocked(Next(s, step), now, steps[1..]);
      }
    }
  }

  // --------------------------------------------------------- a concrete run

  /** Two jobs of one actor; the sooner one becomes available ten milliseconds later. */
  function TwoJobs(): seq<Job> {
    [Job(1, "orb_chat", 7, 0, Pending, 0, None, 10, Payload("{}", true), "a"),
     Job(2, "orb_chat", 7, 1, Pending, 0, None, 0, Payload("{}", true), "b")]
  }

  function InsertBoth(): seq<Step> {
    [Insert("orb_chat", 7, 0, Payload("{}", true), "a", 10), Insert("orb_chat", 7, 1, Payload("{}", true), "b", 0)]
  }

  lemma InsertBothReaches()
    ensures Run(Start(), InsertBoth()) == System(Table(TwoJobs(), 3), map[], [])
  {
    assert InsertBoth() == [InsertBoth()[0]] + [InsertBoth()[1]];
    RunJoins(Start(), [InsertBoth()[0]], [InsertBoth()[1]]);
    RunOfOne(Start(), InsertBoth()[0]);
    RunOfOne(Next(Start(), InsertBoth()[0]), InsertBoth()[1]);
  }

  lemma TwoJobsMean()
    ensures var rows := TwoJobs();
            && |rows| == 2 && rows[0].actor == rows[1].actor && rows[0].kind == rows[1].kind && rows[0].id != rows[1].id
            && Claimable(rows[0], 10) && Claimable(rows[1], 0) && rows[0].payload.readable && rows[1].payload.readable
            && Selected(rows, 0, None) == Some(rows[1]) && Selected(rows, 10, None) == Some(rows[0])
  {
    var rows := TwoJobs();
    hide Selected;
    assert rows[0].id != rows[1].id && Sooner(rows[0], rows[1]) && !Claimable(rows[0], 0);
    assert Claimable(rows[0], 10) && Claimable(rows[1], 0);
    assert !Blocked(rows, rows[0], 10) && !Blocked(rows, rows[1], 0);
    hide Blocked, Claimable, Sooner;
    SelectsOne(rows, 0, 1);
    SelectsOne(rows, 10, 0);
  }

  lemma SoundMeans(s: System)
    requires Sound(s)
    ensures IdsDistinct(s.table)
  {}

  /** Both workers read before either writes. */
  lemma InterleavedClaims(s: System)
    requires s == System(Table(TwoJobs(), 3), map[], []) && Sound(s)
    ensures var end := Next(Next(Next(Next(s, Read(1, 0, None)), Read(2, 10, None)), Write(1)), Write(2));
            |end.grants| == 2 && !Exclusive(end.table.rows, 10)
  {
    hide Next, Selected, Sound, Claimable, NextAttempt, TwoJobs;
    TwoJobsMean();
    var rows := TwoJobs();
    SoundMeans(s);
    ReadPicks(s, 1, 0, 1);
    var s1 := Next(s, Read(1, 0, None));
    ReadPicks(s1, 2, 10, 0);
    var s2 := Next(s1, Read(2, 10, None));
    WriteTakes(s2, 1, 1, rows[1], 0);
    var s3 := Next(s2, Write(1));
    assert IdsDistinct(s3.table) by {
      StepKeepsSound(s, Read(1, 0, None));
      StepKeepsSound(s1, Read(2, 10, None));
      StepKeepsSound(s2, Write(1));
      SoundMeans(s3);
    }
    hide IdsDistinct;
    WriteTakes(s3, 2, 0, rows[0], 10);
    var after := Next(s3, Write(2)).table.rows;
    assert after == rows[1 := Leasing(rows[1], 0)(rows[1])][0 := Leasing(rows[0], 10)(rows[0])];
    TwoLeases(after, 0, 1, 10);
  }

  /** A run from an empty table in which two workers get unexpired leases of one
      actor and kind: neither row was leased when either was read. */
  lemma InterleavingBreaksExclusivity()
    ensures var end := Run(Start(), InsertBoth() + [Read(1, 0, None), Read(2, 10, None)] + [Write(1), Write(2)]);
            |end.grants| == 2 && !Exclusive(end.table.rows, 10)
  {
    InsertBothReaches();
    RunKeepsSound(Start(), InsertBoth());
    var s := Run(Start(), InsertBoth());
    var looks, writes := [Read(1, 0, None)] + [Read(2, 10, None)], [Write(1)] + [Write(2)];
    assert [Read(1, 0, None), Read(2, 10, None)] == looks && [Write(1), Write(2)] == writes;
    RunJoins(Start(), InsertBoth() + looks, writes);
    RunJoins(Start(), InsertBoth(), looks);
    RunOfTwo(s, Read(1, 0, None), Read(2, 10, None));
    RunOfTwo(Run(s, looks), Write(1), Write(2));
    hide Run, Next, InsertBoth, TwoJobs, Exclusive, Sound;
    InterleavedClaims(s);
  }
}
