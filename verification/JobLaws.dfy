/**
  The job protocol as a state machine.  Any number of workers read and write in
  any order; between a worker's read and its write anything may happen, and
  failure, requeue, completion and burial name a row without looking at it.  No
  two grants of a job share an attempt number while numbers last.
 */
module JobLaws {
  import opened Options
  import opened Sequences
  import opened ActorJobs

  /** What a worker read, and the time it read at; its write uses both. */
  datatype Pick = Pick(seen: Job, now: I64)

  datatype Grant = Grant(worker: nat, id: int, attempt: I64)

  datatype System = System(table: Table, picks: map<nat, Pick>, grants: seq<Grant>)

  datatype Step =
    | Read(worker: nat, now: I64, kind: Option<string>)
    | Write(worker: nat)
    | Insert(jobKind: string, actor: I64, tick: I64, payload: Payload, key: string, available: I64)
    | Fail(id: int, attempts: U32, at: U64, floor: U64)
    | Requeue(id: int, attempts: U32, at: U64, floor: U64)
    | Bury(id: int, at: U64)
    | Complete(id: int)

  function Granting(s: System, worker: nat): seq<Grant>
    requires worker in s.picks
  {
    var p := s.picks[worker];
    if p.seen.payload.readable && Takes(s.table.rows, p.seen, p.now)
    then [Grant(worker, p.seen.id, NextAttempt(p.seen.attempts))] else []
  }

  function Written(s: System, worker: nat): seq<Job>
    requires worker in s.picks
  {
    var p := s.picks[worker];
    if p.seen.payload.readable then ClaimRow(s.table.rows, p.seen, p.now) else DeferRow(s.table.rows, p.seen, p.now)
  }

  function WithRows(s: System, rows: seq<Job>): System {
    s.(table := s.table.(rows := rows))
  }

  function Next(s: System, step: Step): System {
    var rows := s.table.rows;
    match step
    case Read(worker, now, kind) =>
      var seen := Selected(rows, now, kind);
      s.(picks := if seen.None? then s.picks - {worker} else s.picks[worker := Pick(seen.value, now)])
    case Write(worker) =>
      if worker !in s.picks then s
      else System(s.table.(rows := Written(s, worker)), s.picks - {worker}, s.grants + Granting(s, worker))
    case Insert(kind, actor, tick, payload, key, available) =>
      s.(table := InsertRow(s.table, kind, actor, tick, payload, key, available))
    case Fail(id, attempts, at, floor) => WithRows(s, FailRow(rows, id, attempts, at, floor))
    case Requeue(id, attempts, at, floor) => WithRows(s, RequeueRow(rows, id, attempts, at, floor))
    case Bury(id, at) => WithRows(s, BuryRow(rows, id, at))
    case Complete(id) => WithRows(s, CompleteRow(rows, id))
  }

  function Run(s: System, steps: seq<Step>): System
    decreases |steps|
  {
    if steps == [] then s else Run(Next(s, steps[0]), steps[1..])
  }

  lemma {:induction false} RunJoins(s: System, first: seq<Step>, second: seq<Step>)
    ensures Run(s, first + second) == Run(Run(s, first), second)
    decreases |first|
  {
    hide Next;
    if first == [] {
      assert first + second == second;
    } else {
      assert (first + second)[1..] == first[1..] + second;
      RunJoins(Next(s, first[0]), first[1..], second);
    }
  }

  lemma RunOfOne(s: System, step: Step)
    ensures Run(s, [step]) == Next(s, step)
  {
    hide Next;
    assert [step][1..] == [];
  }

  lemma RunOfTwo(s: System, a: Step, b: Step)
    ensures Run(s, [a] + [b]) == Next(Next(s, a), b)
  {
    RunJoins(s, [a], [b]);
    RunOfOne(s, a);
    RunOfOne(Next(s, a), b);
    hide Run, Next;
  }

  lemma RunOfThree(s: System, a: Step, b: Step, c: Step)
    ensures Run(s, [a, b, c]) == Next(Next(Next(s, a), b), c)
  {
    hide Next;
    assert [a, b, c] == [a] + ([b] + [c]);
    RunJoins(s, [a], [b] + [c]);
    RunOfOne(s, a);
    RunOfTwo(Next(s, a), b, c);
    hide Run;
  }

  // -------------------------------------------------------------- invariants

  predicate IdsDistinct(t: Table) {
    && (forall i, j :: 0 <= i < j < |t.rows| ==> t.rows[i].id != t.rows[j].id)
    && forall i :: 0 <= i < |t.rows| ==> t.rows[i].id < t.nextId
  }

  predicate KeysDistinct(rows: seq<Job>) {
    forall i, j :: 0 <= i < j < |rows| ==> rows[i].dedupeKey != rows[j].dedupeKey
  }

  /** What no write changes, and what only grows. */
  predicate Succeeds(a: Job, b: Job) {
    && b.id == a.id && b.kind == a.kind && b.actor == a.actor && b.sourceTick == a.sourceTick
    && b.payload == a.payload && b.dedupeKey == a.dedupeKey && b.attempts >= a.attempts
  }

  predicate Extends(a: seq<Job>, b: seq<Job>) {
    |a| <= |b| && forall i :: 0 <= i < |a| ==> Succeeds(a[i], b[i])
  }

  lemma NextAttemptGrows(a: I64)
    ensures NextAttempt(a) >= a && (a < I64_MAX ==> NextAttempt(a) > a) && (a == I64_MAX ==> NextAttempt(a) == I64_MAX)
  {}

  lemma StepExtends(s: System, step: Step)
    ensures Extends(s.table.rows, Next(s, step).table.rows)
  {
    hide Backoff, AsSigned, AddUnsigned, SaturatingAdd, NextAttempt, Claimable, Selected;
    if step.Write? && step.worker in s.picks {
      NextAttemptGrows(s.picks[step.worker].seen.attempts);
    }
  }

  /** Main result: no row disappears, and no attempt count ever decreases. */
  lemma {:induction false} AttemptsNeverDecrease(s: System, steps: seq<Step>)
    ensures Extends(s.table.rows, Run(s, steps).table.rows)
    decreases |steps|
  {
    hide Next;
    if steps != [] {
      StepExtends(s, steps[0]);
      AttemptsNeverDecrease(Next(s, steps[0]), steps[1..]);
    }
  }

  lemma SameIdsAndKeys(t: Table, rows: seq<Job>)
    requires Extends(t.rows, rows) && |rows| == |t.rows|
    ensures IdsDistinct(t) ==> IdsDistinct(t.(rows := rows))
    ensures KeysDistinct(t.rows) ==> KeysDistinct(rows)
  {
    forall i | 0 <= i < |rows| ensures rows[i].id == t.rows[i].id && rows[i].dedupeKey == t.rows[i].dedupeKey {
      assert Succeeds(t.rows[i], rows[i]);
    }
  }

  lemma StepKeepsIds(s: System, step: Step)
    requires IdsDistinct(s.table) && KeysDistinct(s.table.rows)
    ensures IdsDistinct(Next(s, step).table) && KeysDistinct(Next(s, step).table.rows)
  {
    if !step.Insert? {
      StepExtends(s, step);
      SameLength(s, step);
      hide Next, IdsDistinct, KeysDistinct, Extends;
      SameIdsAndKeys(s.table, Next(s, step).table.rows);
      assert s.table.(rows := Next(s, step).table.rows) == Next(s, step).table;
    }
  }

  lemma SameLength(s: System, step: Step)
    requires !step.Insert?
    ensures |Next(s, step).table.rows| == |s.table.rows| && Next(s, step).table.nextId == s.table.nextId
  {
    hide Selected, Backoff, Takes;
  }

  /** The attempt granted has been written into its row. */
  predicate HasRecord(rows: seq<Job>, g: Grant) {
    exists i :: 0 <= i < |rows| && rows[i].id == g.id && rows[i].attempts >= g.attempt
  }

  predicate Recorded(rows: seq<Job>, grants: seq<Grant>) {
    forall g :: 0 <= g < |grants| ==> HasRecord(rows, grants[g])
  }

  /** A later grant of the same job has a higher number, unless numbers have run out. */
  predicate Fenced(grants: seq<Grant>) {
    forall i, j :: 0 <= i < j < |grants| && grants[i].id == grants[j].id ==>
      grants[i].attempt < grants[j].attempt || grants[j].attempt == I64_MAX
  }

  predicate Sound(s: System) {
    IdsDistinct(s.table) && KeysDistinct(s.table.rows) && Recorded(s.table.rows, s.grants) && Fenced(s.grants)
  }

  lemma ExtendingKeepsRecords(a: seq<Job>, b: seq<Job>, grants: seq<Grant>)
    requires Recorded(a, grants) && Extends(a, b)
    ensures Recorded(b, grants)
  {
    forall g | 0 <= g < |grants| ensures HasRecord(b, grants[g]) {
      assert HasRecord(a, grants[g]);
      var i :| 0 <= i < |a| && a[i].id == grants[g].id && a[i].attempts >= grants[g].attempt;
      assert Succeeds(a[i], b[i]);
    }
  }

  /** A claim that takes its row writes a number above all granted before. */
  lemma GrantIsNew(s: System, worker: nat)
    requires Sound(s) && worker in s.picks && Granting(s, worker) != []
    ensures Fenced(s.grants + Granting(s, worker))
    ensures HasRecord(Written(s, worker), Granting(s, worker)[0])
  {
    var p, rows := s.picks[worker], s.table.rows;
    var k :| 0 <= k < |rows| && AsRead(rows[k], p.seen, p.now);
    NextAttemptGrows(p.seen.attempts);
    assert Written(s, worker)[k] == Leasing(p.seen, p.now)(rows[k]);
    assert Written(s, worker)[k].id == p.seen.id && Written(s, worker)[k].attempts == NextAttempt(p.seen.attempts);
    hide AsRead, NextAttempt, SaturatingAdd;
    forall i | 0 <= i < |s.grants| && s.grants[i].id == p.seen.id
      ensures s.grants[i].attempt < NextAttempt(p.seen.attempts) || NextAttempt(p.seen.attempts) == I64_MAX
    {
      assert HasRecord(rows, s.grants[i]);
      var r :| 0 <= r < |rows| && rows[r].id == s.grants[i].id && rows[r].attempts >= s.grants[i].attempt;
      assert rows[k].id == p.seen.id && rows[k].attempts == p.seen.attempts by {
        AsReadMeans(rows[k], p.seen, p.now);
      }
      assert r == k;
    }
  }

  lemma AsReadMeans(j: Job, seen: Job, now: I64)
    requires AsRead(j, seen, now)
    ensures j.id == seen.id && j.attempts == seen.attempts && Claimable(j, now)
  {}

  lemma WriteKeepsSound(s: System, worker: nat)
    requires Sound(s) && worker in s.picks
    ensures Recorded(Written(s, worker), s.grants + Granting(s, worker)) && Fenced(s.grants + Granting(s, worker))
  {
    StepExtends(s, Write(worker));
    ExtendingKeepsRecords(s.table.rows, Written(s, worker), s.grants);
    OneGrantAtMost(s, worker);
    if Granting(s, worker) != [] {
      GrantIsNew(s, worker);
    } else {
      assert s.grants + Granting(s, worker) == s.grants;
    }
    hide Written, Granting, Fenced, Extends, HasRecord;
  }

  lemma OneGrantAtMost(s: System, worker: nat)
    requires worker in s.picks
    ensures |Granting(s, worker)| <= 1
  {}

  lemma StepKeepsSound(s: System, step: Step)
    requires Sound(s)
    ensures Sound(Next(s, step))
  {
    StepKeepsIds(s, step);
    StepExtends(s, step);
    hide IdsDistinct, KeysDistinct, Extends, Fenced, Written, Granting, Recorded;
    if step.Write? && step.worker in s.picks {
      WriteKeepsSound(s, step.worker);
    } else {
      OnlyWritesGrant(s, step);
      ExtendingKeepsRecords(s.table.rows, Next(s, step).table.rows, s.grants);
    }
  }

  lemma OnlyWritesGrant(s: System, step: Step)
    requires step.Write? ==> step.worker !in s.picks
    ensures Next(s, step).grants == s.grants
  {}

  lemma {:induction false} RunKeepsSound(s: System, steps: seq<Step>)
    requires Sound(s)
    ensures Sound(Run(s, steps))
    decreases |steps|
  {
    hide Next, Sound;
    if steps != [] {
      StepKeepsSound(s, steps[0]);
      RunKeepsSound(Next(s, steps[0]), steps[1..]);
    }
  }

  function Start(): System {
    System(Table([], 1), map[], [])
  }

  /** Main result: in every run from an empty table, a later grant of a job has a
      higher attempt number, unless the earlier one had the largest there is; then
      it has that number again. */
  lemma AttemptsAreGrantedOnce(steps: seq<Step>, i: nat, j: nat)
    requires var grants := Run(Start(), steps).grants;
             i < j < |grants| && grants[i].id == grants[j].id
    ensures var a, b := Run(Start(), steps).grants[i].attempt, Run(Start(), steps).grants[j].attempt;
            if a < I64_MAX then a < b else a == b == I64_MAX
  {
    RunKeepsSound(Start(), steps);
    hide Run;
  }

  lemma StepGrantsPositive(s: System, step: Step)
    requires forall g :: 0 <= g < |s.grants| ==> s.grants[g].attempt >= 1
    ensures forall g :: 0 <= g < |Next(s, step).grants| ==> Next(s, step).grants[g].attempt >= 1
  {
    if !(step.Write? && step.worker in s.picks) {
      OnlyWritesGrant(s, step);
    }
    hide Takes, Written, Selected;
  }

  lemma {:induction false} GrantsArePositive(s: System, steps: seq<Step>)
    requires forall g :: 0 <= g < |s.grants| ==> s.grants[g].attempt >= 1
    ensures forall g :: 0 <= g < |Run(s, steps).grants| ==> Run(s, steps).grants[g].attempt >= 1
    decreases |steps|
  {
    hide Next;
    if steps != [] {
      StepGrantsPositive(s, steps[0]);
      GrantsArePositive(Next(s, steps[0]), steps[1..]);
    }
  }

  lemma SameRemainder(a: nat, b: nat)
    ensures a % 0x1_0000_0000 == b % 0x1_0000_0000 <==> (a - b) % 0x1_0000_0000 == 0
  {}

  /** The worker is told the attempt cut to 32 bits: two grants of a run are told
      the same number exactly when their attempts differ by a multiple of 2^32. */
  lemma SameNumberToldIff(steps: seq<Step>, i: nat, j: nat)
    requires i < |Run(Start(), steps).grants| && j < |Run(Start(), steps).grants|
    ensures var a, b := Run(Start(), steps).grants[i].attempt, Run(Start(), steps).grants[j].attempt;
            ToldAttempt(a) == ToldAttempt(b) <==> (a - b) % 0x1_0000_0000 == 0
  {
    GrantsArePositive(Start(), steps);
    hide Run;
    SameRemainder(Run(Start(), steps).grants[i].attempt, Run(Start(), steps).grants[j].attempt);
  }

  lemma SameIdSameRow(t: Table, i: nat, k: nat)
    requires IdsDistinct(t) && i < |t.rows| && k < |t.rows| && t.rows[i].id == t.rows[k].id
    ensures i == k
  {}

  lemma DifferentIds(t: Table, i: nat, k: nat)
    requires IdsDistinct(t) && i < |t.rows| && k < |t.rows| && i != k
    ensures t.rows[i].id != t.rows[k].id
  {}

  /** A worker whose row has been granted to another since it read it gets nothing. */
  lemma StalePickIsRefused(s: System, worker: nat, g: nat)
    requires Sound(s) && worker in s.picks && g < |s.grants|
    requires s.grants[g].id == s.picks[worker].seen.id && s.grants[g].attempt > s.picks[worker].seen.attempts
    ensures Next(s, Write(worker)).table == s.table && Next(s, Write(worker)).grants == s.grants
  {
    var p, rows := s.picks[worker], s.table.rows;
    assert HasRecord(rows, s.grants[g]);
    var k :| 0 <= k < |rows| && rows[k].id == p.seen.id && rows[k].attempts > p.seen.attempts;
    forall i | 0 <= i < |rows| && rows[i].id == p.seen.id ensures rows[i].attempts > p.seen.attempts {
      SameIdSameRow(s.table, i, k);
    }
    hide Claimable, Recorded, Fenced;
    assert Written(s, worker) == rows;
  }

  /** The grants of one job. */
  function GrantsOf(grants: seq<Grant>, id: int): seq<Grant> {
    if grants == [] then []
    else GrantsOf(grants[..|grants| - 1], id) + if grants[|grants| - 1].id == id then [grants[|grants| - 1]] else []
  }

  lemma OtherGrants(grants: seq<Grant>, more: seq<Grant>, id: int)
    requires |more| <= 1 && (more != [] ==> more[0].id != id)
    ensures GrantsOf(grants + more, id) == GrantsOf(grants, id)
  {
    if more == [] {
      assert grants + more == grants;
    } else {
      assert (grants + more)[..|grants|] == grants;
    }
  }

  // ----------------------------------------------------------------- selection

  lemma IdsOrder(rows: seq<Job>)
    requires forall i, j :: 0 <= i < j < |rows| ==> rows[i].id != rows[j].id
    ensures TotalOn(Sooner, rows) && Distinct(rows)
  {
    forall a, b | a in rows && b in rows && a.id == b.id ensures a == b {
      var i :| 0 <= i < |rows| && rows[i] == a;
      var j :| 0 <= j < |rows| && rows[j] == b;
    }
    forall i, j | 0 <= i < j < |rows| ensures rows[i] != rows[j] {
      assert rows[i].id != rows[j].id;
    }
  }

  /** The selected row is the soonest eligible one. */
  lemma SelectedIsSoonest(rows: seq<Job>, now: I64, kind: Option<string>)
    requires forall i, j :: 0 <= i < j < |rows| ==> rows[i].id != rows[j].id
    ensures var seen := Selected(rows, now, kind);
            seen.Some? ==> forall j :: j in rows && EligibleIn(rows, now, kind)(j) ==> j == seen.value || Sooner(seen.value, j)
  {
    var eligible := Filter(rows, EligibleIn(rows, now, kind));
    IdsOrder(rows);
    FilterDistinct(rows, EligibleIn(rows, now, kind));
    forall j ensures j in eligible <==> j in rows && EligibleIn(rows, now, kind)(j) {
      FilterMembers(rows, EligibleIn(rows, now, kind), j);
    }
    hide Filter, EligibleIn;
    SortAscends(eligible, Sooner);
    SortMembers(eligible, Sooner);
    hide Sort;
    var sorted := Sort(eligible, Sooner);
    forall j | j in eligible ensures j == sorted[0] || Sooner(sorted[0], j) {
      assert j in sorted;
      var i :| 0 <= i < |sorted| && sorted[i] == j;
    }
  }


  /** An eligible row is selected when every other claimable one is later. */
  lemma SelectsOne(rows: seq<Job>, now: I64, k: nat)
    requires k < |rows| && EligibleIn(rows, now, None)(rows[k])
    requires forall i, j :: 0 <= i < j < |rows| ==> rows[i].id != rows[j].id
    requires forall i :: 0 <= i < |rows| && i != k ==> !Claimable(rows[i], now) || Sooner(rows[k], rows[i])
    ensures Selected(rows, now, None) == Some(rows[k])
  {
    SelectedIsSoonest(rows, now, None);
    SelectedIsEligible(rows, now, None);
    hide Selected;
    var seen := Selected(rows, now, None);
    assert rows[k] in rows;
    assert seen.Some?;
    var i :| 0 <= i < |rows| && rows[i] == seen.value;
  }

  /** A read that finds row `k`, and a claim that takes it. */
  lemma ReadPicks(s: System, worker: nat, now: I64, k: nat)
    requires k < |s.table.rows| && Selected(s.table.rows, now, None) == Some(s.table.rows[k])
    ensures Next(s, Read(worker, now, None)) == s.(picks := s.picks[worker := Pick(s.table.rows[k], now)])
  {
    hide Selected;
  }

  lemma WriteTakes(s: System, worker: nat, k: nat, seen: Job, now: I64)
    requires IdsDistinct(s.table) && k < |s.table.rows| && worker in s.picks && s.picks[worker] == Pick(seen, now)
    requires seen == s.table.rows[k] && Claimable(seen, now) && seen.payload.readable
    ensures Next(s, Write(worker)) == System(s.table.(rows := s.table.rows[k := Leasing(seen, now)(seen)]),
                                             s.picks - {worker}, s.grants + [Grant(worker, seen.id, NextAttempt(seen.attempts))])
  {
    var rows := s.table.rows;
    assert AsRead(rows[k], seen, now);
    forall i | 0 <= i < |rows| && i != k ensures !AsRead(rows[i], seen, now) {
      DifferentIds(s.table, i, k);
    }
    hide AsRead, IdsDistinct, NextAttempt, SaturatingAdd;
    assert ClaimRow(rows, seen, now) == rows[k := Leasing(seen, now)(seen)];
  }

  /** A table of one job is selected from when that job is claimable. */
  lemma OneJobIsSelected(j: Job, now: I64)
    requires Claimable(j, now)
    ensures Selected([j], now, None) == Some(j)
  {
    assert !Blocked([j], j, now);
    SelectsOne([j], now, 0);
  }

  // ------------------------------------------------------------ a table of one

  /** A table that holds the first job ever inserted, and no worker mid-claim. */
  function Single(j: Job, grants: seq<Grant>): System {
    System(Table([j], 2), map[], grants)
  }

  function ClaimSteps(worker: nat, now: I64): seq<Step> {
    [Read(worker, now, None), Write(worker)]
  }

  lemma SingleClaim(j: Job, grants: seq<Grant>, worker: nat, now: I64)
    requires j.id == 1 && Claimable(j, now) && j.payload.readable
    ensures Run(Single(j, grants), ClaimSteps(worker, now))
         == Single(Leasing(j, now)(j), grants + [Grant(worker, 1, NextAttempt(j.attempts))])
  {
    var s := Single(j, grants);
    OneJobIsSelected(j, now);
    ReadPicks(s, worker, now, 0);
    var s1 := Next(s, Read(worker, now, None));
    WriteTakes(s1, worker, 0, j, now);
    hide Selected, Claimable, NextAttempt, SaturatingAdd;
    assert ClaimSteps(worker, now) == [Read(worker, now, None)] + [Write(worker)];
    RunJoins(s, [Read(worker, now, None)], [Write(worker)]);
    RunOfOne(s, Read(worker, now, None));
    RunOfOne(s1, Write(worker));
    hide Run, Next;
    assert [j][0 := Leasing(j, now)(j)] == [Leasing(j, now)(j)];
    assert s.picks[worker := Pick(j, now)] - {worker} == map[];
  }

  /** A write that names the only row. */
  lemma SingleWrite(j: Job, grants: seq<Grant>, step: Step)
    requires j.id == 1 && (step.Fail? || step.Requeue? || step.Complete?) && step.id == 1
    ensures Run(Single(j, grants), [step]) == Single(
              match step
              case Fail(_, attempts, at, floor) =>
                j.(status := if attempts >= MAX_ATTEMPTS then Dead else Pending, lease := None,
                   available := AsSigned(AddUnsigned(at, Backoff(attempts, floor))))
              case Requeue(_, attempts, at, floor) =>
                j.(status := Pending, lease := None, available := AsSigned(AddUnsigned(at, Backoff(attempts, floor))))
              case _ => j.(status := Completed, lease := None), grants)
  {
    hide Backoff, AsSigned, AddUnsigned;
    RunOfOne(Single(j, grants), step);
  }

  // -------------------------------------------------------- numbers do run out

  /** The job after `n` claims, each given back at once. */
  function Worn(n: I64): Job {
    Job(1, "orb_chat", 7, 0, Pending, n, None, 250, Payload("{}", true), "a")
  }

  function WearingDown(n: nat): seq<Step> {
    if n == 0 then [Insert("orb_chat", 7, 0, Payload("{}", true), "a", 250)]
    else WearingDown(n - 1) + ClaimSteps(1, 250) + [Requeue(1, 0, 0, 0)]
  }

  function WornGrants(n: nat): (r: seq<Grant>)
    requires n <= I64_MAX
    ensures |r| == n && forall i :: 0 <= i < n ==> r[i] == Grant(1, 1, i + 1)
  {
    if n == 0 then [] else WornGrants(n - 1) + [Grant(1, 1, n)]
  }

  lemma ClaimedAndGivenBack(n: nat, grants: seq<Grant>)
    requires n < I64_MAX
    ensures Run(Run(Single(Worn(n), grants), ClaimSteps(1, 250)), [Requeue(1, 0, 0, 0)])
         == Single(Worn(n + 1), grants + [Grant(1, 1, n + 1)])
  {
    SingleClaim(Worn(n), grants, 1, 250);
    hide Run, ClaimSteps;
    SingleWrite(Leasing(Worn(n), 250)(Worn(n)), grants + [Grant(1, 1, n + 1)], Requeue(1, 0, 0, 0));
    assert Backoff(0, 0) == 250 by { assert PowerOfTwo(0) == 1; }
  }

  lemma {:induction false} WearingDownReaches(n: nat)
    requires n <= I64_MAX
    ensures Run(Start(), WearingDown(n)) == Single(Worn(n), WornGrants(n))
    decreases n
  {
    if n == 0 {
      RunOfOne(Start(), WearingDown(0)[0]);
    } else {
      hide Worn, Single, Start;
      WearingDownReaches(n - 1);
      var before, claims, back := WearingDown(n - 1), ClaimSteps(1, 250), [Requeue(1, 0, 0, 0)];
      RunJoins(Start(), before + claims, back);
      RunJoins(Start(), before, claims);
      hide Run, ClaimSteps;
      ClaimedAndGivenBack(n - 1, WornGrants(n - 1));
    }
  }

  /** Reachable from an empty table: at the largest number the next claim grants
      the same one again. */
  lemma LargestAttemptRepeats(n: nat)
    requires n == I64_MAX
    ensures var grants := Run(Start(), WearingDown(n) + ClaimSteps(1, 250)).grants;
            |grants| == n + 1 && grants[n - 1] == grants[n] == Grant(1, 1, I64_MAX)
  {
    WearingDownReaches(n);
    RunJoins(Start(), WearingDown(n), ClaimSteps(1, 250));
    hide Run, WearingDown;
    SingleClaim(Worn(n), WornGrants(n), 1, 250);
    hide ClaimSteps;
  }

  // ------------------------------------------------------------------- backoff

  /** The wait doubles from a quarter of a second up to eight seconds and stays
      there; a floor can only lengthen it. */
  lemma BackoffDoubles(attempts: U32, floor: U64)
    requires 1 <= attempts < 0xFFFF_FFFF
    ensures 250 <= Backoff(attempts, 0) <= 8_000
    ensures Backoff(attempts + 1, 0) == if attempts < 6 then 2 * Backoff(attempts, 0) else Backoff(attempts, 0)
    ensures Backoff(attempts, floor) >= Backoff(attempts, 0) && Backoff(attempts, floor) >= floor
  {
    assert PowerOfTwo(1) == 2 && PowerOfTwo(2) == 4 && PowerOfTwo(3) == 8 && PowerOfTwo(4) == 16 && PowerOfTwo(5) == 32;
  }
}
