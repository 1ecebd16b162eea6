/** What the practice projection promises, whatever the deeds and their order. */
module PracticeLaws {
  import opened Options
  import opened Sequences
  import opened Practice

  // ------------------------------------------------------------------ counting

  function Count(s: seq<Deed>, c: Category): nat {
    if s == [] then 0 else Count(s[..|s| - 1], c) + if s[|s| - 1].category == c then 1 else 0
  }

  lemma {:induction false} TallyCounts(s: seq<Deed>, c: Category)
    ensures Get(Tally(s), c) == Count(s, c) && (c in Tally(s) <==> Count(s, c) > 0)
    decreases |s|
  {
    if s != [] {
      TallyCounts(s[..|s| - 1], c);
    }
  }

  lemma {:induction false} CountOfJoin(a: seq<Deed>, b: seq<Deed>, c: Category)
    ensures Count(a + b, c) == Count(a, c) + Count(b, c)
    decreases |b|
  {
    if b == [] {
      assert a + b == a;
    } else {
      assert (a + b)[..|a + b| - 1] == a + b[..|b| - 1];
      CountOfJoin(a, b[..|b| - 1], c);
    }
  }

  lemma CountOfOne(d: Deed, c: Category)
    ensures Count([d], c) == if d.category == c then 1 else 0
  {
    assert [d][..0] == [];
  }

  // ------------------------------------------------------------------- leaders

  lemma CategoriesAreAll(c: Category)
    ensures c in Categories()
  {
    assert Categories()[Rank(c)] == c;
  }

  lemma RankIsFaithful(a: Category, b: Category)
    ensures Rank(a) == Rank(b) <==> a == b
  {}

  lemma LeadsIsTotal(counts: map<Category, nat>, s: seq<Category>)
    ensures TotalOn(Leads(counts), s)
  {
    forall a, b | a in s && b in s ensures a == b || Leads(counts)(a, b) || Leads(counts)(b, a) {
      RankIsFaithful(a, b);
    }
    hide Rank;
  }

  lemma CategoriesAreDistinct()
    ensures Distinct(Categories())
  {
    var s := Categories();
    forall i, j | 0 <= i < j < |s| ensures s[i] != s[j] {
      assert Rank(s[i]) == i && Rank(s[j]) == j;
    }
  }

  /** The leaders are the practised categories, each once, the most practised first. */
  lemma LeadersAreRanked(counts: map<Category, nat>)
    ensures Ascending(Leaders(counts), Leads(counts)) && forall c :: c in Leaders(counts) <==> c in counts
  {
    var present := Filter(Categories(), Practised(counts));
    CategoriesAreDistinct();
    FilterDistinct(Categories(), Practised(counts));
    LeadsIsTotal(counts, present);
    hide Leads, Filter;
    SortAscends(present, Leads(counts));
    SortMembers(present, Leads(counts));
    forall c ensures c in Leaders(counts) <==> c in counts {
      CategoriesAreAll(c);
      FilterMembers(Categories(), Practised(counts), c);
    }
  }

  predicate IsLeader(counts: map<Category, nat>, leader: Category) {
    forall c: Category :: Get(counts, c) < Get(counts, leader)
                          || (Get(counts, c) == Get(counts, leader) && Rank(leader) <= Rank(c))
  }

  /** The first leader has the most deeds; among equals it comes first. */
  lemma FirstLeads(counts: map<Category, nat>)
    requires Leaders(counts) != [] && forall c :: c in counts ==> counts[c] > 0
    ensures IsLeader(counts, Leaders(counts)[0])
  {
    LeadersAreRanked(counts);
    var leaders := Leaders(counts);
    hide Leaders;
    assert leaders[0] in counts;
    forall c: Category ensures Get(counts, c) < Get(counts, leaders[0])
                            || (Get(counts, c) == Get(counts, leaders[0]) && Rank(leaders[0]) <= Rank(c))
    {
      if c in counts {
        assert c in leaders;
        var i :| 0 <= i < |leaders| && leaders[i] == c;
        if i > 0 {
          assert Leads(counts)(leaders[0], leaders[i]);
        }
      }
    }
  }

  lemma TallyLeads(recent: seq<Deed>)
    requires recent != []
    ensures Leaders(Tally(recent)) != [] && IsLeader(Tally(recent), Leaders(Tally(recent))[0])
  {
    var counts := Tally(recent);
    forall c ensures c in counts ==> counts[c] > 0 {
      TallyCounts(recent, c);
    }
    var c := recent[|recent| - 1].category;
    TallyCounts(recent, c);
    LeadersAreRanked(counts);
    hide Leaders, IsLeader;
    assert c in Leaders(counts);
    FirstLeads(counts);
  }

  // --------------------------------------------------------------- projection

  /** Main result: projecting twice is projecting once. */
  lemma ProjectionIsIdempotent(current: State, deeds: seq<Deed>)
    ensures Projected(Projected(current, deeds), deeds) == Projected(current, deeds)
  {
    hide Recent, Tally, Leaders, Settles, FirstCompound;
  }

  /** What a settled projection says: the old primary is replaced exactly when it
      trails some category by three deeds or more, and the new primary is then
      the category with the most. */
  lemma PrimaryIsReplacedIff(current: State, deeds: seq<Deed>, p: Category)
    requires Settles(Recent(deeds)) && current.primary == Some(p)
    ensures var recent := Recent(deeds);
            var state := Projected(current, deeds);
            && state.primary.Some?
            && (state.primary != Some(p) <==> exists c :: Count(recent, c) >= Count(recent, p) + PRACTICE_SWITCH_LEAD)
            && (state.primary != Some(p) ==> IsLeader(Tally(recent), state.primary.value))
  {
    var recent := Recent(deeds);
    var counts := Tally(recent);
    TallyLeads(recent);
    var leader := Leaders(counts)[0];
    hide Recent, Tally, Leaders, Targets, FirstCompound;
    TallyCounts(recent, p);
    TallyCounts(recent, leader);
    if c :| Count(recent, c) >= Count(recent, p) + PRACTICE_SWITCH_LEAD {
      TallyCounts(recent, c);
      assert Get(counts, c) <= Get(counts, leader);
    }
  }

  /** A first primary is the category with the most deeds. */
  lemma FirstPrimaryLeads(current: State, deeds: seq<Deed>)
    requires Settles(Recent(deeds)) && current.primary == None
    ensures var state := Projected(current, deeds);
            state.primary.Some? && IsLeader(Tally(Recent(deeds)), state.primary.value)
  {
    TallyLeads(Recent(deeds));
    hide Recent, Tally, Leaders, Targets, FirstCompound, IsLeader;
  }

  // -------------------------------------------------------- order independence

  lemma {:induction false} TextOrderIsTotal(a: string, b: string)
    ensures a == b || TextBefore(a, b) || TextBefore(b, a)
    ensures !(TextBefore(a, b) && TextBefore(b, a))
    decreases |a|
  {
    if a != "" && b != "" {
      TextOrderIsTotal(a[1..], b[1..]);
      if a[0] == b[0] && a[1..] == b[1..] {
        assert a == [a[0]] + a[1..] && b == [b[0]] + b[1..];
      }
    }
  }

  lemma {:induction false} TextOrderIsTransitive(a: string, b: string, c: string)
    requires TextBefore(a, b) && TextBefore(b, c)
    ensures TextBefore(a, c)
    decreases |a|
  {
    if a != "" && a[0] == b[0] == c[0] {
      TextOrderIsTransitive(a[1..], b[1..], c[1..]);
    }
  }

  predicate SameKey(a: Deed, b: Deed) {
    LatestSource(a.sources) == LatestSource(b.sources) && a.id == b.id
  }

  predicate DistinctKeys(s: seq<Deed>) {
    forall i, j :: 0 <= i < j < |s| ==> !SameKey(s[i], s[j])
  }

  lemma EarlierIsTotal(s: seq<Deed>)
    requires DistinctKeys(s)
    ensures TotalOn(Earlier, s) && Distinct(s)
  {
    hide LatestSource, TextBefore;
    forall a, b | a in s && b in s ensures a == b || Earlier(a, b) || Earlier(b, a)
      ensures !(Earlier(a, b) && Earlier(b, a))
    {
      TextOrderIsTotal(a.id, b.id);
      var i :| 0 <= i < |s| && s[i] == a;
      var j :| 0 <= j < |s| && s[j] == b;
    }
    forall a, b, c | a in s && b in s && c in s && Earlier(a, b) && Earlier(b, c) ensures Earlier(a, c) {
      if TextBefore(a.id, b.id) && TextBefore(b.id, c.id) {
        TextOrderIsTransitive(a.id, b.id, c.id);
      }
    }
    forall i, j | 0 <= i < j < |s| ensures s[i] != s[j] {
      assert !SameKey(s[i], s[j]);
    }
  }

  /** Main result: with distinct keys among the durable deeds, the order in which
      deeds are listed does not matter. */
  lemma OrderDoesNotMatter(current: State, a: seq<Deed>, b: seq<Deed>)
    requires multiset(a) == multiset(b) && DistinctKeys(Filter(a, IsDurable))
    ensures Projected(current, a) == Projected(current, b)
  {
    assert Chronicle(a) == Chronicle(b) by {
      ChronicleIsUnique(a, b);
    }
    hide Chronicle, Tally, Leaders, Targets, FirstCompound, Primary, Settles;
  }

  lemma ChronicleIsUnique(a: seq<Deed>, b: seq<Deed>)
    requires multiset(a) == multiset(b) && DistinctKeys(Filter(a, IsDurable))
    ensures Chronicle(a) == Chronicle(b)
  {
    hide Earlier, DistinctKeys, Sort, Filter;
    var x, y := Filter(a, IsDurable), Filter(b, IsDurable);
    FilterPermutes(a, b, IsDurable);
    EarlierIsTotal(x);
    SortKeeps(x, Earlier);
    SortKeeps(y, Earlier);
    SameElements(x, y);
    SortMembers(x, Earlier);
    SortAscends(x, Earlier);
    DistinctPermutes(x, y);
    SortAscends(y, Earlier);
    AscendingIsUnique(Sort(x, Earlier), Sort(y, Earlier), Earlier);
  }

  // ---------------------------------------------------------------- hysteresis

  /** Every durable deed of the batch comes no earlier than the durable deeds before it. */
  predicate AppendedInOrder(deeds: seq<Deed>, batch: seq<Deed>) {
    var all := deeds + batch;
    forall i, j :: 0 <= i < j < |all| && |deeds| <= j && all[i].durable && all[j].durable ==> !Earlier(all[j], all[i])
  }

  lemma FrontIsInOrder(deeds: seq<Deed>, batch: seq<Deed>)
    requires batch != [] && AppendedInOrder(deeds, batch)
    ensures AppendedInOrder(deeds, batch[..|batch| - 1])
    ensures batch[|batch| - 1].durable ==>
              forall d :: d in deeds + batch[..|batch| - 1] && d.durable ==> !Earlier(batch[|batch| - 1], d)
  {
    hide Earlier;
    var all, front := deeds + batch, deeds + batch[..|batch| - 1];
    var n := |front|;
    assert all == front + [batch[|batch| - 1]];
    assert forall i :: 0 <= i < n ==> all[i] == front[i];
    if batch[|batch| - 1].durable {
      forall d | d in front && d.durable ensures !Earlier(batch[|batch| - 1], d) {
        var i :| 0 <= i < n && front[i] == d;
        assert all[i].durable && all[n].durable;
      }
    }
  }

  /** A deed that comes before nothing sorted goes to the end. */
  lemma LatestGoesLast(s: seq<Deed>, d: Deed)
    requires forall x :: x in s ==> !Earlier(d, x)
    ensures Sort(s + [d], Earlier) == Sort(s, Earlier) + [d]
  {
    hide Earlier;
    var sorted := Sort(s, Earlier);
    assert (s + [d])[..|s|] == s;
    SortMembers(s, Earlier);
    if sorted != [] {
      assert sorted[|sorted| - 1] in s;
    }
  }

  lemma FilterOneMore(s: seq<Deed>, d: Deed)
    ensures Filter(s + [d], IsDurable) == if d.durable then Filter(s, IsDurable) + [d] else Filter(s, IsDurable)
  {
    assert (s + [d])[..|s|] == s;
  }

  lemma ChronicleOfOneMore(deeds: seq<Deed>, d: Deed)
    requires d.durable ==> forall x :: x in deeds && x.durable ==> !Earlier(d, x)
    ensures Chronicle(deeds + [d]) == if d.durable then Chronicle(deeds) + [d] else Chronicle(deeds)
  {
    hide Earlier, Sort;
    FilterOneMore(deeds, d);
    if d.durable {
      var s := Filter(deeds, IsDurable);
      forall x | x in s ensures !Earlier(d, x) {
        FilterMembers(deeds, IsDurable, x);
      }
      hide Filter;
      LatestGoesLast(s, d);
    }
  }

  /** New deeds in order go to the end of the chronicle. */
  lemma {:induction false} ChronicleGrows(deeds: seq<Deed>, batch: seq<Deed>)
    requires AppendedInOrder(deeds, batch)
    ensures Chronicle(deeds + batch) == Chronicle(deeds) + Filter(batch, IsDurable)
    decreases |batch|
  {
    hide Earlier, Chronicle;
    if batch == [] {
      assert deeds + batch == deeds;
    } else {
      var front, last := batch[..|batch| - 1], batch[|batch| - 1];
      FrontIsInOrder(deeds, batch);
      hide AppendedInOrder;
      ChronicleGrows(deeds, front);
      hide Filter;
      assert batch == front + [last] && deeds + batch == deeds + front + [last];
      FilterOneMore(front, last);
      ChronicleOfOneMore(deeds + front, last);
    }
  }

  /** By how many deeds of the window `p` is ahead of `q`. */
  function Lead(chronicle: seq<Deed>, p: Category, q: Category): int {
    Count(LatestOf(chronicle), p) - Count(LatestOf(chronicle), q)
  }

  lemma CountOfInsertion(a: seq<Deed>, d: Deed, b: seq<Deed>, c: Category)
    ensures Count(a + [d] + b, c) == Count(a + b, c) + if d.category == c then 1 else 0
  {
    CountOfOne(d, c);
    CountOfJoin(a, [d], c);
    CountOfJoin(a + [d], b, c);
    CountOfJoin(a, b, c);
  }

  /** The window when one more deed stands at position `k` of the chronicle: it may
      enter, and then it may push the oldest out. */
  lemma WindowAfterInsertion(chronicle: seq<Deed>, k: nat, d: Deed)
    requires k <= |chronicle|
    ensures var w, n, later := LatestOf(chronicle), |chronicle| - PRACTICE_WINDOW,
                               LatestOf(chronicle[..k] + [d] + chronicle[k..]);
            && (n < 0 ==> w == chronicle && later == w[..k] + [d] + w[k..])
            && (n >= k ==> later == w)
            && (0 <= n < k ==> w != [] && k - n <= |w| && later == w[1..k - n] + [d] + w[k - n..])
  {
    var longer, n := chronicle[..k] + [d] + chronicle[k..], |chronicle| - PRACTICE_WINDOW;
    if n >= 0 {
      assert LatestOf(longer) == longer[n + 1..];
    }
  }

  lemma CountWithoutFirst(w: seq<Deed>, c: Category)
    requires w != []
    ensures Count(w[1..], c) == Count(w, c) - if w[0].category == c then 1 else 0
  {
    assert w == [w[0]] + w[1..];
    CountOfOne(w[0], c);
    CountOfJoin([w[0]], w[1..], c);
  }

  lemma CountOfEntry(w: seq<Deed>, m: nat, d: Deed, c: Category)
    requires m <= |w|
    ensures Count(w[..m] + [d] + w[m..], c) == Count(w, c) + if d.category == c then 1 else 0
  {
    hide Count;
    CountOfInsertion(w[..m], d, w[m..], c);
    assert w[..m] + w[m..] == w;
  }

  lemma InsertionMovesCount(chronicle: seq<Deed>, k: nat, d: Deed, c: Category)
    requires k <= |chronicle|
    ensures -1 <= Count(LatestOf(chronicle[..k] + [d] + chronicle[k..]), c) - Count(LatestOf(chronicle), c) <= 1
  {
    hide LatestOf, Count;
    var w, n := LatestOf(chronicle), |chronicle| - PRACTICE_WINDOW;
    WindowAfterInsertion(chronicle, k, d);
    if n < 0 {
      CountOfEntry(w, k, d, c);
    } else if n < k {
      CountWithoutFirst(w, c);
      CountOfEntry(w[1..], k - n - 1, d, c);
      assert w[1..][..k - n - 1] == w[1..k - n] && w[1..][k - n - 1..] == w[k - n..];
    }
  }

  /** One more deed, wherever it sorts, changes a lead by two at most: itself, and
      the one it pushes out. */
  lemma OneDeedMovesLead(deeds: seq<Deed>, d: Deed, p: Category, q: Category)
    ensures var change := Lead(Chronicle(deeds + [d]), p, q) - Lead(Chronicle(deeds), p, q);
            if d.durable then -2 <= change <= 2 else change == 0
  {
    hide Earlier, LatestOf, Count;
    FilterOneMore(deeds, d);
    if d.durable {
      var durable := Filter(deeds, IsDurable);
      assert (durable + [d])[..|durable|] == durable;
      var k := InsertPlace(d, Chronicle(deeds), Earlier);
      InsertionMovesCount(Chronicle(deeds), k, d, p);
      InsertionMovesCount(Chronicle(deeds), k, d, q);
    }
  }

  /** A batch changes a lead by two at most for each of its durable deeds. */
  lemma {:induction false} BatchMovesLead(deeds: seq<Deed>, batch: seq<Deed>, p: Category, q: Category)
    ensures var n, change := |Filter(batch, IsDurable)|, Lead(Chronicle(deeds + batch), p, q) - Lead(Chronicle(deeds), p, q);
            -2 * n <= change <= 2 * n
    decreases |batch|
  {
    hide Lead, Chronicle;
    if batch == [] {
      assert deeds + batch == deeds;
    } else {
      var front, last := batch[..|batch| - 1], batch[|batch| - 1];
      assert batch == front + [last] && deeds + batch == (deeds + front) + [last];
      BatchMovesLead(deeds, front, p, q);
      OneDeedMovesLead(deeds + front, last, p, q);
      FilterOneMore(front, last);
      hide Filter;
    }
  }

  /** A direct switch: from one primary to another. */
  predicate SwitchesTo(before: State, after: State, p: Category, q: Category) {
    before.primary == Some(p) && after.primary == Some(q) && p != q
  }

  /** A switch needs a lead of three over the old primary, and a leader. */
  lemma SwitchNeedsLead(current: State, deeds: seq<Deed>, p: Category, q: Category)
    requires SwitchesTo(current, Projected(current, deeds), p, q)
    ensures Lead(Chronicle(deeds), q, p) >= PRACTICE_SWITCH_LEAD
    ensures forall c :: Lead(Chronicle(deeds), q, c) >= 0
  {
    var recent := Recent(deeds);
    hide Chronicle, Tally, Leaders, Targets, FirstCompound;
    TallyLeads(recent);
    TallyCounts(recent, p);
    TallyCounts(recent, q);
    forall c ensures Count(recent, c) <= Count(recent, q) {
      TallyCounts(recent, c);
    }
  }

  /** Main result: a switch and its reversal, at whatever later time and in whatever
      order the deeds arrive, have at least three new durable deeds between them. */
  lemma NoFlapping(first: State, second: State, deeds: seq<Deed>, batch: seq<Deed>, p: Category, q: Category)
    requires SwitchesTo(first, Projected(first, deeds), p, q)
    requires SwitchesTo(second, Projected(second, deeds + batch), q, p)
    ensures |Filter(batch, IsDurable)| >= 3
  {
    SwitchNeedsLead(first, deeds, p, q);
    SwitchNeedsLead(second, deeds + batch, q, p);
    BatchMovesLead(deeds, batch, p, q);
    hide Projected, Chronicle, Filter, LatestOf;
  }

  // ---------------------------------------------------------------------- runs

  predicate IsSwitch(before: State, after: State) {
    before.primary.Some? && after.primary.Some? && before.primary != after.primary
  }

  /** How often the primary is replaced when the state is projected after each batch. */
  function Switches(current: State, deeds: seq<Deed>, batches: seq<seq<Deed>>): nat
    decreases |batches|
  {
    if batches == [] then 0
    else
      var next := Projected(current, deeds + batches[0]);
      (if IsSwitch(current, next) then 1 else 0) + Switches(next, deeds + batches[0], batches[1..])
  }

  function DurableCount(batches: seq<seq<Deed>>): nat {
    if batches == [] then 0 else |Filter(batches[0], IsDurable)| + DurableCount(batches[1..])
  }

  lemma PrimaryIsNeverLost(current: State, deeds: seq<Deed>)
    ensures current.primary.Some? ==> Projected(current, deeds).primary.Some?
  {
    hide Recent, Tally, Leaders, Settles, FirstCompound, Primary;
  }

  /** Since the last switch, when the deeds were `since`, the primary was leading. */
  lemma {:induction false} SwitchesSince(current: State, q: Category, since: seq<Deed>, more: seq<Deed>,
                                         batches: seq<seq<Deed>>)
    requires current.primary == Some(q) && forall c :: Lead(Chronicle(since), q, c) >= 0
    ensures 2 * Switches(current, since + more, batches) <= |Filter(more, IsDurable)| + DurableCount(batches)
    decreases |batches|, 0
  {
    hide Chronicle, Lead, Projected, Filter;
    if batches != [] {
      var all, later := since + more + batches[0], more + batches[0];
      var next := Projected(current, all);
      assert all == since + later;
      FilterJoin(more, batches[0], IsDurable);
      PrimaryIsNeverLost(current, all);
      var r := next.primary.value;
      if r != q {
        SwitchNeedsLead(current, all, q, r);
        BatchMovesLead(since, later, q, r);
        LeadIsOpposite(Chronicle(all), q, r);
        assert Lead(Chronicle(since), q, r) >= 0;
        SwitchesFrom(next, r, all, batches[1..]);
      } else {
        SwitchesSince(next, q, since, later, batches[1..]);
      }
    }
  }

  lemma SwitchesFrom(current: State, q: Category, deeds: seq<Deed>, batches: seq<seq<Deed>>)
    requires current.primary == Some(q) && forall c :: Lead(Chronicle(deeds), q, c) >= 0
    ensures 2 * Switches(current, deeds, batches) <= DurableCount(batches)
    decreases |batches|, 1
  {
    hide Chronicle, Lead, Projected;
    assert deeds + [] == deeds;
    SwitchesSince(current, q, deeds, [], batches);
  }

  lemma LeadIsOpposite(s: seq<Deed>, p: Category, q: Category)
    ensures Lead(s, p, q) == -Lead(s, q, p)
  {}

  /** Main result: over any run, in whatever order the deeds arrive, every switch of
      primary after the first costs at least two durable deeds. */
  lemma {:induction false} SwitchesAreRare(current: State, deeds: seq<Deed>, batches: seq<seq<Deed>>)
    ensures 2 * Switches(current, deeds, batches) <= DurableCount(batches) + 2
    decreases |batches|
  {
    hide Chronicle, Lead, Projected, Filter;
    if batches != [] {
      var all := deeds + batches[0];
      var next := Projected(current, all);
      if IsSwitch(current, next) {
        SwitchNeedsLead(current, all, current.primary.value, next.primary.value);
        SwitchesFrom(next, next.primary.value, all, batches[1..]);
      } else {
        SwitchesAreRare(next, all, batches[1..]);
      }
    }
  }
}
