/**
  What a packed prompt promises, for every prompt.  The original's unchecked
  32-bit sums wrap when the system and pinned texts alone come to 2^32 estimated
  tokens (`Fits` fails); nothing else can wrap or saturate.
 */
module PackingLaws {
  import opened Options
  import opened Sequences
  import opened PromptPacking
  import opened Whitespace

  /** The true cost of what is sent whatever the budget. */
  function CommittedCost(system: seq<Segment>, user: seq<Segment>): nat {
    Sum(Fresh(system, {}), Weigh) + Sum(Filter(Candidates(system, user), IsPinned), Weigh)
  }

  predicate Fits(system: seq<Segment>, user: seq<Segment>) {
    CommittedCost(system, user) <= U32_MAX
  }

  // ----------------------------------------------------------- deduplication

  lemma {:induction false} SeenMeans(segments: seq<Segment>, seen: set<string>, text: string)
    ensures text in SeenAfter(segments, seen)
       <==> text in seen || (text != "" && exists i :: 0 <= i < |segments| && Text(segments[i]) == text)
    decreases |segments|
  {
    if segments != [] {
      var front, last := segments[..|segments| - 1], segments[|segments| - 1];
      SeenMeans(front, seen, text);
      if text in SeenAfter(front, seen) && text !in seen {
        var i :| 0 <= i < |front| && Text(front[i]) == text;
        assert Text(segments[i]) == text;
      }
      if i :| 0 <= i < |segments| && Text(segments[i]) == text {
        if i < |front| {
          assert Text(front[i]) == text;
        }
      }
      hide Text;
    }
  }

  /** The position holds the first segment with its text, and that is not blank. */
  predicate IsFirst(segments: seq<Segment>, seen: set<string>, i: nat)
    requires i < |segments|
  {
    && Text(segments[i]) != "" && Text(segments[i]) !in seen
    && forall j :: 0 <= j < i ==> Text(segments[j]) != Text(segments[i])
  }

  lemma FreshMeansFirst(segments: seq<Segment>, seen: set<string>, i: nat)
    requires i < |segments|
    ensures IsFresh(segments[i], SeenAfter(segments[..i], seen)) <==> IsFirst(segments, seen, i)
  {
    SeenMeans(segments[..i], seen, Text(segments[i]));
    assert forall j :: 0 <= j < i ==> segments[..i][j] == segments[j];
    hide Text;
  }

  predicate StandsFirst(segments: seq<Segment>, seen: set<string>, c: Candidate) {
    c.index < |segments| && c.segment == segments[c.index] && IsFirst(segments, seen, c.index)
  }

  lemma StandsFirstInLonger(segments: seq<Segment>, n: nat, seen: set<string>, c: Candidate)
    requires n <= |segments|
    ensures StandsFirst(segments[..n], seen, c) <==> c.index < n && StandsFirst(segments, seen, c)
  {
    if c.index < n {
      FirstInPrefix(segments, n, seen, c.index);
    }
    hide IsFirst;
  }

  /** Exactly the first segments with their texts are fresh, */
  lemma {:induction false} FreshAreTheFirst(segments: seq<Segment>, seen: set<string>, c: Candidate)
    ensures c in Fresh(segments, seen) <==> StandsFirst(segments, seen, c)
    decreases |segments|
  {
    if segments != [] {
      var n := |segments| - 1;
      FreshAreTheFirst(segments[..n], seen, c);
      FreshMeansFirst(segments, seen, n);
      StandsFirstInLonger(segments, n, seen, c);
      hide IsFirst;
      hide IsFresh;
    }
  }

  /** In their order. */
  lemma {:induction false} FreshAscend(segments: seq<Segment>, seen: set<string>)
    ensures Ascending(Fresh(segments, seen), Precedes)
    decreases |segments|
  {
    if segments != [] {
      var front := segments[..|segments| - 1];
      FreshAscend(front, seen);
      var firsts := Fresh(front, seen);
      forall i | 0 <= i < |firsts| ensures firsts[i].index < |front| {
        FreshAreTheFirst(front, seen, firsts[i]);
      }
      hide IsFresh;
    }
  }

  lemma FirstInPrefix(segments: seq<Segment>, n: nat, seen: set<string>, i: nat)
    requires i < n <= |segments|
    ensures IsFirst(segments[..n], seen, i) <==> IsFirst(segments, seen, i)
  {
    hide Text;
    assert forall j :: 0 <= j < n ==> segments[..n][j] == segments[j];
  }

  lemma AscendingIsDistinct(s: seq<Candidate>)
    requires Ascending(s, Precedes)
    ensures Distinct(s)
  {}

  /** A segment's text appears among the system texts. */
  predicate InSystem(system: seq<Segment>, text: string) {
    exists i :: 0 <= i < |system| && Text(system[i]) == text
  }

  lemma CandidatesAscend(system: seq<Segment>, user: seq<Segment>)
    ensures Ascending(Candidates(system, user), Precedes) && Distinct(Candidates(system, user))
  {
    FreshAscend(user, SeenAfter(system, {}));
    AscendingIsDistinct(Candidates(system, user));
  }

  // ---------------------------------------------------------------- ordering

  /** Positions tell the elements apart. */
  ghost predicate Indexed(s: seq<Candidate>) {
    forall a, b :: a in s && b in s && a.index == b.index ==> a == b
  }

  lemma AscendingIsIndexed(s: seq<Candidate>)
    requires Ascending(s, Precedes)
    ensures Indexed(s)
  {
    forall i, j | 0 <= i < j < |s| ensures s[i].index != s[j].index {
      assert Precedes(s[i], s[j]);
    }
    forall a, b | a in s && b in s && a.index == b.index ensures a == b {
      var i :| 0 <= i < |s| && s[i] == a;
      var j :| 0 <= j < |s| && s[j] == b;
    }
  }

  lemma OrdersAreTotal(s: seq<Candidate>)
    requires Indexed(s)
    ensures TotalOn(Precedes, s) && TotalOn(Outranks, s)
  {}

  // ---------------------------------------------------------------- wrapping

  lemma RemainderIsUnique(n: nat, q: int, r: U32)
    requires n == 0x1_0000_0000 * q + r
    ensures Wrapped(n) == r
  {}

  lemma SmallIsKept(n: nat)
    ensures Wrapped(n) == n <==> n <= U32_MAX
  {}

  /** Wrapping before adding changes nothing. */
  lemma WrapsOnce(a: nat, b: nat)
    ensures Wrapped(Wrapped(a) + b) == Wrapped(a + b)
  {
    var q, p, r := a / 0x1_0000_0000, (a + b) / 0x1_0000_0000, Wrapped(a + b);
    assert a == 0x1_0000_0000 * q + Wrapped(a) && a + b == 0x1_0000_0000 * p + r;
    hide Wrapped;
    RemainderIsUnique(Wrapped(a) + b, p - q, r);
  }

  // ----------------------------------------------------------------- packing

  lemma SumWithOneMore(s: seq<Candidate>, c: Candidate)
    ensures Sum(s + [c], Weigh) == Sum(s, Weigh) + Cost(c.segment)
  {
    assert (s + [c])[..|s|] == s;
  }

  lemma PackNothing(used: U32, budget: Allowance)
    ensures Pack([], used, budget) == Packing(used, [], 0) && Sum([], Weigh) == 0
  {}

  lemma PackOneMore(front: seq<Candidate>, last: Candidate, used: U32, budget: Allowance)
    ensures var p, q, n := Pack(front, used, budget), Pack(front + [last], used, budget), Cost(last.segment);
            q == if SaturatingAdd(p.used, n) <= budget then Packing(SaturatingAdd(p.used, n), p.kept + [last], p.dropped)
                 else Packing(p.used, p.kept, WrappingAdd(p.dropped, 1))
  {
    assert (front + [last])[..|front|] == front;
    hide Cost;
  }

  /** What is kept fits a budget below the largest number, so nothing saturates. */
  lemma {:induction false} PackSpends(optional: seq<Candidate>, used: U32, budget: Allowance)
    ensures var p := Pack(optional, used, budget); p.used == used + Sum(p.kept, Weigh)
    decreases |optional|
  {
    hide Sum, Tokens, Cost, Pack, WrappingAdd;
    if optional == [] {
      PackNothing(used, budget);
    } else {
      var front, last := optional[..|optional| - 1], optional[|optional| - 1];
      assert optional == front + [last];
      PackSpends(front, used, budget);
      SumWithOneMore(Pack(front, used, budget).kept, last);
      PackOneMore(front, last, used, budget);
    }
  }

  /** The dropped ones are counted, as far as 32 bits count. */
  lemma {:induction false} PackCounts(optional: seq<Candidate>, used: U32, budget: Allowance)
    ensures var p := Pack(optional, used, budget);
            |p.kept| <= |optional| && p.dropped == Wrapped(|optional| - |p.kept|)
    decreases |optional|
  {
    if optional != [] {
      var front, last := optional[..|optional| - 1], optional[|optional| - 1];
      assert optional == front + [last];
      PackCounts(front, used, budget);
      PackOneMore(front, last, used, budget);
      WrapsOnce(|front| - |Pack(front, used, budget).kept|, 1);
      hide Pack, Cost, SaturatingAdd, Wrapped;
    }
  }

  lemma {:induction false} PackStaysWithin(optional: seq<Candidate>, used: U32, budget: Allowance)
    ensures var p := Pack(optional, used, budget);
            && (used <= budget ==> p.used <= budget)
            && (used > budget ==> p.used == used && p.kept == [])
    decreases |optional|
  {
    if optional != [] {
      PackStaysWithin(optional[..|optional| - 1], used, budget);
      hide Tokens;
    }
  }

  lemma {:induction false} PackTakesAllThatFits(optional: seq<Candidate>, used: U32, budget: Allowance)
    requires used + Sum(optional, Weigh) <= budget
    ensures Pack(optional, used, budget).kept == optional
    ensures Pack(optional, used, budget).used == used + Sum(optional, Weigh)
    decreases |optional|
  {
    hide Sum, Tokens, Cost, Pack, WrappingAdd;
    if optional == [] {
      PackNothing(used, budget);
    } else {
      var front, last := optional[..|optional| - 1], optional[|optional| - 1];
      assert optional == front + [last];
      SumWithOneMore(front, last);
      PackTakesAllThatFits(front, used, budget);
      PackOneMore(front, last, used, budget);
    }
  }

  predicate StandsFrom(s: seq<Candidate>, k: nat, c: Candidate) {
    exists j :: k <= j < |s| && s[j] == c
  }

  lemma StandsFromInLonger(s: seq<Candidate>, n: nat, k: nat, c: Candidate)
    requires n <= |s| && StandsFrom(s[..n], k, c)
    ensures StandsFrom(s, k, c)
  {
    var j :| k <= j < n && s[..n][j] == c;
    assert s[j] == c;
  }

  /** What is kept of a list begins with what is kept of its prefix. */
  lemma {:induction false} PackSplits(optional: seq<Candidate>, used: U32, budget: Allowance, k: nat) returns (rest: seq<Candidate>)
    requires k <= |optional|
    ensures Pack(optional, used, budget).kept == Pack(optional[..k], used, budget).kept + rest
    ensures forall c :: c in rest ==> StandsFrom(optional, k, c)
    decreases |optional|
  {
    hide Pack, SaturatingAdd, Cost, WrappingAdd;
    if k == |optional| {
      assert optional[..k] == optional;
      rest := [];
    } else {
      var n := |optional| - 1;
      var front, last := optional[..n], optional[n];
      assert optional == front + [last];
      assert front[..k] == optional[..k];
      var before := PackSplits(front, used, budget, k);
      PackOneMore(front, last, used, budget);
      forall c | c in before ensures StandsFrom(optional, k, c) {
        StandsFromInLonger(optional, n, k, c);
      }
      assert StandsFrom(optional, k, optional[n]);
      hide StandsFrom;
      rest := if SaturatingAdd(Pack(front, used, budget).used, Cost(last.segment)) <= budget then before + [last]
              else before;
    }
  }

  lemma PackKeepsMembers(optional: seq<Candidate>, used: U32, budget: Allowance)
    ensures forall c :: c in Pack(optional, used, budget).kept ==> c in optional
  {
    var rest := PackSplits(optional, used, budget, 0);
    forall c | c in Pack(optional, used, budget).kept ensures c in optional {
      assert c in rest;
    }
  }

  /** A candidate is kept exactly when it fits beside what was kept before it. */
  lemma PackKeepsIff(optional: seq<Candidate>, used: U32, budget: Allowance, k: nat)
    requires k < |optional| && Distinct(optional)
    ensures optional[k] in Pack(optional, used, budget).kept
       <==> SaturatingAdd(Pack(optional[..k], used, budget).used, Weigh(optional[k])) <= budget
  {
    var c := optional[k];
    var rest := PackSplits(optional, used, budget, k + 1);
    PackKeepsMembers(optional[..k], used, budget);
    assert optional[..k + 1][..k] == optional[..k];
    assert c !in optional[..k] && c !in rest;
    hide Weigh;
  }

  // -------------------------------------------------------------- accounting

  /** Pinned and optional candidates are all candidates. */
  lemma {:induction false} PinnedOrOptional(s: seq<Candidate>)
    ensures Sum(Filter(s, IsPinned), Weigh) + Sum(Filter(s, IsOptional), Weigh) == Sum(s, Weigh)
    ensures |Filter(s, IsPinned)| + |Filter(s, IsOptional)| == |s|
    decreases |s|
  {
    if s != [] {
      var front, last := s[..|s| - 1], s[|s| - 1];
      PinnedOrOptional(front);
      assert s == front + [last];
      SumWithOneMore(front, last);
      SumWithOneMore(Filter(front, IsPinned), last);
      SumWithOneMore(Filter(front, IsOptional), last);
      hide Sum;
      if IsPinned(last) {
        assert Filter(s, IsPinned) == Filter(front, IsPinned) + [last];
        assert Filter(s, IsOptional) == Filter(front, IsOptional);
      } else {
        assert Filter(s, IsOptional) == Filter(front, IsOptional) + [last];
        assert Filter(s, IsPinned) == Filter(front, IsPinned);
      }
    }
  }

  lemma RankedCost(system: seq<Segment>, user: seq<Segment>)
    ensures multiset(Ranked(system, user)) == multiset(Filter(Candidates(system, user), IsOptional))
    ensures Sum(Ranked(system, user), Weigh) == Sum(Filter(Candidates(system, user), IsOptional), Weigh)
    ensures |Ranked(system, user)| == |Filter(Candidates(system, user), IsOptional)|
  {
    hide Sort, Filter, Sum, Candidates;
    var optional := Filter(Candidates(system, user), IsOptional);
    SortKeeps(optional, Outranks);
    SumPermutes(Ranked(system, user), optional, Weigh);
    SameElements(Ranked(system, user), optional);
  }

  /** The committed tokens are computed modulo 2^32, hence exactly when they fit. */
  lemma CommittedIsExact(system: seq<Segment>, user: seq<Segment>)
    ensures Committed(system, user) == Wrapped(CommittedCost(system, user))
    ensures Committed(system, user) == CommittedCost(system, user) <==> Fits(system, user)
  {
    hide Fresh, Filter, Sum, Candidates;
    var a, b := Sum(Fresh(system, {}), Weigh), Sum(Filter(Candidates(system, user), IsPinned), Weigh);
    WrapsOnce(a, Wrapped(b));
    WrapsOnce(b, a);
    SmallIsKept(a + b);
    hide Wrapped;
  }

  // ---------------------------------------------------------- the main results

  /** What stands in the output, before sorting it back. */
  function Kept(system: seq<Segment>, user: seq<Segment>, budget: Allowance): seq<Candidate> {
    Pack(Ranked(system, user), Committed(system, user), budget).kept
  }

  lemma SelectedAre(system: seq<Segment>, user: seq<Segment>, budget: Allowance)
    ensures multiset(Lay(system, user, budget).selected)
         == multiset(Filter(Candidates(system, user), IsPinned) + Kept(system, user, budget))
  {
    hide Sort, Filter, Candidates, Ranked, Pack;
    SortKeeps(Filter(Candidates(system, user), IsPinned) + Kept(system, user, budget), Precedes);
  }

  lemma RankedMembers(system: seq<Segment>, user: seq<Segment>, c: Candidate)
    ensures c in Ranked(system, user) <==> c in Candidates(system, user) && !c.segment.pinned
  {
    hide Sort, Filter, Candidates;
    SortMembers(Filter(Candidates(system, user), IsOptional), Outranks);
    FilterMembers(Candidates(system, user), IsOptional, c);
  }

  lemma SelectedMembers(system: seq<Segment>, user: seq<Segment>, budget: Allowance, c: Candidate)
    ensures c in Lay(system, user, budget).selected
       <==> c in Candidates(system, user) && (c.segment.pinned || c in Kept(system, user, budget))
  {
    hide Sort, Filter, Candidates, Ranked, Pack, Lay, Kept;
    SelectedAre(system, user, budget);
    var all := Filter(Candidates(system, user), IsPinned) + Kept(system, user, budget);
    SameElements(Lay(system, user, budget).selected, all);
    FilterMembers(Candidates(system, user), IsPinned, c);
    KeptAreRanked(system, user, budget);
    RankedMembers(system, user, c);
  }

  lemma KeptAreRanked(system: seq<Segment>, user: seq<Segment>, budget: Allowance)
    ensures forall c :: c in Kept(system, user, budget) ==> c in Ranked(system, user)
  {
    hide Ranked, Pack;
    PackKeepsMembers(Ranked(system, user), Committed(system, user), budget);
  }

  /** Every segment of the output is a first occurrence in the user list. */
  lemma SelectedAreCandidates(system: seq<Segment>, user: seq<Segment>, budget: Allowance)
    ensures forall c :: c in Lay(system, user, budget).selected ==> c in Candidates(system, user)
  {
    hide Lay, Candidates;
    forall c | c in Lay(system, user, budget).selected ensures c in Candidates(system, user) {
      SelectedMembers(system, user, budget, c);
    }
  }

  lemma DistinctJoin(a: seq<Candidate>, b: seq<Candidate>)
    requires Distinct(a) && Distinct(b) && (forall x :: x in a && x in b ==> false)
    ensures Distinct(a + b)
  {
    var s := a + b;
    forall i, j | 0 <= i < j < |s| ensures s[i] != s[j] {
      if i < |a| <= j {
        assert s[i] in a && s[j] in b;
      }
    }
  }

  lemma {:induction false} PackKeepsDistinct(optional: seq<Candidate>, used: U32, budget: Allowance)
    requires Distinct(optional)
    ensures Distinct(Pack(optional, used, budget).kept)
    decreases |optional|
  {
    if optional != [] {
      var front, last := optional[..|optional| - 1], optional[|optional| - 1];
      PackKeepsDistinct(front, used, budget);
      PackKeepsMembers(front, used, budget);
      hide Weigh;
      assert last !in front;
      DistinctJoin(Pack(front, used, budget).kept, [last]);
    }
  }

  lemma RankedIsDistinct(system: seq<Segment>, user: seq<Segment>)
    ensures Distinct(Ranked(system, user)) && Ascending(Ranked(system, user), Outranks)
  {
    var all := Candidates(system, user);
    CandidatesAscend(system, user);
    hide Candidates;
    AscendingIsIndexed(all);
    FilterDistinct(all, IsOptional);
    var optional := Filter(all, IsOptional);
    forall c | c in optional ensures c in all {
      FilterMembers(all, IsOptional, c);
    }
    OrdersAreTotal(optional);
    SortAscends(optional, Outranks);
    hide Filter, Sort;
    forall i, j | 0 <= i < j < |Ranked(system, user)| ensures Ranked(system, user)[i] != Ranked(system, user)[j] {
      assert Outranks(Ranked(system, user)[i], Ranked(system, user)[j]);
    }
  }

  /** The output keeps the order of the input and takes nothing twice. */
  lemma OutputKeepsOrder(system: seq<Segment>, user: seq<Segment>, budget: Allowance)
    ensures Ascending(Lay(system, user, budget).selected, Precedes)
  {
    var all := Candidates(system, user);
    CandidatesAscend(system, user);
    hide Candidates, Ranked, Committed;
    AscendingIsIndexed(all);
    FilterDistinct(all, IsPinned);
    RankedIsDistinct(system, user);
    PackKeepsDistinct(Ranked(system, user), Committed(system, user), budget);
    KeptAreRanked(system, user, budget);
    var pinned, kept := Filter(all, IsPinned), Kept(system, user, budget);
    forall c ensures (c in pinned ==> c in all && c.segment.pinned) && (c in kept ==> c in all && !c.segment.pinned) {
      FilterMembers(all, IsPinned, c);
      RankedMembers(system, user, c);
    }
    hide Filter, Sort, Pack;
    DistinctJoin(pinned, kept);
    OrdersAreTotal(pinned + kept);
    SortAscends(pinned + kept, Precedes);
  }

  lemma SelectedMeans(system: seq<Segment>, user: seq<Segment>, budget: Allowance, c: Candidate)
    requires c in Lay(system, user, budget).selected
    ensures StandsFirst(user, SeenAfter(system, {}), c) && !InSystem(system, Text(c.segment))
  {
    SelectedAreCandidates(system, user, budget);
    FreshAreTheFirst(user, SeenAfter(system, {}), c);
    SeenMeans(system, {}, Text(c.segment));
    hide Lay, Text, Fresh, SeenAfter;
  }

  /** Main result: the output is an order-preserving, duplicate-free part of the
      user list, and repeats no system text. */
  lemma OutputIsSubsequence(system: seq<Segment>, user: seq<Segment>, budget: Allowance, i: nat, j: nat)
    requires i < |Lay(system, user, budget).selected| && j < |Lay(system, user, budget).selected|
    ensures var c := Lay(system, user, budget).selected[i];
            c.index < |user| && c.segment == user[c.index] && Text(c.segment) != "" && !InSystem(system, Text(c.segment))
    ensures var s := Lay(system, user, budget).selected;
            i < j ==> s[i].index < s[j].index && Text(s[i].segment) != Text(s[j].segment)
  {
    hide Lay, Text, SeenAfter, InSystem;
    var s := Lay(system, user, budget).selected;
    OutputKeepsOrder(system, user, budget);
    SelectedMeans(system, user, budget, s[i]);
    SelectedMeans(system, user, budget, s[j]);
    if i < j {
      assert Precedes(s[i], s[j]);
    }
  }

  /** Main result: every pinned segment that survives deduplication is kept. */
  lemma PinnedSurvive(system: seq<Segment>, user: seq<Segment>, budget: Allowance, i: nat)
    requires i < |user| && user[i].pinned
    ensures Candidate(i, user[i]) in Lay(system, user, budget).selected
       <==> Text(user[i]) != "" && !InSystem(system, Text(user[i])) && forall j :: 0 <= j < i ==> Text(user[j]) != Text(user[i])
  {
    SelectedMembers(system, user, budget, Candidate(i, user[i]));
    FreshAreTheFirst(user, SeenAfter(system, {}), Candidate(i, user[i]));
    SeenMeans(system, {}, Text(user[i]));
    hide Lay, Text, Fresh, SeenAfter, Kept;
  }

  /** Main result: the estimate counts the committed tokens as computed and the
      optional ones sent exactly; so it is exactly what is sent if and only if the
      committed texts fit 32 bits.  Every candidate is sent or counted as dropped. */
  lemma EstimateIsExact(system: seq<Segment>, user: seq<Segment>, budget: Allowance)
    ensures var l := Lay(system, user, budget);
            && l.used == Committed(system, user) + (Sum(l.system + l.selected, Weigh) - CommittedCost(system, user))
            && (l.used == Sum(l.system + l.selected, Weigh) <==> Fits(system, user))
            && |l.selected| <= |Candidates(system, user)|
            && l.dropped == Wrapped(|Candidates(system, user)| - |l.selected|)
  {
    CommittedIsExact(system, user);
    hide Fresh, Candidates, Ranked, Committed, Pack, Sort, Filter, Sum;
    var l := Lay(system, user, budget);
    PackCounts(Ranked(system, user), Committed(system, user), budget);
    PackSpends(Ranked(system, user), Committed(system, user), budget);
    SelectedAre(system, user, budget);
    var pinned, kept := Filter(Candidates(system, user), IsPinned), Kept(system, user, budget);
    SumPermutes(l.selected, pinned + kept, Weigh);
    SameElements(l.selected, pinned + kept);
    SumOfJoin(pinned, kept, Weigh);
    SumOfJoin(l.system, l.selected, Weigh);
    PinnedOrOptional(Candidates(system, user));
    RankedCost(system, user);
  }

  /** Main result: overflow is reported if and only if the committed tokens as
      computed exceed the budget, and then nothing optional is sent.  The report is
      right if and only if the committed texts fit 32 bits or exceed the budget
      even wrapped. */
  lemma OverflowIff(system: seq<Segment>, user: seq<Segment>, budget: Allowance)
    ensures var l := Lay(system, user, budget);
            && (l.used > budget <==> Committed(system, user) > budget)
            && (l.used > budget ==> forall c :: c in l.selected ==> c.segment.pinned)
            && ((l.used > budget <==> CommittedCost(system, user) > budget)
                <==> Fits(system, user) || Committed(system, user) > budget)
  {
    CommittedIsExact(system, user);
    hide Fresh, Candidates, Ranked, Committed, Pack, Sort, Filter, Sum;
    PackStaysWithin(Ranked(system, user), Committed(system, user), budget);
    var l := Lay(system, user, budget);
    if l.used > budget {
      forall c | c in l.selected ensures c.segment.pinned {
        SelectedMembers(system, user, budget, c);
      }
    }
  }

  lemma KindGrows(s: seq<Candidate>, c: Candidate, kind: SegmentKind)
    ensures Sum(Filter(s + [c], OfKind(kind)), Weigh)
         == Sum(Filter(s, OfKind(kind)), Weigh) + if c.segment.kind == kind then Cost(c.segment) else 0
  {
    assert (s + [c])[..|s|] == s;
    SumWithOneMore(Filter(s, OfKind(kind)), c);
    hide Sum;
    if c.segment.kind != kind {
      assert Filter(s + [c], OfKind(kind)) == Filter(s, OfKind(kind));
    }
  }

  function CostOfKinds(s: seq<Candidate>): nat {
    Sum(Filter(s, OfKind(UniqueEvidence)), Weigh) + Sum(Filter(s, OfKind(SharedPolicy)), Weigh)
    + Sum(Filter(s, OfKind(Envelope)), Weigh)
  }

  lemma KindsOfOneMore(s: seq<Candidate>, c: Candidate)
    ensures CostOfKinds(s + [c]) == CostOfKinds(s) + Cost(c.segment)
  {
    hide Sum, Filter, OfKind, Cost;
    KindGrows(s, c, UniqueEvidence);
    KindGrows(s, c, SharedPolicy);
    KindGrows(s, c, Envelope);
  }

  lemma {:induction false} KindsAddUp(s: seq<Candidate>)
    ensures CostOfKinds(s) == Sum(s, Weigh)
    decreases |s|
  {
    if s != [] {
      hide CostOfKinds, Sum;
      var front, last := s[..|s| - 1], s[|s| - 1];
      KindsAddUp(front);
      assert s == front + [last];
      SumWithOneMore(front, last);
      KindsOfOneMore(front, last);
    }
  }

  lemma PartsWrap(a: nat, b: nat, c: nat)
    ensures Wrapped(Wrapped(a) + Wrapped(b) + Wrapped(c)) == Wrapped(a + b + c)
    ensures a + b + c <= U32_MAX ==> Wrapped(a) + Wrapped(b) + Wrapped(c) == a + b + c
  {
    SmallIsKept(a);
    SmallIsKept(b);
    SmallIsKept(c);
    WrapsOnce(a, Wrapped(b) + Wrapped(c));
    WrapsOnce(b, a + Wrapped(c));
    WrapsOnce(c, a + b);
    hide Wrapped;
  }

  /** Main result: the tokens reported for the kinds add up to the estimate, modulo
      2^32 always, and exactly when the committed texts fit 32 bits. */
  lemma KindTokensAddUp(system: seq<Segment>, user: seq<Segment>, budget: Allowance)
    ensures var l := Lay(system, user, budget);
            var sum := TokensFor(l, UniqueEvidence) + TokensFor(l, SharedPolicy) + TokensFor(l, Envelope);
            Wrapped(sum) == l.used && (Fits(system, user) ==> sum == l.used)
  {
    var l := Lay(system, user, budget);
    EstimateIsExact(system, user, budget);
    CommittedIsExact(system, user);
    CommittedIsPartOfIt(system, user, budget);
    hide Lay, Sum, Filter, Committed, CommittedCost;
    var s := l.system + l.selected;
    KindsAddUp(s);
    WrapsOnce(CommittedCost(system, user), Sum(s, Weigh) - CommittedCost(system, user));
    SmallIsKept(l.used);
    PartsWrap(Sum(Filter(s, OfKind(UniqueEvidence)), Weigh), Sum(Filter(s, OfKind(SharedPolicy)), Weigh),
              Sum(Filter(s, OfKind(Envelope)), Weigh));
    hide OfKind, Wrapped;
  }

  lemma CommittedIsPartOfIt(system: seq<Segment>, user: seq<Segment>, budget: Allowance)
    ensures var l := Lay(system, user, budget); CommittedCost(system, user) <= Sum(l.system + l.selected, Weigh)
  {
    hide Fresh, Candidates, Kept, Filter, Sum, Sort;
    var l := Lay(system, user, budget);
    SelectedAre(system, user, budget);
    var pinned, kept := Filter(Candidates(system, user), IsPinned), Kept(system, user, budget);
    SumPermutes(l.selected, pinned + kept, Weigh);
    SumOfJoin(pinned, kept, Weigh);
    SumOfJoin(l.system, l.selected, Weigh);
  }

  /** The optional candidates before `c` in rank. */
  function Ahead(c: Candidate): Candidate -> bool {
    (o: Candidate) => !o.segment.pinned && Outranks(o, c)
  }

  /** The committed tokens, and those of the optional segments sent that rank
      before `c`. */
  function TokensAhead(system: seq<Segment>, user: seq<Segment>, budget: Allowance, c: Candidate): nat {
    Committed(system, user) + Sum(Filter(Lay(system, user, budget).selected, Ahead(c)), Weigh)
  }

  /** In rank order, what is kept and outranks the `k`-th is what was kept before it. */
  lemma KeptAhead(optional: seq<Candidate>, used: U32, budget: Allowance, k: nat)
    requires k < |optional| && Ascending(optional, Outranks) && forall c :: c in optional ==> !c.segment.pinned
    ensures Filter(Pack(optional, used, budget).kept, Ahead(optional[k])) == Pack(optional[..k], used, budget).kept
  {
    hide Pack, Outranks;
    var c, first := optional[k], Pack(optional[..k], used, budget).kept;
    var rest := PackSplits(optional, used, budget, k);
    PackKeepsMembers(optional[..k], used, budget);
    FilterJoin(first, rest, Ahead(c));
    forall o | o in first ensures Ahead(c)(o) {
      var i :| 0 <= i < k && optional[..k][i] == o;
      assert optional[i] == o && o in optional;
    }
    FilterAll(first, Ahead(c));
    forall o | o in rest ensures !Ahead(c)(o) {
      var j :| k <= j < |optional| && optional[j] == o;
      NotAhead(optional, k, j);
    }
    FilterNone(rest, Ahead(c));
  }

  lemma NotAhead(optional: seq<Candidate>, k: nat, j: nat)
    requires k <= j < |optional| && Ascending(optional, Outranks)
    ensures !Outranks(optional[j], optional[k])
  {
    if k < j {
      assert Outranks(optional[k], optional[j]);
    }
  }

  lemma AheadIsKept(system: seq<Segment>, user: seq<Segment>, budget: Allowance, k: nat)
    requires k < |Ranked(system, user)|
    ensures Sum(Filter(Lay(system, user, budget).selected, Ahead(Ranked(system, user)[k])), Weigh)
         == Sum(Pack(Ranked(system, user)[..k], Committed(system, user), budget).kept, Weigh)
  {
    var ranked, c := Ranked(system, user), Ranked(system, user)[k];
    var selected, all := Lay(system, user, budget).selected, Candidates(system, user);
    var pinned, kept := Filter(all, IsPinned), Kept(system, user, budget);
    SelectedAre(system, user, budget);
    RankedIsDistinct(system, user);
    forall o ensures (o in pinned ==> o.segment.pinned) && (o in ranked ==> !o.segment.pinned) {
      FilterMembers(all, IsPinned, o);
      RankedMembers(system, user, o);
    }
    hide Lay, Candidates, Ranked, Pack, Filter, Committed;
    FilterPermutes(selected, pinned + kept, Ahead(c));
    SumPermutes(Filter(selected, Ahead(c)), Filter(pinned + kept, Ahead(c)), Weigh);
    FilterJoin(pinned, kept, Ahead(c));
    FilterNone(pinned, Ahead(c));
    KeptAhead(ranked, Committed(system, user), budget, k);
    assert [] + Filter(kept, Ahead(c)) == Filter(kept, Ahead(c));
  }

  /** Main result: an optional candidate is sent if and only if it fits beside the
      committed texts and the ones sent that rank before it.  So no dropped
      segment would have fitted there. */
  lemma SentIffItFits(system: seq<Segment>, user: seq<Segment>, budget: Allowance, c: Candidate)
    requires c in Candidates(system, user) && !c.segment.pinned
    ensures c in Lay(system, user, budget).selected
       <==> TokensAhead(system, user, budget, c) + Cost(c.segment) <= budget
  {
    hide Lay, Candidates, Ranked, Pack, Filter, Committed, Sum, Fresh;
    RankedMembers(system, user, c);
    SelectedMembers(system, user, budget, c);
    RankedIsDistinct(system, user);
    var ranked, used := Ranked(system, user), Committed(system, user);
    var k :| 0 <= k < |ranked| && ranked[k] == c;
    AheadIsKept(system, user, budget, k);
    PackSpends(ranked[..k], used, budget);
    PackKeepsIff(ranked, used, budget, k);
  }

  /** A prompt that does not overflow leaves the reply and the provider's reserve
      their room in the context; in a context too small for those two it consists
      of one estimated token at most. */
  lemma ReplyHasRoom(system: seq<Segment>, user: seq<Segment>, limit: Option<U32>, maxOutput: U32)
    requires !Render(system, user, limit, maxOutput).telemetry.overflowed
    ensures var reserve := Max(ContextLimit(limit) / 20, MIN_PROVIDER_RESERVE);
            var estimated := Render(system, user, limit, maxOutput).telemetry.estimated;
            if maxOutput + reserve < ContextLimit(limit) then estimated + maxOutput + reserve <= ContextLimit(limit)
            else estimated <= 1
  {
    hide Lay, Lines, TokensFor;
  }

  // ------------------------------------------------------------- stability

  function SegmentsOf(s: seq<Candidate>): (r: seq<Segment>)
    ensures |r| == |s| && forall i :: 0 <= i < |s| ==> r[i] == s[i].segment
  {
    seq(|s|, i requires 0 <= i < |s| => s[i].segment)
  }

  function Enumerated(segments: seq<Segment>): (r: seq<Candidate>)
    ensures |r| == |segments| && forall i :: 0 <= i < |r| ==> r[i] == Candidate(i, segments[i])
  {
    seq(|segments|, i requires 0 <= i < |segments| => Candidate(i, segments[i]))
  }

  predicate AllFirst(segments: seq<Segment>, seen: set<string>) {
    forall i :: 0 <= i < |segments| ==> IsFirst(segments, seen, i)
  }

  lemma {:induction false} AllFirstAreFresh(segments: seq<Segment>, seen: set<string>)
    requires AllFirst(segments, seen)
    ensures Fresh(segments, seen) == Enumerated(segments)
    decreases |segments|
  {
    hide IsFirst, IsFresh;
    if segments != [] {
      var n := |segments| - 1;
      forall i | 0 <= i < n ensures IsFirst(segments[..n], seen, i) {
        FirstInPrefix(segments, n, seen, i);
      }
      AllFirstAreFresh(segments[..n], seen);
      FreshMeansFirst(segments, seen, n);
      assert IsFirst(segments, seen, n);
      assert Enumerated(segments) == Enumerated(segments[..n]) + [Candidate(n, segments[n])];
    }
  }

  /** Renumbering changes neither the cost nor which ones are pinned. */
  lemma {:induction false} CostOfEnumerated(s: seq<Candidate>)
    ensures Sum(Enumerated(SegmentsOf(s)), Weigh) == Sum(s, Weigh)
    ensures Sum(Filter(Enumerated(SegmentsOf(s)), IsPinned), Weigh) == Sum(Filter(s, IsPinned), Weigh)
    decreases |s|
  {
    if s != [] {
      var front, last := s[..|s| - 1], s[|s| - 1];
      CostOfEnumerated(front);
      var e, x := Enumerated(SegmentsOf(front)), Candidate(|front|, last.segment);
      assert Enumerated(SegmentsOf(s)) == e + [x] && s == front + [last];
      hide SegmentsOf, Enumerated;
      SumWithOneMore(e, x);
      SumWithOneMore(front, last);
      PinnedWithOneMore(e, x);
      PinnedWithOneMore(front, last);
      hide Sum, Filter;
    }
  }

  lemma PinnedWithOneMore(s: seq<Candidate>, c: Candidate)
    ensures Sum(Filter(s + [c], IsPinned), Weigh)
         == Sum(Filter(s, IsPinned), Weigh) + if c.segment.pinned then Cost(c.segment) else 0
  {
    assert (s + [c])[..|s|] == s;
    SumWithOneMore(Filter(s, IsPinned), c);
    hide Sum;
    if !c.segment.pinned {
      assert Filter(s + [c], IsPinned) == Filter(s, IsPinned);
    }
  }

  /** Taken from a list in order, first occurrences stay first occurrences. */
  lemma FirstsStayFirst(segments: seq<Segment>, seen: set<string>, s: seq<Candidate>, seen': set<string>)
    requires Ascending(s, Precedes) && forall c :: c in s ==> StandsFirst(segments, seen, c)
    requires forall c :: c in s ==> Text(c.segment) !in seen'
    ensures AllFirst(SegmentsOf(s), seen')
  {
    hide Text;
    var r := SegmentsOf(s);
    forall i | 0 <= i < |r| ensures IsFirst(r, seen', i) {
      assert s[i] in s && StandsFirst(segments, seen, s[i]);
      forall j | 0 <= j < i ensures Text(r[j]) != Text(r[i]) {
        assert s[j] in s && StandsFirst(segments, seen, s[j]) && Precedes(s[j], s[i]);
      }
    }
  }

  lemma SystemStaysFresh(system: seq<Segment>)
    ensures Fresh(SegmentsOf(Fresh(system, {})), {}) == Enumerated(SegmentsOf(Fresh(system, {})))
  {
    var s := Fresh(system, {});
    FreshAscend(system, {});
    forall c | c in s ensures StandsFirst(system, {}, c) {
      FreshAreTheFirst(system, {}, c);
    }
    hide Fresh, StandsFirst;
    FirstsStayFirst(system, {}, s, {});
    AllFirstAreFresh(SegmentsOf(s), {});
  }

  lemma SelectedStayFresh(system: seq<Segment>, user: seq<Segment>, budget: Allowance)
    ensures var l := Lay(system, user, budget);
            Candidates(SegmentsOf(l.system), SegmentsOf(l.selected)) == Enumerated(SegmentsOf(l.selected))
  {
    var l := Lay(system, user, budget);
    assert l.system == Fresh(system, {});
    hide Lay, StandsFirst;
    var again, seen := SegmentsOf(l.system), SeenAfter(SegmentsOf(l.system), {});
    OutputKeepsOrder(system, user, budget);
    forall c | c in l.selected ensures StandsFirst(user, SeenAfter(system, {}), c) && Text(c.segment) !in seen {
      SelectedMeans(system, user, budget, c);
      RepeatsNoSystemText(system, Text(c.segment));
    }
    hide Fresh, SeenAfter, Text;
    FirstsStayFirst(user, SeenAfter(system, {}), l.selected, seen);
    AllFirstAreFresh(SegmentsOf(l.selected), seen);
  }

  lemma RepeatsNoSystemText(system: seq<Segment>, text: string)
    requires !InSystem(system, text)
    ensures text !in SeenAfter(SegmentsOf(Fresh(system, {})), {})
  {
    var s := Fresh(system, {});
    SeenMeans(SegmentsOf(s), {}, text);
    forall i | 0 <= i < |s| ensures Text(SegmentsOf(s)[i]) != text {
      FreshAreTheFirst(system, {}, s[i]);
      assert StandsFirst(system, {}, s[i]);
    }
    hide Fresh, Text;
  }

  lemma {:induction false} PinnedAndOptional(s: seq<Candidate>)
    ensures multiset(Filter(s, IsPinned) + Filter(s, IsOptional)) == multiset(s)
    decreases |s|
  {
    if s != [] {
      var front, last := s[..|s| - 1], s[|s| - 1];
      assert s == front + [last];
      PinnedAndOptional(front);
    }
  }

  /** When everything fits, or nothing is optional, the output is the input. */
  lemma AllIsSent(system: seq<Segment>, user: seq<Segment>, budget: Allowance)
    requires || Committed(system, user) + Sum(Ranked(system, user), Weigh) <= budget
             || forall c :: c in Candidates(system, user) ==> c.segment.pinned
    ensures Lay(system, user, budget).selected == Candidates(system, user)
  {
    var all := Candidates(system, user);
    var ranked := Ranked(system, user);
    CandidatesAscend(system, user);
    RankedCost(system, user);
    SelectedAre(system, user, budget);
    OutputKeepsOrder(system, user, budget);
    hide Lay, Candidates, Ranked, Committed, Sum;
    if Committed(system, user) + Sum(ranked, Weigh) <= budget {
      PackTakesAllThatFits(ranked, Committed(system, user), budget);
    } else {
      FilterNone(all, IsOptional);
      assert ranked == [];
    }
    hide Pack;
    assert multiset(Lay(system, user, budget).selected) == multiset(Filter(all, IsPinned) + Filter(all, IsOptional));
    PinnedAndOptional(all);
    hide Filter;
    AscendingIsIndexed(all);
    OrdersAreTotal(all);
    AscendingIsUnique(all, Lay(system, user, budget).selected, Precedes);
  }

  /** The pinned part of the output is all that was pinned. */
  lemma PinnedPartOfOutput(system: seq<Segment>, user: seq<Segment>, budget: Allowance)
    ensures Sum(Filter(Lay(system, user, budget).selected, IsPinned), Weigh)
         == Sum(Filter(Candidates(system, user), IsPinned), Weigh)
  {
    var all, selected := Candidates(system, user), Lay(system, user, budget).selected;
    var pinned, kept := Filter(all, IsPinned), Kept(system, user, budget);
    SelectedAre(system, user, budget);
    KeptAreRanked(system, user, budget);
    hide Lay, Candidates, Ranked, Kept;
    forall o ensures (o in pinned ==> o.segment.pinned) && (o in kept ==> !o.segment.pinned) {
      FilterMembers(all, IsPinned, o);
      RankedMembers(system, user, o);
    }
    FilterPermutes(selected, pinned + kept, IsPinned);
    FilterJoin(pinned, kept, IsPinned);
    FilterAll(pinned, IsPinned);
    FilterNone(kept, IsPinned);
    hide Filter, Sum;
    SumPermutes(Filter(selected, IsPinned), pinned, Weigh);
  }

  /** The output, taken as a prompt, commits what the prompt committed, and all of
      it together comes to the estimate. */
  lemma OutputCostsTheEstimate(system: seq<Segment>, user: seq<Segment>, budget: Allowance)
    ensures var l := Lay(system, user, budget);
            var s, u := SegmentsOf(l.system), SegmentsOf(l.selected);
            && Fresh(s, {}) == Enumerated(s) && Candidates(s, u) == Enumerated(u)
            && Committed(s, u) == Committed(system, user)
            && l.used == Committed(s, u) + Sum(Ranked(s, u), Weigh)
  {
    var l := Lay(system, user, budget);
    var s, u := SegmentsOf(l.system), SegmentsOf(l.selected);
    SystemStaysFresh(system);
    assert l.system == Fresh(system, {});
    SelectedStayFresh(system, user, budget);
    EstimateIsExact(system, user, budget);
    PinnedPartOfOutput(system, user, budget);
    CommittedIsExact(s, u);
    CommittedIsExact(system, user);
    hide Lay, Fresh, Candidates, Committed, Filter, Sum, SegmentsOf, Enumerated, Fits;
    CostOfEnumerated(l.system);
    CostOfEnumerated(l.selected);
    assert CommittedCost(s, u) == CommittedCost(system, user);
    SumOfJoin(l.system, l.selected, Weigh);
    PinnedOrOptional(Candidates(s, u));
    RankedCost(s, u);
    hide Ranked;
  }

  lemma NothingMoreToDrop(system: seq<Segment>, user: seq<Segment>, budget: Allowance)
    ensures var l := Lay(system, user, budget);
            Lay(SegmentsOf(l.system), SegmentsOf(l.selected), budget).selected == Enumerated(SegmentsOf(l.selected))
  {
    var l := Lay(system, user, budget);
    var s, u := SegmentsOf(l.system), SegmentsOf(l.selected);
    OutputCostsTheEstimate(system, user, budget);
    OverflowIff(system, user, budget);
    hide Lay, Fresh, Candidates, Committed, Ranked, Filter, Sum, Fits, CommittedCost;
    if l.used > budget {
      forall c | c in Enumerated(u) ensures c.segment.pinned {
        assert l.selected[c.index] in l.selected;
      }
    }
    hide SegmentsOf;
    AllIsSent(s, u, budget);
  }

  lemma UsedWhenAllIsSent(system: seq<Segment>, user: seq<Segment>, budget: Allowance)
    requires Lay(system, user, budget).selected == Candidates(system, user)
    ensures var l := Lay(system, user, budget);
            l.used == Committed(system, user) + Sum(Ranked(system, user), Weigh) && l.dropped == 0
  {
    EstimateIsExact(system, user, budget);
    var l := Lay(system, user, budget);
    assert l.system == Fresh(system, {});
    SmallIsKept(0);
    hide Lay, Fresh, Candidates, Sum, Fits, Committed, Ranked, Filter, Wrapped;
    SumOfJoin(l.system, l.selected, Weigh);
    PinnedOrOptional(Candidates(system, user));
    RankedCost(system, user);
  }

  /** Main result: packing its own output again changes nothing. */
  lemma PackingIsStable(system: seq<Segment>, user: seq<Segment>, budget: Allowance)
    ensures var l := Lay(system, user, budget);
            var again := Lay(SegmentsOf(l.system), SegmentsOf(l.selected), budget);
            && SegmentsOf(again.system) == SegmentsOf(l.system) && SegmentsOf(again.selected) == SegmentsOf(l.selected)
            && again.used == l.used && again.dropped == 0
  {
    var l := Lay(system, user, budget);
    var s, u := SegmentsOf(l.system), SegmentsOf(l.selected);
    NothingMoreToDrop(system, user, budget);
    OutputCostsTheEstimate(system, user, budget);
    var again := Lay(s, u, budget);
    assert again.system == Fresh(s, {});
    hide Lay, Fresh, Candidates, Sum, Committed, Ranked;
    UsedWhenAllIsSent(s, u, budget);
    SegmentsOfEnumerated(s);
    SegmentsOfEnumerated(u);
    hide SegmentsOf, Enumerated;
  }

  lemma SegmentsOfEnumerated(segments: seq<Segment>)
    ensures SegmentsOf(Enumerated(segments)) == segments
  {}

  // ---------------------------------------------------------- a concrete case

  function Block(c: char, n: nat): string {
    seq(n, _ => c)
  }

  /** Four system texts of 2^30 - 1 tokens each, and one of four tokens. */
  function Flood(): seq<Segment> {
    [Segment(Block('a', 0xFFFF_FFFC), SharedPolicy, 255, true), Segment(Block('b', 0xFFFF_FFFC), SharedPolicy, 255, true),
     Segment(Block('c', 0xFFFF_FFFC), SharedPolicy, 255, true), Segment(Block('d', 0xFFFF_FFFC), SharedPolicy, 255, true),
     Segment(Block('e', 13), SharedPolicy, 255, true)]
  }

  lemma BlockIsItsText(c: char, n: nat)
    requires n > 0 && !IsWhite(c)
    ensures Block(c, n) != "" && Block(c, n)[0] == c && Trim(Block(c, n)) == Block(c, n)
  {}

  lemma FloodIsFresh()
    ensures Fresh(Flood(), {}) == Enumerated(Flood())
  {
    var s := Flood();
    BlockIsItsText('a', 0xFFFF_FFFC);
    BlockIsItsText('b', 0xFFFF_FFFC);
    BlockIsItsText('c', 0xFFFF_FFFC);
    BlockIsItsText('d', 0xFFFF_FFFC);
    BlockIsItsText('e', 13);
    hide Trim, Block;
    forall i | 0 <= i < |s| ensures IsFirst(s, {}, i) {
      assert forall j :: 0 <= j < i ==> Text(s[j])[0] < Text(s[i])[0];
    }
    AllFirstAreFresh(s, {});
  }

  lemma FloodCosts()
    ensures Sum(Enumerated(Flood()), Weigh) == 0x1_0000_0000
  {
    var s, e := Flood(), Enumerated(Flood());
    assert Cost(s[0]) == Cost(s[1]) == Cost(s[2]) == Cost(s[3]) == 0x3FFF_FFFF && Cost(s[4]) == 4;
    hide Cost, Block;
    assert e == [] + [e[0]] + [e[1]] + [e[2]] + [e[3]] + [e[4]];
    SumWithOneMore([], e[0]);
    SumWithOneMore([] + [e[0]], e[1]);
    SumWithOneMore([] + [e[0]] + [e[1]], e[2]);
    SumWithOneMore([] + [e[0]] + [e[1]] + [e[2]], e[3]);
    SumWithOneMore([] + [e[0]] + [e[1]] + [e[2]] + [e[3]], e[4]);
  }

  lemma SystemTextsAlone(system: seq<Segment>, budget: Allowance)
    ensures CommittedCost(system, []) == Sum(Fresh(system, {}), Weigh)
    ensures Lay(system, [], budget).used == Committed(system, [])
  {
    assert Candidates(system, []) == [];
    assert Ranked(system, []) == [];
  }

  /** 2^32 tokens of system text are estimated as none, and no overflow is reported. */
  lemma FloodGoesUnnoticed(budget: Allowance)
    ensures CommittedCost(Flood(), []) == 0x1_0000_0000 && Lay(Flood(), [], budget).used == 0
  {
    FloodIsFresh();
    FloodCosts();
    hide Flood, Fresh, Enumerated, Committed, CommittedCost, Lay, Sum;
    SystemTextsAlone(Flood(), budget);
    CommittedIsExact(Flood(), []);
  }
}
