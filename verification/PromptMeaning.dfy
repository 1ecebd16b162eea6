/**
  What a rendered prompt is, told without the packer's own helpers: how tokens are
  estimated, what the budget is, which segments are sent, in which texts, and what
  the telemetry says.
 */
module PromptMeaning {
  import opened Options
  import opened Sequences
  import opened Whitespace
  import opened PromptPacking
  import opened PackingLaws

  // -------------------------------------------------------- estimates and budget

  /** One token for every four characters begun, and one at least; the length is cut
      to 32 bits first, and just below their end the estimate is one too low. */
  lemma TokensMean(text: string)
    ensures var n, t := |text| % 0x1_0000_0000, Tokens(text);
            && (n == 0 ==> t == 1) && (0 < n <= 0xFFFF_FFFC ==> 4 * (t - 1) < n <= 4 * t) && (n > 0xFFFF_FFFC ==> t == 0x3FFF_FFFF)
  {}

  /** What the context leaves after the reply and the reserve, a twentieth of it or 256
      tokens if that is more; and one token at least. */
  lemma BudgetMeans(limit: Option<U32>, maxOutput: U32)
    ensures var context := if limit == None then 32768 else limit.value;
            var reserve := if context / 20 < 256 then 256 else context / 20;
            var left := context - maxOutput - reserve;
            ContextLimit(limit) == context && Budget(limit, maxOutput) == if left < 1 then 1 else left
  {}

  // -------------------------------------------------------------- what stands out

  /** The first segment with its text, and that is not blank. */
  predicate First(segments: seq<Segment>, k: nat) {
    && k < |segments| && Trim(segments[k].text) != ""
    && forall j :: 0 <= j < k ==> Trim(segments[j].text) != Trim(segments[k].text)
  }

  /** And no system segment has that text. */
  predicate StandsOut(system: seq<Segment>, user: seq<Segment>, k: nat) {
    First(user, k) && forall j :: 0 <= j < |system| ==> Trim(system[j].text) != Trim(user[k].text)
  }

  function Firsts(system: seq<Segment>): set<nat> {
    set k | 0 <= k < |system| && First(system, k)
  }

  function Outstanding(system: seq<Segment>, user: seq<Segment>): set<nat> {
    set k | 0 <= k < |user| && StandsOut(system, user, k)
  }

  function PinnedOnes(system: seq<Segment>, user: seq<Segment>): set<nat> {
    set k | k in Outstanding(system, user) && user[k].pinned
  }

  /** Of these segments, those chosen, with their positions. */
  function Chosen(segments: seq<Segment>, chosen: set<nat>, n: nat): seq<Candidate>
    requires n <= |segments|
  {
    if n == 0 then []
    else Chosen(segments, chosen, n - 1) + if n - 1 in chosen then [Candidate(n - 1, segments[n - 1])] else []
  }

  /** What the chosen ones are estimated at together. */
  function CostOf(segments: seq<Segment>, chosen: set<nat>, n: nat): nat
    requires n <= |segments|
  {
    if n == 0 then 0 else CostOf(segments, chosen, n - 1) + if n - 1 in chosen then Tokens(segments[n - 1].text) else 0
  }

  lemma {:induction false} SumIsCost(segments: seq<Segment>, chosen: set<nat>, n: nat)
    requires n <= |segments|
    ensures Sum(Chosen(segments, chosen, n), Weigh) == CostOf(segments, chosen, n)
  {
    hide Tokens;
    if n > 0 {
      SumIsCost(segments, chosen, n - 1);
      var s := Chosen(segments, chosen, n - 1);
      if n - 1 in chosen {
        assert (s + [Candidate(n - 1, segments[n - 1])])[..|s|] == s;
      } else {
        assert s + [] == s;
      }
    }
  }

  lemma {:induction false} ChosenAre(segments: seq<Segment>, chosen: set<nat>, n: nat)
    requires n <= |segments|
    ensures forall c :: c in Chosen(segments, chosen, n) <==> c.index < n && c.index in chosen && c.segment == segments[c.index]
    ensures |Chosen(segments, chosen, n)| == |set k | k in chosen && k < n|
  {
    var now := set k | k in chosen && k < n;
    if n > 0 {
      ChosenAre(segments, chosen, n - 1);
      var before := set k | k in chosen && k < n - 1;
      assert now == before + if n - 1 in chosen then {n - 1} else {};
    } else {
      assert now == {};
    }
  }

  /** The texts of the candidates, in their order. */
  function TextsOf(s: seq<Candidate>): (r: seq<string>)
    ensures |r| == |s| && forall i :: 0 <= i < |s| ==> r[i] == Trim(s[i].segment.text)
  {
    seq(|s|, i requires 0 <= i < |s| => Trim(s[i].segment.text))
  }

  /** Texts with a line break between any two. */
  function Joined(texts: seq<string>): string {
    if texts == [] then "" else if |texts| == 1 then texts[0] else texts[0] + "\n" + Joined(texts[1..])
  }

  lemma {:induction false} JoiningOneMore(texts: seq<string>, last: string)
    requires texts != []
    ensures Joined(texts + [last]) == Joined(texts) + "\n" + last
  {
    if |texts| == 1 {
      assert (texts + [last])[1..] == [last];
    } else {
      assert (texts + [last])[1..] == texts[1..] + [last];
      JoiningOneMore(texts[1..], last);
      var first, rest := texts[0], Joined(texts[1..]);
      assert first + "\n" + (rest + "\n" + last) == (first + "\n" + rest) + "\n" + last;
    }
  }

  lemma {:induction false} LinesMean(s: seq<Candidate>)
    ensures Lines(s) == Joined(TextsOf(s))
    decreases |s|
  {
    hide Trim;
    if |s| == 1 {
      assert TextsOf(s) == [Text(s[0].segment)];
    } else if |s| > 1 {
      var front, last := s[..|s| - 1], s[|s| - 1];
      LinesMean(front);
      assert TextsOf(s) == TextsOf(front) + [Text(last.segment)];
      JoiningOneMore(TextsOf(front), Text(last.segment));
    }
  }

  // ------------------------------------------------------------- deduplication

  /** The positions that count as first when these texts have been seen. */
  function FirstsAfter(segments: seq<Segment>, seen: set<string>, n: nat): set<nat>
    requires n <= |segments|
  {
    set k | 0 <= k < n && IsFirst(segments, seen, k)
  }

  lemma {:induction false} SameChoice(segments: seq<Segment>, a: set<nat>, b: set<nat>, n: nat)
    requires n <= |segments| && forall k :: 0 <= k < n ==> (k in a <==> k in b)
    ensures Chosen(segments, a, n) == Chosen(segments, b, n) && CostOf(segments, a, n) == CostOf(segments, b, n)
  {
    hide Tokens;
    if n > 0 {
      SameChoice(segments, a, b, n - 1);
    }
  }

  lemma {:induction false} FreshAreChosen(segments: seq<Segment>, seen: set<string>, n: nat)
    requires n <= |segments|
    ensures Fresh(segments[..n], seen) == Chosen(segments, FirstsAfter(segments, seen, |segments|), n)
  {
    hide IsFirst, IsFresh, SeenAfter;
    if n > 0 {
      FreshAreChosen(segments, seen, n - 1);
      FreshMeansFirst(segments, seen, n - 1);
      assert segments[..n][..n - 1] == segments[..n - 1];
    }
  }

  lemma SystemFirsts(system: seq<Segment>)
    ensures FirstsAfter(system, {}, |system|) == Firsts(system)
    ensures Fresh(system, {}) == Chosen(system, Firsts(system), |system|)
  {
    FreshAreChosen(system, {}, |system|);
    assert system[..|system|] == system;
    hide Trim, Fresh, Chosen;
  }

  lemma UserFirsts(system: seq<Segment>, user: seq<Segment>)
    ensures FirstsAfter(user, SeenAfter(system, {}), |user|) == Outstanding(system, user)
    ensures Candidates(system, user) == Chosen(user, Outstanding(system, user), |user|)
  {
    FreshAreChosen(user, SeenAfter(system, {}), |user|);
    assert user[..|user|] == user;
    forall k | 0 <= k < |user| ensures IsFirst(user, SeenAfter(system, {}), k) <==> StandsOut(system, user, k) {
      SeenMeans(system, {}, Text(user[k]));
    }
    hide IsFirst, StandsOut, Fresh, Chosen, SeenAfter;
  }

  /** What the repeated texts would have cost, estimated without the white space around. */
  function RepeatedCost(segments: seq<Segment>, firsts: set<nat>, n: nat): nat
    requires n <= |segments|
  {
    if n == 0 then 0
    else RepeatedCost(segments, firsts, n - 1)
         + if n - 1 !in firsts && Trim(segments[n - 1].text) != "" then Tokens(Trim(segments[n - 1].text)) else 0
  }

  lemma {:induction false} DuplicatesMean(segments: seq<Segment>, seen: set<string>, start: U32, n: nat)
    requires n <= |segments|
    ensures DuplicateTokens(segments[..n], seen, start)
         == Wrapped(start + RepeatedCost(segments, FirstsAfter(segments, seen, |segments|), n))
  {
    hide IsFirst, SeenAfter, Tokens, Trim, Wrapped;
    if n > 0 {
      DuplicatesMean(segments, seen, start, n - 1);
      FreshMeansFirst(segments, seen, n - 1);
      assert segments[..n][..n - 1] == segments[..n - 1];
      WrapsOnce(start + RepeatedCost(segments, FirstsAfter(segments, seen, |segments|), n - 1), Tokens(Trim(segments[n - 1].text)));
    } else {
      SmallIsKept(start);
    }
  }

  lemma AllDuplicatesMean(system: seq<Segment>, user: seq<Segment>)
    ensures DuplicateTokens(user, SeenAfter(system, {}), DuplicateTokens(system, {}, 0))
         == (RepeatedCost(system, Firsts(system), |system|) + RepeatedCost(user, Outstanding(system, user), |user|)) % 0x1_0000_0000
  {
    hide *;
    SystemFirsts(system);
    UserFirsts(system, user);
    DuplicatesMean(system, {}, 0, |system|);
    DuplicatesMean(user, SeenAfter(system, {}), DuplicateTokens(system, {}, 0), |user|);
    assert system[..|system|] == system && user[..|user|] == user;
    var first, second := RepeatedCost(system, Firsts(system), |system|), RepeatedCost(user, Outstanding(system, user), |user|);
    WrapsOnce(first, second);
    WrappedIs(first + second);
  }

  lemma WrappedIs(n: nat)
    ensures Wrapped(n) == n % 0x1_0000_0000
  {}

  // ---------------------------------------------------------------- what is sent

  /** The tokens of the texts sent whatever the budget, as 32 bits hold them. */
  function Fixed(system: seq<Segment>, user: seq<Segment>): nat {
    (CostOf(system, Firsts(system), |system|) + CostOf(user, PinnedOnes(system, user), |user|)) % 0x1_0000_0000
  }

  /** Of those sent, the optional ones of higher priority, or of the same and earlier. */
  function SentAhead(user: seq<Segment>, sent: set<nat>, i: nat): set<nat>
    requires i < |user|
  {
    set k | k in sent && k < |user| && !user[k].pinned
            && (user[k].priority > user[i].priority || (user[k].priority == user[i].priority && k < i))
  }

  /** Exactly these are sent: of the segments that stand out the pinned ones, and each
      other one that fits beside what is fixed and what is sent ahead of it. */
  predicate IsSent(system: seq<Segment>, user: seq<Segment>, budget: nat, sent: set<nat>) {
    && (forall k :: k in sent ==> k < |user|)
    && forall k :: 0 <= k < |user| ==>
         (k in sent <==>
            && StandsOut(system, user, k)
            && (user[k].pinned
                || Fixed(system, user) + CostOf(user, SentAhead(user, sent, k), |user|) + Tokens(user[k].text) <= budget))
  }

  lemma {:induction false} FilteredIsChosen(segments: seq<Segment>, chosen: set<nat>, n: nat, keep: Candidate -> bool)
    requires n <= |segments|
    ensures Filter(Chosen(segments, chosen, n), keep)
         == Chosen(segments, (set k | k in chosen && k < |segments| && keep(Candidate(k, segments[k]))), n)
  {
    if n > 0 {
      FilteredIsChosen(segments, chosen, n - 1, keep);
      var s := Chosen(segments, chosen, n - 1);
      if n - 1 in chosen {
        assert (s + [Candidate(n - 1, segments[n - 1])])[..|s|] == s;
      } else {
        assert s + [] == s;
      }
    }
  }

  lemma PinnedOnesAre(system: seq<Segment>, user: seq<Segment>, keep: Candidate -> bool)
    requires forall c: Candidate :: keep(c) <==> c.segment.pinned
    ensures PinnedOnes(system, user)
         == set k | k in Outstanding(system, user) && k < |user| && keep(Candidate(k, user[k]))
  {
    hide StandsOut;
  }

  lemma PinnedIs(c: Candidate)
    ensures IsPinned(c) <==> c.segment.pinned
  {}

  lemma FixedCosts(system: seq<Segment>, user: seq<Segment>)
    ensures Sum(Fresh(system, {}), Weigh) == CostOf(system, Firsts(system), |system|)
    ensures Sum(Filter(Candidates(system, user), IsPinned), Weigh) == CostOf(user, PinnedOnes(system, user), |user|)
  {
    hide *;
    SystemFirsts(system);
    UserFirsts(system, user);
    SumIsCost(system, Firsts(system), |system|);
    FilteredIsChosen(user, Outstanding(system, user), |user|, IsPinned);
    forall c: Candidate ensures IsPinned(c) <==> c.segment.pinned { PinnedIs(c); }
    PinnedOnesAre(system, user, IsPinned);
    SumIsCost(user, PinnedOnes(system, user), |user|);
  }

  lemma FixedMeans(system: seq<Segment>, user: seq<Segment>)
    ensures Committed(system, user) == Fixed(system, user)
    ensures CommittedCost(system, user) == CostOf(system, Firsts(system), |system|) + CostOf(user, PinnedOnes(system, user), |user|)
  {
    FixedCosts(system, user);
    CommittedIsExact(system, user);
    hide Committed, Candidates, Fresh, Firsts, PinnedOnes, CostOf, Filter, Sum;
  }

  function Indices(s: seq<Candidate>): set<nat> {
    set i | 0 <= i < |s| :: s[i].index
  }

  lemma AscendingFront(s: seq<Candidate>)
    requires s != [] && Ascending(s, Precedes)
    ensures Ascending(s[..|s| - 1], Precedes) && forall i :: 0 <= i < |s| - 1 ==> s[i].index < s[|s| - 1].index
  {
    forall i | 0 <= i < |s| - 1 ensures s[i].index < s[|s| - 1].index {
      assert Precedes(s[i], s[|s| - 1]);
    }
  }

  lemma IndicesOfFront(s: seq<Candidate>, n: nat)
    requires s != [] && Ascending(s, Precedes) && s[|s| - 1].index == n
    ensures forall k :: 0 <= k < n ==> (k in Indices(s[..|s| - 1]) <==> k in Indices(s))
  {
    AscendingFront(s);
    hide Ascending;
    var front := s[..|s| - 1];
    forall k | 0 <= k < n ensures k in Indices(front) <==> k in Indices(s) {
      if k in Indices(s) {
        var j :| 0 <= j < |s| && s[j].index == k;
        assert front[j].index == k;
      }
      if k in Indices(front) {
        var j :| 0 <= j < |front| && front[j].index == k;
        assert s[j].index == k;
      }
    }
  }

  lemma LastIndex(s: seq<Candidate>, n: nat)
    requires Ascending(s, Precedes) && forall i :: 0 <= i < |s| ==> s[i].index <= n
    ensures n in Indices(s) <==> s != [] && s[|s| - 1].index == n
  {
    if s != [] {
      AscendingFront(s);
    }
    hide Ascending;
  }

  lemma ChoosingOneMore(segments: seq<Segment>, chosen: set<nat>, n: nat)
    requires 0 < n <= |segments|
    ensures Chosen(segments, chosen, n)
         == if n - 1 in chosen then Chosen(segments, chosen, n - 1) + [Candidate(n - 1, segments[n - 1])]
            else Chosen(segments, chosen, n - 1)
  {
    assert Chosen(segments, chosen, n - 1) + [] == Chosen(segments, chosen, n - 1);
  }

  lemma IndexIsIn(s: seq<Candidate>, i: nat)
    requires i < |s|
    ensures s[i].index in Indices(s)
  {}

  lemma NothingIsChosen(segments: seq<Segment>, s: seq<Candidate>)
    requires s == []
    ensures s == Chosen(segments, Indices(s), 0)
  {}

  /** An ascending list of candidates of these segments is the choice of its positions. */
  lemma {:induction false} AscendingIsChosen(segments: seq<Segment>, s: seq<Candidate>, n: nat)
    requires n <= |segments| && Ascending(s, Precedes)
    requires forall i :: 0 <= i < |s| ==> s[i].index < n && s[i].segment == segments[s[i].index]
    ensures s == Chosen(segments, Indices(s), n)
    decreases n
  {
    hide *;
    if n == 0 {
      NothingIsChosen(segments, s);
    } else {
      LastIndex(s, n - 1);
      ChoosingOneMore(segments, Indices(s), n);
      if n - 1 in Indices(s) {
        var front := s[..|s| - 1];
        AscendingFront(s);
        IndicesOfFront(s, n - 1);
        AscendingIsChosen(segments, front, n - 1);
        SameChoice(segments, Indices(front), Indices(s), n - 1);
        assert s == front + [Candidate(n - 1, segments[n - 1])];
      } else {
        forall i | 0 <= i < |s| ensures s[i].index < n - 1 {
          IndexIsIn(s, i);
        }
        AscendingIsChosen(segments, s, n - 1);
      }
    }
  }

  // -------------------------------------------------------------- the whole prompt

  lemma SelectedAreChosen(system: seq<Segment>, user: seq<Segment>, budget: Allowance)
    ensures var s := Lay(system, user, budget).selected;
            && s == Chosen(user, Indices(s), |user|)
            && forall k :: 0 <= k < |user| ==> (k in Indices(s) <==> Candidate(k, user[k]) in s)
  {
    var s := Lay(system, user, budget).selected;
    OutputKeepsOrder(system, user, budget);
    forall i | 0 <= i < |s| ensures s[i].index < |user| && s[i].segment == user[s[i].index] {
      OutputIsSubsequence(system, user, budget, i, i);
    }
    AscendingIsChosen(user, s, |user|);
    forall k | 0 <= k < |user| ensures k in Indices(s) <==> Candidate(k, user[k]) in s {
      ChosenAre(user, Indices(s), |user|);
    }
    hide Lay, Chosen, Indices, Ascending, Text, InSystem;
  }

  lemma AheadAre(user: seq<Segment>, sent: set<nat>, i: nat)
    requires i < |user|
    ensures SentAhead(user, sent, i)
         == set k | k in sent && k < |user| && Ahead(Candidate(i, user[i]))(Candidate(k, user[k]))
  {}

  lemma CostAheadMeans(system: seq<Segment>, user: seq<Segment>, budget: Allowance, i: nat)
    requires i < |user|
    ensures var s := Lay(system, user, budget).selected;
            TokensAhead(system, user, budget, Candidate(i, user[i]))
            == Fixed(system, user) + CostOf(user, SentAhead(user, Indices(s), i), |user|)
  {
    var s := Lay(system, user, budget).selected;
    FixedMeans(system, user);
    SelectedAreChosen(system, user, budget);
    FilteredIsChosen(user, Indices(s), |user|, Ahead(Candidate(i, user[i])));
    AheadAre(user, Indices(s), i);
    SumIsCost(user, SentAhead(user, Indices(s), i), |user|);
    hide Lay, Chosen, Indices, SentAhead, CostOf, Fixed, Committed, Filter, Sum, Ahead;
  }

  lemma OutstandingAreCandidates(system: seq<Segment>, user: seq<Segment>, k: nat)
    requires k < |user|
    ensures Candidate(k, user[k]) in Candidates(system, user) <==> StandsOut(system, user, k)
  {
    UserFirsts(system, user);
    ChosenAre(user, Outstanding(system, user), |user|);
    hide Candidates, StandsOut, Chosen;
  }

  /** Main result: which segments are sent. */
  lemma SendingMeans(system: seq<Segment>, user: seq<Segment>, budget: Allowance)
    ensures IsSent(system, user, budget, Indices(Lay(system, user, budget).selected))
  {
    hide Lay, Candidates, StandsOut, TokensAhead, Fixed, SentAhead, CostOf, Tokens, Kept, Indices;
    var s := Lay(system, user, budget).selected;
    SelectedAreChosen(system, user, budget);
    forall k | 0 <= k < |user|
      ensures k in Indices(s) <==>
                && StandsOut(system, user, k)
                && (user[k].pinned
                    || Fixed(system, user) + CostOf(user, SentAhead(user, Indices(s), k), |user|) + Tokens(user[k].text) <= budget)
    {
      OutstandingAreCandidates(system, user, k);
      SelectedMembers(system, user, budget, Candidate(k, user[k]));
      if StandsOut(system, user, k) && !user[k].pinned {
        SentIffItFits(system, user, budget, Candidate(k, user[k]));
        CostAheadMeans(system, user, budget, k);
      }
    }
    IndicesAreBelow(system, user, budget);
  }

  lemma IndicesAreBelow(system: seq<Segment>, user: seq<Segment>, budget: Allowance)
    ensures forall k :: k in Indices(Lay(system, user, budget).selected) ==> k < |user|
  {
    var s := Lay(system, user, budget).selected;
    forall i | 0 <= i < |s| ensures s[i].index < |user| {
      OutputIsSubsequence(system, user, budget, i, i);
    }
    hide Lay, Text, InSystem;
  }

  /** Those of a kind among the chosen. */
  function Among(segments: seq<Segment>, chosen: set<nat>, kind: SegmentKind): set<nat> {
    set k | k in chosen && k < |segments| && segments[k].kind == kind
  }

  lemma AmongAre(segments: seq<Segment>, chosen: set<nat>, kind: SegmentKind)
    ensures Among(segments, chosen, kind)
         == set k | k in chosen && k < |segments| && OfKind(kind)(Candidate(k, segments[k]))
  {}

  /** What the segments of a kind cost, among those sent. */
  function KindCost(system: seq<Segment>, user: seq<Segment>, sent: set<nat>, kind: SegmentKind): nat {
    CostOf(system, Among(system, Firsts(system), kind), |system|) + CostOf(user, Among(user, sent, kind), |user|)
  }

  lemma PartCost(segments: seq<Segment>, chosen: set<nat>, kind: SegmentKind)
    ensures Sum(Filter(Chosen(segments, chosen, |segments|), OfKind(kind)), Weigh)
         == CostOf(segments, Among(segments, chosen, kind), |segments|)
  {
    hide *;
    FilteredIsChosen(segments, chosen, |segments|, OfKind(kind));
    AmongAre(segments, chosen, kind);
    SumIsCost(segments, Among(segments, chosen, kind), |segments|);
  }

  lemma KindCostMeans(system: seq<Segment>, user: seq<Segment>, budget: Allowance, kind: SegmentKind)
    ensures var l := Lay(system, user, budget);
            TokensFor(l, kind) == KindCost(system, user, Indices(l.selected), kind) % 0x1_0000_0000
  {
    hide *;
    var l := Lay(system, user, budget);
    LayIs(system, user, budget);
    SystemFirsts(system);
    SelectedAreChosen(system, user, budget);
    FilterJoin(l.system, l.selected, OfKind(kind));
    SumOfJoin(Filter(l.system, OfKind(kind)), Filter(l.selected, OfKind(kind)), Weigh);
    PartCost(system, Firsts(system), kind);
    PartCost(user, Indices(l.selected), kind);
    KindTokensAre(l, kind);
    KindCostIs(system, user, Indices(l.selected), kind);
  }

  lemma LayIs(system: seq<Segment>, user: seq<Segment>, budget: Allowance)
    ensures var l := Lay(system, user, budget);
            && l.system == Fresh(system, {})
            && l.duplicates == DuplicateTokens(user, SeenAfter(system, {}), DuplicateTokens(system, {}, 0))
  {}

  lemma KindTokensAre(l: Layout, kind: SegmentKind)
    ensures TokensFor(l, kind) == Sum(Filter(l.system + l.selected, OfKind(kind)), Weigh) % 0x1_0000_0000
  {
    hide Filter, Sum;
  }

  lemma KindCostIs(system: seq<Segment>, user: seq<Segment>, sent: set<nat>, kind: SegmentKind)
    ensures KindCost(system, user, sent, kind)
         == CostOf(system, Among(system, Firsts(system), kind), |system|) + CostOf(user, Among(user, sent, kind), |user|)
  {
    hide CostOf, Among, Firsts;
  }

  lemma EstimateMeans(system: seq<Segment>, user: seq<Segment>, budget: Allowance)
    ensures var l := Lay(system, user, budget);
            && l.used == Fixed(system, user) + (CostOf(user, Indices(l.selected), |user|) - CostOf(user, PinnedOnes(system, user), |user|))
            && |Indices(l.selected)| <= |Outstanding(system, user)|
            && l.dropped == (|Outstanding(system, user)| - |Indices(l.selected)|) % 0x1_0000_0000
  {
    hide *;
    var l := Lay(system, user, budget);
    var sent := Indices(l.selected);
    LayIs(system, user, budget);
    EstimateIsExact(system, user, budget);
    FixedMeans(system, user);
    FixedCosts(system, user);
    SelectedAreChosen(system, user, budget);
    SumOfJoin(l.system, l.selected, Weigh);
    SumIsCost(user, sent, |user|);
    UserFirsts(system, user);
    IndicesAreBelow(system, user, budget);
    OutstandingAreBelow(system, user);
    ChosenCount(user, sent);
    ChosenCount(user, Outstanding(system, user));
    WrappedIs(|Candidates(system, user)| - |l.selected|);
  }

  lemma OutstandingAreBelow(system: seq<Segment>, user: seq<Segment>)
    ensures forall k :: k in Outstanding(system, user) ==> k < |user|
  {}

  lemma ChosenCount(segments: seq<Segment>, chosen: set<nat>)
    requires forall k :: k in chosen ==> k < |segments|
    ensures |Chosen(segments, chosen, |segments|)| == |chosen|
  {
    ChosenAre(segments, chosen, |segments|);
    hide Chosen;
    assert (set k | k in chosen && k < |segments|) == chosen;
  }

  /** What the telemetry reports of a prompt of which these were sent. */
  predicate Reports(t: Telemetry, system: seq<Segment>, user: seq<Segment>, sent: set<nat>) {
    && t.estimated == Fixed(system, user) + (CostOf(user, sent, |user|) - CostOf(user, PinnedOnes(system, user), |user|))
    && t.uniqueEvidence == KindCost(system, user, sent, UniqueEvidence) % 0x1_0000_0000
    && t.sharedPolicy == KindCost(system, user, sent, SharedPolicy) % 0x1_0000_0000
    && t.envelope == KindCost(system, user, sent, Envelope) % 0x1_0000_0000
    && t.duplicates == (RepeatedCost(system, Firsts(system), |system|) + RepeatedCost(user, Outstanding(system, user), |user|))
                       % 0x1_0000_0000
    && |sent| <= |Outstanding(system, user)| && t.dropped == (|Outstanding(system, user)| - |sent|) % 0x1_0000_0000
    && (t.overflowed <==> t.estimated > t.inputBudget)
  }

  /** Main result: the rendered prompt. */
  lemma RenderingMeans(system: seq<Segment>, user: seq<Segment>, limit: Option<U32>, maxOutput: U32)
    ensures var r, budget := Render(system, user, limit, maxOutput), Budget(limit, maxOutput);
            exists sent: set<nat> ::
              && IsSent(system, user, budget, sent)
              && r.system == Joined(TextsOf(Chosen(system, Firsts(system), |system|)))
              && r.user == Joined(TextsOf(Chosen(user, sent, |user|)))
              && r.telemetry.contextLimit == ContextLimit(limit) && r.telemetry.inputBudget == budget
              && Reports(r.telemetry, system, user, sent)
  {
    hide *;
    var budget := Budget(limit, maxOutput);
    var l := Lay(system, user, budget);
    var sent := Indices(l.selected);
    LayIs(system, user, budget);
    RenderIs(system, user, limit, maxOutput);
    SendingMeans(system, user, budget);
    SystemFirsts(system);
    SelectedAreChosen(system, user, budget);
    LinesMean(l.system);
    LinesMean(l.selected);
    ReportIsRight(system, user, budget, Render(system, user, limit, maxOutput).telemetry);
  }

  lemma RenderIs(system: seq<Segment>, user: seq<Segment>, limit: Option<U32>, maxOutput: U32)
    ensures var r, budget := Render(system, user, limit, maxOutput), Budget(limit, maxOutput);
            var l, t := Lay(system, user, budget), r.telemetry;
            && r.system == Lines(l.system) && r.user == Lines(l.selected)
            && t.contextLimit == ContextLimit(limit) && t.inputBudget == budget && Observes(t, l, budget)
  {
    hide Lay, Lines, TokensFor, Budget;
  }

  /** The telemetry as the layout has it. */
  predicate Observes(t: Telemetry, l: Layout, budget: nat) {
    && t.inputBudget == budget && t.estimated == l.used && t.uniqueEvidence == TokensFor(l, UniqueEvidence)
    && t.sharedPolicy == TokensFor(l, SharedPolicy) && t.envelope == TokensFor(l, Envelope)
    && t.duplicates == l.duplicates && t.dropped == l.dropped && (t.overflowed <==> l.used > budget)
  }

  lemma ReportIsRight(system: seq<Segment>, user: seq<Segment>, budget: Allowance, t: Telemetry)
    requires Observes(t, Lay(system, user, budget), budget)
    ensures Reports(t, system, user, Indices(Lay(system, user, budget).selected))
  {
    LayIs(system, user, budget);
    EstimateMeans(system, user, budget);
    KindCostMeans(system, user, budget, UniqueEvidence);
    KindCostMeans(system, user, budget, SharedPolicy);
    KindCostMeans(system, user, budget, Envelope);
    AllDuplicatesMean(system, user);
    hide Lay, Firsts, Outstanding, PinnedOnes, CostOf, KindCost, RepeatedCost, Fixed, TokensFor, Fresh, DuplicateTokens,
         SeenAfter, Indices;
  }
}
