/**
  What the practice projection does, told without its own helpers: which deeds
  count, when they settle anything, which category is first, which comes second,
  and when the state is dated anew.
 */
module PracticeMeaning {
  import opened Options
  import opened Sequences
  import opened Practice
  import opened PracticeLaws

  // ------------------------------------------------------------------- the window

  /** The latest of the events behind a deed, zero without any. */
  predicate IsLatest(sources: seq<nat>, n: nat) {
    (forall i :: 0 <= i < |sources| ==> sources[i] <= n) && if sources == [] then n == 0 else n in sources
  }

  lemma {:induction false} LatestMeans(sources: seq<nat>)
    ensures IsLatest(sources, LatestSource(sources))
  {
    if sources != [] {
      LatestMeans(sources[1..]);
    }
  }

  /** The texts agree up to a point where the first ends or has the lower character. */
  predicate Sooner(a: string, b: string) {
    exists k :: 0 <= k <= |a| && k < |b| && a[..k] == b[..k] && (k == |a| || a[k] < b[k])
  }

  lemma {:induction false} TextOrderMeans(a: string, b: string)
    ensures TextBefore(a, b) <==> Sooner(a, b)
  {
    if a != "" && b != "" {
      TextOrderMeans(a[1..], b[1..]);
      if Sooner(a, b) {
        var k :| 0 <= k <= |a| && k < |b| && a[..k] == b[..k] && (k == |a| || a[k] < b[k]);
        if k > 0 {
          assert a[0] == a[..k][0] == b[..k][0] == b[0];
          assert a[1..][..k - 1] == a[..k][1..] == b[..k][1..] == b[1..][..k - 1];
          assert Sooner(a[1..], b[1..]);
        }
      }
      if TextBefore(a, b) {
        if a[0] < b[0] {
          assert a[..0] == b[..0];
        } else {
          var k :| 0 <= k <= |a[1..]| && k < |b[1..]| && a[1..][..k] == b[1..][..k] && (k == |a[1..]| || a[1..][k] < b[1..][k]);
          assert a[..k + 1] == [a[0]] + a[1..][..k] && b[..k + 1] == [b[0]] + b[1..][..k];
        }
      }
    } else {
      assert a[..0] == b[..0] == "";
    }
  }

  /** Dated earlier, or dated alike and of the lower identifier. */
  predicate Precedes(a: Deed, b: Deed) {
    exists x, y :: 0 <= x <= LatestSource(a.sources) && 0 <= y <= LatestSource(b.sources)
      && IsLatest(a.sources, x) && IsLatest(b.sources, y) && (x < y || (x == y && Sooner(a.id, b.id)))
  }

  lemma OnlyLatest(sources: seq<nat>, n: nat)
    requires IsLatest(sources, n)
    ensures n == LatestSource(sources)
  {
    LatestMeans(sources);
  }

  lemma OrderMeans(a: Deed, b: Deed)
    ensures Earlier(a, b) <==> Precedes(a, b)
  {
    LatestMeans(a.sources);
    LatestMeans(b.sources);
    TextOrderMeans(a.id, b.id);
    hide IsLatest, TextBefore, Sooner, LatestSource;
    if Precedes(a, b) {
      var x, y :| 0 <= x <= LatestSource(a.sources) && 0 <= y <= LatestSource(b.sources)
        && IsLatest(a.sources, x) && IsLatest(b.sources, y) && (x < y || (x == y && Sooner(a.id, b.id)));
      OnlyLatest(a.sources, x);
      OnlyLatest(b.sources, y);
    }
  }

  /** Durable deeds, in order, sixteen at most; whatever durable deed is left out
      comes before all of them. */
  predicate IsWindow(deeds: seq<Deed>, r: seq<Deed>) {
    && |r| <= 16
    && (forall i, j :: 0 <= i < j < |r| ==> Precedes(r[i], r[j]))
    && (forall i :: 0 <= i < |r| ==> r[i] in deeds && r[i].durable)
    && forall d :: d in deeds && d.durable && d !in r ==> |r| == 16 && forall i :: 0 <= i < |r| ==> Precedes(d, r[i])
  }

  predicate InOrder(s: seq<Deed>) {
    forall i, j :: 0 <= i < j < |s| ==> Precedes(s[i], s[j])
  }

  lemma ChronicleIsOrdered(deeds: seq<Deed>)
    requires DistinctKeys(Filter(deeds, IsDurable))
    ensures InOrder(Chronicle(deeds)) && forall d :: d in Chronicle(deeds) <==> d in deeds && d.durable
  {
    hide Earlier, Sort, Filter, Precedes, DistinctKeys;
    var durable := Filter(deeds, IsDurable);
    EarlierIsTotal(durable);
    SortAscends(durable, Earlier);
    SortMembers(durable, Earlier);
    forall d ensures d in durable <==> d in deeds && d.durable {
      FilterMembers(deeds, IsDurable, d);
    }
    forall a, b ensures Earlier(a, b) <==> Precedes(a, b) {
      OrderMeans(a, b);
    }
  }

  lemma LatestAreLast(all: seq<Deed>)
    ensures var r := LatestOf(all);
            |r| <= 16 && |r| <= |all| && r == all[|all| - |r|..] && (|r| < |all| ==> |r| == 16)
  {}

  lemma EndIsWindow(all: seq<Deed>, r: seq<Deed>)
    requires InOrder(all) && |r| <= 16 && |r| <= |all| && r == all[|all| - |r|..] && (|r| < |all| ==> |r| == 16)
    ensures InOrder(r) && forall i :: 0 <= i < |r| ==> r[i] in all
    ensures forall d :: d in all && d !in r ==> |r| == 16 && forall i :: 0 <= i < |r| ==> Precedes(d, r[i])
  {
    hide Precedes;
    var n := |all| - |r|;
    assert forall i :: 0 <= i < |r| ==> r[i] == all[n + i];
    forall k | n <= k < |all| ensures all[k] in r {
      assert r[k - n] == all[k];
    }
    forall d | d in all && d !in r ensures |r| == 16 && forall i :: 0 <= i < |r| ==> Precedes(d, r[i]) {
      var k :| 0 <= k < |all| && all[k] == d;
    }
  }

  lemma WindowIs(deeds: seq<Deed>, all: seq<Deed>, r: seq<Deed>)
    requires forall d :: d in all <==> d in deeds && d.durable
    requires |r| <= 16 && InOrder(r) && forall i :: 0 <= i < |r| ==> r[i] in all
    requires forall d :: d in all && d !in r ==> |r| == 16 && forall i :: 0 <= i < |r| ==> Precedes(d, r[i])
    ensures IsWindow(deeds, r)
  {
    hide Precedes;
  }

  /** Main result: the deeds that count. */
  lemma WindowMeans(deeds: seq<Deed>)
    requires DistinctKeys(Filter(deeds, IsDurable))
    ensures IsWindow(deeds, Recent(deeds))
  {
    assert Recent(deeds) == LatestOf(Chronicle(deeds));
    hide *;
    ChronicleIsOrdered(deeds);
    LatestAreLast(Chronicle(deeds));
    EndIsWindow(Chronicle(deeds), Recent(deeds));
    WindowIs(deeds, Chronicle(deeds), Recent(deeds));
  }

  // --------------------------------------------------------------- the projection

  /** How often a category occurs. */
  function Occurrences(recent: seq<Deed>, c: Category): nat {
    |Places(recent, c, |recent|)|
  }

  function Places(recent: seq<Deed>, c: Category, n: nat): set<nat>
    requires n <= |recent|
  {
    set i | 0 <= i < n && recent[i].category == c
  }

  lemma {:induction false} PlacesCount(recent: seq<Deed>, c: Category, n: nat)
    requires n <= |recent|
    ensures Count(recent[..n], c) == |Places(recent, c, n)|
  {
    if n > 0 {
      PlacesCount(recent, c, n - 1);
      assert recent[..n][..n - 1] == recent[..n - 1];
      assert Places(recent, c, n) == Places(recent, c, n - 1) + if recent[n - 1].category == c then {n - 1} else {};
    }
  }

  lemma CountMeans(recent: seq<Deed>, c: Category)
    ensures Count(recent, c) == Occurrences(recent, c)
  {
    PlacesCount(recent, c, |recent|);
    assert recent[..|recent|] == recent;
    hide Count;
  }

  /** The categories in the order in which they are declared. */
  function Place(c: Category): nat {
    match c
    case Exploration => 0 case Craft => 1 case Delivery => 2 case Stewardship => 3 case Care => 4 case Mediation => 5 case Lore => 6
  }

  /** More deeds, or as many and declared earlier. */
  predicate Tops(recent: seq<Deed>, a: Category, b: Category) {
    Occurrences(recent, a) > Occurrences(recent, b) || (Occurrences(recent, a) == Occurrences(recent, b) && Place(a) < Place(b))
  }

  /** Tops all the others. */
  predicate IsFirst(recent: seq<Deed>, c: Category) {
    forall d: Category :: d != c ==> Tops(recent, c, d)
  }

  /** Five deeds at least, on three different targets at least. */
  predicate Settled(recent: seq<Deed>) {
    |recent| >= 5 && |set i | 0 <= i < |recent| :: recent[i].targetKind + ":" + recent[i].targetId| >= 3
  }

  /** The first category for somebody known for nothing yet; it also replaces a primary
      that it outnumbers by three. */
  predicate IsPrimary(recent: seq<Deed>, current: Option<Category>, p: Category) {
    exists first: Category :: IsFirst(recent, first)
      && p == if current.None? || Occurrences(recent, first) >= Occurrences(recent, current.value) + 3 then first else current.value
  }

  /** Another category, with three deeds at least like the primary, and at most one
      more or less. */
  predicate Accompanies(recent: seq<Deed>, p: Category, c: Category) {
    && c != p && Occurrences(recent, p) >= 3 && Occurrences(recent, c) >= 3
    && Occurrences(recent, c) <= Occurrences(recent, p) + 1 && Occurrences(recent, p) <= Occurrences(recent, c) + 1
  }

  /** Of the categories that accompany the primary, the one that tops the others. */
  predicate IsSecondary(recent: seq<Deed>, p: Category, s: Option<Category>) {
    if s.None? then forall c: Category :: !Accompanies(recent, p, c)
    else Accompanies(recent, p, s.value)
         && forall c: Category :: Accompanies(recent, p, c) && c != s.value ==> Tops(recent, s.value, c)
  }

  lemma GetsMean(recent: seq<Deed>, c: Category)
    ensures Get(Tally(recent), c) == Occurrences(recent, c) && Rank(c) == Place(c)
    ensures c in Tally(recent) <==> Occurrences(recent, c) > 0
  {
    TallyCounts(recent, c);
    CountMeans(recent, c);
  }

  lemma FirstMeans(recent: seq<Deed>, c: Category)
    ensures IsLeader(Tally(recent), c) <==> IsFirst(recent, c)
  {
    forall d ensures Get(Tally(recent), d) == Occurrences(recent, d) && Rank(d) == Place(d) {
      GetsMean(recent, d);
    }
    hide Tally, Get, Occurrences, Rank;
    if IsFirst(recent, c) {
      forall d: Category ensures Get(Tally(recent), d) < Get(Tally(recent), c)
                              || (Get(Tally(recent), d) == Get(Tally(recent), c) && Rank(c) <= Rank(d))
      {
        assert d != c ==> Tops(recent, c, d);
      }
    }
    if IsLeader(Tally(recent), c) {
      forall d: Category | d != c ensures Tops(recent, c, d) {
        assert Get(Tally(recent), d) <= Get(Tally(recent), c);
      }
    }
  }

  lemma OnlyOneIsFirst(recent: seq<Deed>, a: Category, b: Category)
    requires IsFirst(recent, a) && IsFirst(recent, b)
    ensures a == b
  {
    TopsIsStrict(recent, a, b);
    hide Tops;
  }

  lemma TopsIsStrict(recent: seq<Deed>, a: Category, b: Category)
    ensures !(Tops(recent, a, b) && Tops(recent, b, a))
  {
    hide Occurrences;
  }

  lemma PrimaryMeans(recent: seq<Deed>, current: Option<Category>)
    requires recent != []
    ensures Leaders(Tally(recent)) != []
    ensures IsPrimary(recent, current, Primary(current, Leaders(Tally(recent))[0], Tally(recent)))
  {
    TallyLeads(recent);
    var first := Leaders(Tally(recent))[0];
    FirstMeans(recent, first);
    GetsMean(recent, first);
    if current.Some? {
      GetsMean(recent, current.value);
    }
    hide Leaders, Tally, Get, Occurrences, IsFirst, IsLeader;
  }

  /** The search finds the first that accompanies. */
  lemma {:induction false} FirstCompoundIs(leaders: seq<Category>, p: Category, counts: map<Category, nat>)
    ensures var s := FirstCompound(leaders, p, counts);
            if s.None? then forall i :: 0 <= i < |leaders| ==> !Compounds(counts, p, leaders[i])
            else exists i :: 0 <= i < |leaders| && leaders[i] == s.value && Compounds(counts, p, leaders[i])
                             && forall j :: 0 <= j < i ==> !Compounds(counts, p, leaders[j])
  {
    hide Compounds;
    if leaders != [] && !Compounds(counts, p, leaders[0]) {
      FirstCompoundIs(leaders[1..], p, counts);
      var s := FirstCompound(leaders[1..], p, counts);
      if s.Some? {
        var i :| 0 <= i < |leaders[1..]| && leaders[1..][i] == s.value && Compounds(counts, p, leaders[1..][i])
                 && forall j :: 0 <= j < i ==> !Compounds(counts, p, leaders[1..][j]);
        assert leaders[i + 1] == s.value;
        forall j | 0 <= j < i + 1 ensures !Compounds(counts, p, leaders[j]) {
          assert j > 0 ==> leaders[j] == leaders[1..][j - 1];
        }
      } else {
        forall i | 0 <= i < |leaders| ensures !Compounds(counts, p, leaders[i]) {
          assert i > 0 ==> leaders[i] == leaders[1..][i - 1];
        }
      }
    }
  }

  lemma CompoundsMean(recent: seq<Deed>, p: Category, c: Category)
    ensures Compounds(Tally(recent), p, c) <==> Accompanies(recent, p, c)
    ensures Accompanies(recent, p, c) ==> c in Tally(recent)
  {
    GetsMean(recent, p);
    GetsMean(recent, c);
    hide Tally, Get, Occurrences;
  }

  lemma LeadsMean(recent: seq<Deed>, a: Category, b: Category)
    ensures Leads(Tally(recent))(a, b) <==> Tops(recent, a, b)
  {
    GetsMean(recent, a);
    GetsMean(recent, b);
    hide Tally, Get, Occurrences;
  }

  lemma SecondaryMeans(recent: seq<Deed>, p: Category)
    ensures IsSecondary(recent, p, FirstCompound(Leaders(Tally(recent)), p, Tally(recent)))
  {
    var counts := Tally(recent);
    var leaders := Leaders(counts);
    LeadersAreRanked(counts);
    FirstCompoundIs(leaders, p, counts);
    forall c ensures (Compounds(counts, p, c) <==> Accompanies(recent, p, c)) && (Accompanies(recent, p, c) ==> c in leaders) {
      CompoundsMean(recent, p, c);
    }
    forall a, b ensures Leads(counts)(a, b) <==> Tops(recent, a, b) {
      LeadsMean(recent, a, b);
    }
    hide Compounds, Accompanies, Tops, Leads, Leaders, Tally, FirstCompound;
  }

  lemma SettlingMeans(recent: seq<Deed>)
    ensures Settles(recent) <==> Settled(recent)
  {
    assert Targets(recent) == set i | 0 <= i < |recent| :: recent[i].targetKind + ":" + recent[i].targetId;
  }

  /** Main result: the projected state.  Without enough deeds it stays; else it names
      the primary and the secondary, and is dated anew if either has changed. */
  lemma ProjectionMeans(current: State, deeds: seq<Deed>)
    ensures var recent, state := Recent(deeds), Projected(current, deeds);
            if !Settled(recent) then state == current
            else
              && state.schema == 1 && state.primary.Some? && IsPrimary(recent, current.primary, state.primary.value)
              && IsSecondary(recent, state.primary.value, state.secondary)
              && if state.primary == current.primary && state.secondary == current.secondary
                 then state.updatedSeq == current.updatedSeq
                 else IsLatest(recent[|recent| - 1].sources, state.updatedSeq)
  {
    var recent := Recent(deeds);
    SettlingMeans(recent);
    if recent != [] {
      PrimaryMeans(recent, current.primary);
      SecondaryMeans(recent, Primary(current.primary, Leaders(Tally(recent))[0], Tally(recent)));
      LatestMeans(recent[|recent| - 1].sources);
    }
    hide Recent, Settles, Settled, Tally, Leaders, Primary, FirstCompound, IsPrimary, IsSecondary, IsLatest, LatestSource;
  }
}
