/**
  The weighted schedule of name forms.  Every occurrence of every form has a
  score, its midpoint in the form's share of the cycle, and the schedule lists
  all occurrences by score.  The comparison is a strict total order, so the
  schedule is unique; it holds each occurrence once; and every prefix of it is
  balanced between the forms.
 */
module NamingSchedule {
  import opened Sequences

  datatype Entry = Entry(form: nat, occurrence: nat, weight: nat)

  /** (2o+1)/w compared crosswise, ties broken by form. */
  predicate Before(l: Entry, r: Entry) {
    var left, right := (2 * l.occurrence + 1) * r.weight, (2 * r.occurrence + 1) * l.weight;
    left < right || (left == right && l.form < r.form)
  }

  // ----------------------------------------------------------- a total order

  /** Entries of one schedule: a form has one weight, its occurrences are below it. */
  predicate Compatible(l: Entry, r: Entry) {
    && l.weight > 0 && r.weight > 0 && (l.form == r.form ==> l.weight == r.weight)
  }

  lemma SameScoreSameOccurrence(w: nat, a: nat, b: nat)
    requires w > 0
    ensures (2 * a + 1) * w < (2 * b + 1) * w <==> a < b
    ensures (2 * a + 1) * w == (2 * b + 1) * w <==> a == b
  {
    if a < b {
      assert (2 * b + 1) * w == (2 * a + 1) * w + (2 * (b - a)) * w;
      assert (2 * (b - a)) * w > 0;
    } else if b < a {
      assert (2 * a + 1) * w == (2 * b + 1) * w + (2 * (a - b)) * w;
      assert (2 * (a - b)) * w > 0;
    }
  }

  /** Exactly one of before, equal, after. */
  lemma OrderIsTotal(l: Entry, r: Entry)
    requires Compatible(l, r)
    ensures l == r || Before(l, r) || Before(r, l)
    ensures !(Before(l, r) && Before(r, l)) && (l == r ==> !Before(l, r))
  {
    if l.form == r.form {
      SameScoreSameOccurrence(l.weight, l.occurrence, r.occurrence);
    }
  }

  /** Comparing p/a with q/b and q/b with r/c compares p/a with r/c. */
  lemma FractionsAreTransitive(p: nat, a: nat, q: nat, b: nat, r: nat, c: nat)
    requires a > 0 && b > 0 && c > 0
    requires p * b <= q * a && q * c <= r * b
    ensures p * c <= r * a
    ensures p * b < q * a || q * c < r * b ==> p * c < r * a
  {
    var pc, ra := p * c, r * a;
    ScaleOrder(p * b, q * a, c);
    ScaleOrder(q * c, r * b, a);
    assert (p * b) * c == pc * b && (q * a) * c == (q * c) * a && (r * b) * a == ra * b by {
      Reorder(p, b, c);
      Reorder(q, a, c);
      Reorder(r, b, a);
    }
    Unscale(pc, ra, b);
  }

  lemma Reorder(x: nat, y: nat, z: nat)
    ensures (x * y) * z == (x * z) * y
  {}

  lemma ScaleOrder(x: nat, y: nat, k: nat)
    requires x <= y && k > 0
    ensures x * k <= y * k && (x < y ==> x * k < y * k)
  {
    assert y * k == x * k + (y - x) * k;
  }

  lemma Unscale(x: nat, y: nat, k: nat)
    requires k > 0
    ensures x * k <= y * k ==> x <= y
    ensures x * k < y * k ==> x < y
  {
    if x > y {
      ScaleOrder(y, x, k);
    }
  }

  lemma OrderIsTransitive(l: Entry, m: Entry, r: Entry)
    requires l.weight > 0 && m.weight > 0 && r.weight > 0
    requires Before(l, m) && Before(m, r)
    ensures Before(l, r)
  {
    FractionsAreTransitive(2 * l.occurrence + 1, l.weight, 2 * m.occurrence + 1, m.weight, 2 * r.occurrence + 1, r.weight);
  }

  // ------------------------------------------------------------ the schedule

  predicate OfForms(weights: seq<nat>, e: Entry) {
    e.form < |weights| && e.weight == weights[e.form] && e.occurrence < e.weight
  }

  predicate AllOfForms(weights: seq<nat>, s: seq<Entry>) {
    forall i :: 0 <= i < |s| ==> OfForms(weights, s[i])
  }

  predicate Ordered(s: seq<Entry>) {
    forall i, j :: 0 <= i < j < |s| ==> Before(s[i], s[j])
  }

  function Occurrences(form: nat, weight: nat): (r: seq<Entry>)
    ensures |r| == weight
    ensures forall o :: 0 <= o < weight ==> r[o] == Entry(form, o, weight)
  {
    seq(weight, o requires 0 <= o < weight => Entry(form, o, weight))
  }

  /** All occurrences of the forms from index `form` on, in declaration order. */
  function Entries(weights: seq<nat>, form: nat): seq<Entry>
    requires form <= |weights|
    decreases |weights| - form
  {
    if form == |weights| then [] else Occurrences(form, weights[form]) + Entries(weights, form + 1)
  }

  lemma {:induction false} EntriesAreAllOccurrences(weights: seq<nat>, form: nat)
    requires form <= |weights|
    ensures forall e :: e in Entries(weights, form) <==> OfForms(weights, e) && form <= e.form
    ensures Distinct(Entries(weights, form))
    decreases |weights| - form
  {
    if form < |weights| {
      EntriesAreAllOccurrences(weights, form + 1);
      var first, rest := Occurrences(form, weights[form]), Entries(weights, form + 1);
      forall e ensures e in first <==> OfForms(weights, e) && e.form == form {
        if OfForms(weights, e) && e.form == form {
          assert first[e.occurrence] == e;
        }
      }
      forall i, j | 0 <= i < |first| && 0 <= j < |rest| ensures first[i] != rest[j] {
        assert first[i] in first && rest[j] in rest;
      }
    }
  }

  lemma OrderIsTotalOn(weights: seq<nat>, s: seq<Entry>)
    requires AllOfForms(weights, s)
    ensures TotalOn(Before, s)
  {
    forall a, b | a in s && b in s ensures a == b || Before(a, b) || Before(b, a)
      ensures !(Before(a, b) && Before(b, a))
    {
      OrderIsTotal(a, b);
    }
    forall a, b, c | a in s && b in s && c in s && Before(a, b) && Before(b, c) ensures Before(a, c) {
      OrderIsTransitive(a, b, c);
    }
  }

  lemma SortOrders(weights: seq<nat>, s: seq<Entry>)
    requires Distinct(s) && AllOfForms(weights, s)
    ensures Ordered(Sort(s, Before)) && AllOfForms(weights, Sort(s, Before))
  {
    OrderIsTotalOn(weights, s);
    hide Before;
    SortAscends(s, Before);
    SortMembers(s, Before);
    forall i | 0 <= i < |s| ensures OfForms(weights, Sort(s, Before)[i]) {
      assert Sort(s, Before)[i] in s;
    }
  }

  function Schedule(weights: seq<nat>): seq<Entry> {
    Sort(Entries(weights, 0), Before)
  }

  /** The schedule is strictly ordered and holds exactly every occurrence. */
  lemma ScheduleIsComplete(weights: seq<nat>)
    ensures Ordered(Schedule(weights)) && AllOfForms(weights, Schedule(weights))
    ensures forall e :: e in Schedule(weights) <==> OfForms(weights, e)
  {
    EntriesAreAllOccurrences(weights, 0);
    forall i | 0 <= i < |Entries(weights, 0)| ensures OfForms(weights, Entries(weights, 0)[i]) {
      assert Entries(weights, 0)[i] in Entries(weights, 0);
    }
    SortOrders(weights, Entries(weights, 0));
    SortMembers(Entries(weights, 0), Before);
  }

  lemma Located(weights: seq<nat>, e: Entry) returns (p: nat)
    requires OfForms(weights, e)
    ensures p < |Schedule(weights)| && Schedule(weights)[p] == e
  {
    ScheduleIsComplete(weights);
    assert e in Schedule(weights);
    p :| 0 <= p < |Schedule(weights)| && Schedule(weights)[p] == e;
  }

  /** And each of them at one place only. */
  lemma EachOccurrenceOnce(weights: seq<nat>, i: nat, j: nat)
    requires i < |Schedule(weights)| && j < |Schedule(weights)|
    requires Schedule(weights)[i].form == Schedule(weights)[j].form
    requires Schedule(weights)[i].occurrence == Schedule(weights)[j].occurrence
    ensures i == j
  {
    ScheduleIsComplete(weights);
    var s := Schedule(weights);
    hide Schedule;
    assert OfForms(weights, s[i]) && OfForms(weights, s[j]);
    OrderIsTotal(s[i], s[j]);
  }

  /** Any ordered arrangement of the same entries is the schedule: whichever
      sorting algorithm is used, the result is this one. */
  lemma OrderDeterminesArrangement(weights: seq<nat>, s: seq<Entry>)
    requires Ordered(s) && multiset(s) == multiset(Entries(weights, 0))
    ensures s == Schedule(weights)
  {
    ScheduleIsComplete(weights);
    SortKeeps(Entries(weights, 0), Before);
    OrderIsTotalOn(weights, Schedule(weights));
    hide Before;
    AscendingIsUnique(Schedule(weights), s, Before);
  }

  // ------------------------------------------------------------- the balance

  /** How often the form stands among the first `n` entries. */
  function Count(s: seq<Entry>, form: nat, n: nat): (c: nat)
    requires n <= |s|
    ensures c <= n
  {
    if n == 0 then 0 else Count(s, form, n - 1) + if s[n - 1].form == form then 1 else 0
  }

  lemma {:induction false} CountGrows(s: seq<Entry>, form: nat, m: nat, n: nat)
    requires m <= n <= |s|
    ensures Count(s, form, m) <= Count(s, form, n)
    decreases n
  {
    if m < n {
      CountGrows(s, form, m, n - 1);
    }
  }

  /** Occurrences of a form come in order, so a form's first `n` entries are
      exactly its occurrences below its count there. */
  lemma {:induction false} PrefixHoldsTheFirst(weights: seq<nat>, n: nat, p: nat)
    requires n <= |Schedule(weights)| && p < |Schedule(weights)|
    ensures var s := Schedule(weights); p < n <==> s[p].occurrence < Count(s, s[p].form, n)
    decreases n, 0
  {
    ScheduleIsComplete(weights);
    var s := Schedule(weights);
    hide Schedule;
    assert OfForms(weights, s[p]);
    if n > 0 {
      PrefixHoldsTheFirst(weights, n - 1, p);
      assert OfForms(weights, s[n - 1]);
      if s[n - 1].form == s[p].form {
        PrefixHoldsTheFirst(weights, n - 1, n - 1);
        NextOccurrenceIsPlaced(weights, n - 1);
        SameScoreSameOccurrence(s[p].weight, s[p].occurrence, s[n - 1].occurrence);
        assert p < n - 1 ==> Before(s[p], s[n - 1]);
        assert p > n - 1 ==> Before(s[n - 1], s[p]);
      }
    }
  }

  /** Each entry's occurrence number is the number of its form's entries before it. */
  lemma {:induction false} NextOccurrenceIsPlaced(weights: seq<nat>, n: nat)
    requires n < |Schedule(weights)|
    ensures var s := Schedule(weights); s[n].occurrence == Count(s, s[n].form, n)
    decreases n, 1
  {
    ScheduleIsComplete(weights);
    var s := Schedule(weights);
    hide Schedule;
    var c := Count(s, s[n].form, n);
    assert OfForms(weights, s[n]);
    PrefixHoldsTheFirst(weights, n, n);
    if s[n].occurrence > c {
      // The occurrence numbered c is somewhere, not before n, yet it must be.
      var e := Entry(s[n].form, c, s[n].weight);
      assert OfForms(weights, e) && e in s;
      var q := Located(weights, e);
      PrefixHoldsTheFirst(weights, n, q);
      SameScoreSameOccurrence(e.weight, e.occurrence, s[n].occurrence);
      assert false;
    }
  }

  /** The last entry of one form in a prefix precedes the next one of another. */
  lemma LastPrecedesNext(weights: seq<nat>, n: nat, i: nat, j: nat)
    requires n <= |Schedule(weights)| && i < |weights| && j < |weights|
    requires Count(Schedule(weights), i, n) >= 1 && Count(Schedule(weights), j, n) < weights[j]
    ensures Before(Entry(i, Count(Schedule(weights), i, n) - 1, weights[i]),
                   Entry(j, Count(Schedule(weights), j, n), weights[j]))
  {
    hide Before;
    hide Schedule;
    var s := Schedule(weights);
    CountIsBounded(weights, i, n);
    var last, next := Entry(i, Count(s, i, n) - 1, weights[i]), Entry(j, Count(s, j, n), weights[j]);
    hide Count;
    assert OfForms(weights, last) && OfForms(weights, next);
    var p := Located(weights, last);
    var q := Located(weights, next);
    PrefixHoldsTheFirst(weights, n, p);
    PrefixHoldsTheFirst(weights, n, q);
    ScheduleIsComplete(weights);
  }

  lemma BeforeMeansBehind(i: nat, ci: nat, wi: nat, j: nat, cj: nat, wj: nat)
    requires ci >= 1 && Before(Entry(i, ci - 1, wi), Entry(j, cj, wj))
    ensures (2 * ci - 1) * wj <= (2 * cj + 1) * wi
  {
    assert 2 * (ci - 1) + 1 == 2 * ci - 1;
  }

  /** Every prefix is balanced: a form that already stands in it is never ahead
      of one that is still to come by more than half an occurrence each. */
  lemma PrefixIsBalanced(weights: seq<nat>, n: nat, i: nat, j: nat)
    requires n <= |Schedule(weights)| && i < |weights| && j < |weights|
    requires Count(Schedule(weights), i, n) >= 1 && Count(Schedule(weights), j, n) < weights[j]
    ensures var s := Schedule(weights);
            (2 * Count(s, i, n) - 1) * weights[j] <= (2 * Count(s, j, n) + 1) * weights[i]
  {
    hide Before;
    hide Schedule;
    hide Count;
    LastPrecedesNext(weights, n, i, j);
    BeforeMeansBehind(i, Count(Schedule(weights), i, n), weights[i], j, Count(Schedule(weights), j, n), weights[j]);
  }

  /** No form stands in the schedule more often than its weight. */
  lemma CountIsBounded(weights: seq<nat>, form: nat, n: nat)
    requires n <= |Schedule(weights)| && form < |weights|
    ensures Count(Schedule(weights), form, n) <= weights[form]
    decreases n
  {
    ScheduleIsComplete(weights);
    var s := Schedule(weights);
    hide Schedule;
    if n > 0 {
      CountIsBounded(weights, form, n - 1);
      NextOccurrenceIsPlaced(weights, n - 1);
      assert OfForms(weights, s[n - 1]);
    }
  }

  function Total(weights: seq<nat>): nat {
    if weights == [] then 0 else weights[0] + Total(weights[1..])
  }

  lemma {:induction false} EntriesCount(weights: seq<nat>, form: nat)
    requires form <= |weights|
    ensures |Entries(weights, form)| == Total(weights[form..])
    decreases |weights| - form
  {
    if form < |weights| {
      EntriesCount(weights, form + 1);
      assert weights[form..][0] == weights[form] && weights[form..][1..] == weights[form + 1..];
    }
  }

  /** The cycle is as long as the weights add up to. */
  lemma ScheduleLength(weights: seq<nat>)
    ensures |Schedule(weights)| == Total(weights)
  {
    EntriesCount(weights, 0);
    assert weights[0..] == weights;
    SortMembers(Entries(weights, 0), Before);
  }
}
