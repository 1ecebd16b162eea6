/**
  Two laws of the generator.  Distinctness: in one culture, two actors get the
  same form and the same components exactly when they have the same form and
  their sequence numbers are congruent modulo that form's space.  Soundness: an
  accepted configuration names every actor in every context, validly.
 */
module NamingLaws {
  import opened Bits
  import opened NumberTheory
  import opened MixedRadix
  import opened NamingSchedule
  import opened Options
  import opened NamingText
  import opened NamingValidity
  import opened Naming
  import opened NamingValidator

  // ------------------------------------------------------- spaces and digits

  lemma SizesSplit(pools: map<string, seq<string>>, id: string, rest: seq<string>)
    ensures PoolSizes(pools, [id] + rest) == [PoolSize(pools, id)] + PoolSizes(pools, rest)
    ensures Product(PoolSizes(pools, [id] + rest)) == PoolSize(pools, id) * Product(PoolSizes(pools, rest))
  {
    var all := PoolSizes(pools, [id] + rest);
    assert all == [PoolSize(pools, id)] + PoolSizes(pools, rest);
    assert all[1..] == PoolSizes(pools, rest);
  }

  /** The fold over all placeholders is the product over the distinct ones. */
  lemma {:induction false} SpaceIsProduct(pools: map<string, seq<string>>, ids: seq<string>, seen: set<string>, size: nat)
    requires SpaceFrom(pools, ids, seen, size).Some?
    ensures forall id :: id in FirstOnly(ids, seen) ==> id in pools
    ensures SpaceFrom(pools, ids, seen, size).value == size * Product(PoolSizes(pools, FirstOnly(ids, seen)))
    decreases |ids|
  {
    if ids != [] {
      if ids[0] in seen {
        SpaceIsProduct(pools, ids[1..], seen, size);
      } else {
        var n, rest := |pools[ids[0]]|, FirstOnly(ids[1..], seen + {ids[0]});
        SpaceIsProduct(pools, ids[1..], seen + {ids[0]}, size * n);
        SizesSplit(pools, ids[0], rest);
        hide Product;
        hide PoolSizes;
        Regroups(size, n, Product(PoolSizes(pools, rest)));
      }
    }
  }

  lemma {:induction false} FirstOnlyIsDistinct(ids: seq<string>, seen: set<string>)
    ensures var u := FirstOnly(ids, seen);
            && (forall id :: id in u ==> id in ids && id !in seen)
            && (forall id :: id in ids ==> id in u || id in seen)
            && forall i, j :: 0 <= i < j < |u| ==> u[i] != u[j]
    decreases |ids|
  {
    if ids != [] {
      if ids[0] in seen {
        FirstOnlyIsDistinct(ids[1..], seen);
      } else {
        FirstOnlyIsDistinct(ids[1..], seen + {ids[0]});
        var rest := FirstOnly(ids[1..], seen + {ids[0]});
        forall i | 0 <= i < |rest| ensures rest[i] != ids[0] {
          assert rest[i] in rest;
        }
      }
    }
  }

  predicate AllNonempty(pools: map<string, seq<string>>, ids: seq<string>) {
    forall i :: 0 <= i < |ids| ==> ids[i] in pools && pools[ids[i]] != []
  }

  lemma NonemptyIsPositive(pools: map<string, seq<string>>, ids: seq<string>)
    requires AllNonempty(pools, ids)
    ensures Positive(PoolSizes(pools, ids))
  {}

  lemma DigitsSplit(pools: map<string, seq<string>>, id: string, rest: seq<string>, index: nat)
    requires Positive(PoolSizes(pools, [id] + rest))
    ensures PoolSize(pools, id) > 0 && Positive(PoolSizes(pools, rest))
    ensures Digits(index, PoolSizes(pools, [id] + rest))
         == [index % PoolSize(pools, id)] + Digits(index / PoolSize(pools, id), PoolSizes(pools, rest))
  {
    var all := PoolSizes(pools, [id] + rest);
    assert all[0] == PoolSize(pools, id) && all[1..] == PoolSizes(pools, rest);
  }

  /** The selection keeps what was chosen and reads `u` off the index's digits. */
  predicate ReadsOff(pools: map<string, seq<string>>, u: seq<string>, chosen: map<string, string>, index: nat,
                     c: Choice)
    requires AllNonempty(pools, u) && Positive(PoolSizes(pools, u))
  {
    && c.Chosen?
    && (forall id :: id in chosen ==> id in c.selected && c.selected[id] == chosen[id])
    && (forall id :: id in c.selected ==> id in chosen || id in u)
    && forall i :: 0 <= i < |u| ==>
         u[i] in c.selected && c.selected[u[i]] == pools[u[i]][Digits(index, PoolSizes(pools, u))[i]]
  }

  lemma ReadsOneMore(pools: map<string, seq<string>>, id: string, rest: seq<string>, chosen: map<string, string>,
                     index: nat, c: Choice)
    requires AllNonempty(pools, [id] + rest) && id !in chosen
    requires Positive(PoolSizes(pools, [id] + rest)) && Positive(PoolSizes(pools, rest)) && AllNonempty(pools, rest)
    requires id in pools && pools[id] != []
    requires ReadsOff(pools, rest, chosen[id := pools[id][index % |pools[id]|]], index / |pools[id]|, c)
    ensures ReadsOff(pools, [id] + rest, chosen, index, c)
  {
    var u := [id] + rest;
    DigitsSplit(pools, id, rest, index);
    hide Digits;
    hide PoolSizes;
    forall i | 0 <= i < |u|
      ensures u[i] in c.selected && c.selected[u[i]] == pools[u[i]][Digits(index, PoolSizes(pools, u))[i]]
    {
      if i > 0 {
        assert u[i] == rest[i - 1];
      }
    }
    forall other | other in c.selected ensures other in chosen || other in u {
      assert u[0] == id;
    }
  }

  /** Selecting is reading off mixed-radix digits, one per distinct placeholder. */
  lemma {:induction false} SelectionIsDigits(pools: map<string, seq<string>>, ids: seq<string>,
                                             chosen: map<string, string>, index: nat)
    requires AllNonempty(pools, FirstOnly(ids, chosen.Keys)) && Positive(PoolSizes(pools, FirstOnly(ids, chosen.Keys)))
    ensures ReadsOff(pools, FirstOnly(ids, chosen.Keys), chosen, index, SelectFrom(pools, ids, chosen, index))
    decreases |ids|
  {
    if ids != [] {
      if ids[0] in chosen {
        SelectionIsDigits(pools, ids[1..], chosen, index);
      } else {
        var id, u := ids[0], FirstOnly(ids, chosen.Keys);
        var rest := FirstOnly(ids[1..], chosen.Keys + {id});
        assert u == [id] + rest && u[0] == id;
        var pool := pools[id];
        var next := chosen[id := pool[index % |pool|]];
        assert next.Keys == chosen.Keys + {id};
        DigitsSplit(pools, id, rest, index);
        assert AllNonempty(pools, rest) by { TailIsNonempty(pools, id, rest); }
        hide ReadsOff;
        SelectionIsDigits(pools, ids[1..], next, index / |pool|);
        ReadsOneMore(pools, id, rest, chosen, index, SelectFrom(pools, ids, chosen, index));
      }
    }
  }

  lemma TailIsNonempty(pools: map<string, seq<string>>, id: string, rest: seq<string>)
    requires AllNonempty(pools, [id] + rest)
    ensures AllNonempty(pools, rest)
  {
    forall i | 0 <= i < |rest| ensures rest[i] in pools && pools[rest[i]] != [] {
      assert ([id] + rest)[i + 1] == rest[i];
    }
  }

  predicate DistinctValues(pool: seq<string>) {
    forall i, j :: 0 <= i < j < |pool| ==> pool[i] != pool[j]
  }

  lemma OneReadingOneDigits(pools: map<string, seq<string>>, u: seq<string>, a: nat, b: nat, c: Choice)
    requires AllNonempty(pools, u) && Positive(PoolSizes(pools, u))
    requires forall i :: 0 <= i < |u| ==> DistinctValues(pools[u[i]])
    requires ReadsOff(pools, u, map[], a, c) && ReadsOff(pools, u, map[], b, c)
    ensures Digits(a, PoolSizes(pools, u)) == Digits(b, PoolSizes(pools, u))
  {
    var x, y := Digits(a, PoolSizes(pools, u)), Digits(b, PoolSizes(pools, u));
    forall i | 0 <= i < |u| ensures x[i] == y[i] {
      assert DistinctValues(pools[u[i]]);
      hide Digits;
      assert pools[u[i]][x[i]] == c.selected[u[i]] == pools[u[i]][y[i]];
    }
    assert x == y;
  }

  /** With distinct entries in every pool, equal selections mean equal indices. */
  lemma SelectionIsFaithful(pools: map<string, seq<string>>, ids: seq<string>, a: nat, b: nat)
    requires AllNonempty(pools, FirstOnly(ids, {}))
    requires forall i :: 0 <= i < |FirstOnly(ids, {})| ==> DistinctValues(pools[FirstOnly(ids, {})[i]])
    requires a < Product(PoolSizes(pools, FirstOnly(ids, {}))) && b < Product(PoolSizes(pools, FirstOnly(ids, {})))
    ensures SelectFrom(pools, ids, map[], a) == SelectFrom(pools, ids, map[], b) <==> a == b
  {
    hide *;
    var none: map<string, string> := map[];
    assert none.Keys == {};
    var u := FirstOnly(ids, {});
    NonemptyIsPositive(pools, u);
    SelectionIsDigits(pools, ids, none, a);
    SelectionIsDigits(pools, ids, none, b);
    if SelectFrom(pools, ids, map[], a) == SelectFrom(pools, ids, map[], b) {
      OneReadingOneDigits(pools, u, a, b, SelectFrom(pools, ids, map[], a));
      DigitsAreFaithful(a, b, PoolSizes(pools, u));
    }
  }

  // --------------------------------------------------------------- sequences

  lemma DivisionMod(n: nat, d: nat)
    requires d > 0
    ensures n == n / d * d + n % d && n % d < d
  {}

  lemma CycleIsNoLarger(cycle: nat, w: nat, len: nat)
    requires w <= len
    ensures cycle * w <= cycle * len
  {
    Distributes(cycle, len, w);
  }

  /** An actor's sequence number never exceeds its identifier, so the checked
      arithmetic of the original never fails. */
  lemma SequenceFits(actorId: nat, c: Culture)
    requires Schedule(Weights(c.forms)) != []
    ensures SequenceOf(actorId, c) <= actorId
  {
    hide Schedule;
    hide Count;
    var weights := Weights(c.forms);
    var schedule, len := Schedule(weights), |Schedule(weights)|;
    var p, place := Position(actorId, len), PlaceOf(actorId, c);
    NextOccurrenceIsPlaced(weights, p);
    ScheduleIsComplete(weights);
    assert OfForms(weights, place);
    WeightFits(weights, place.form);
    DivisionMod(actorId, len);
    CycleIsNoLarger(actorId / len, place.weight, len);
  }

  lemma WeightFits(weights: seq<nat>, form: nat)
    requires form < |weights|
    ensures weights[form] <= |Schedule(weights)|
  {
    if weights[form] > 0 {
      var p := Located(weights, Entry(form, weights[form] - 1, weights[form]));
      NextOccurrenceIsPlaced(weights, p);
    }
  }

  lemma NumberedIsFaithful(i: nat, p: Entry, j: nat, q: Entry)
    requires p.weight == q.weight && p.occurrence < p.weight && q.occurrence < q.weight
    requires Numbered(i, p) == Numbered(j, q)
    ensures i == j && p.occurrence == q.occurrence
  {
    UniqueRemainder(Numbered(i, p), p.weight, i, p.occurrence);
    UniqueRemainder(Numbered(j, q), q.weight, j, q.occurrence);
  }

  /** No two actors of a culture share both form and sequence number. */
  lemma PlacesAreFaithful(a: nat, b: nat, c: Culture)
    requires Schedule(Weights(c.forms)) != []
    ensures PlaceOf(a, c).form == PlaceOf(b, c).form && SequenceOf(a, c) == SequenceOf(b, c) <==> a == b
  {
    hide Numbered;
    hide Schedule;
    hide Position;
    hide Cycle;
    var weights := Weights(c.forms);
    var len := |Schedule(weights)|;
    var i, p, j, q := Cycle(a, len), Position(a, len), Cycle(b, len), Position(b, len);
    if PlaceOf(a, c).form == PlaceOf(b, c).form && SequenceOf(a, c) == SequenceOf(b, c) {
      SamePlaceSameIndices(weights, i, p, j, q);
      SameQuotientSameRemainder(a, b, len);
    }
  }

  lemma SamePlaceSameIndices(weights: seq<nat>, i: nat, p: nat, j: nat, q: nat)
    requires p < |Schedule(weights)| && q < |Schedule(weights)|
    requires Schedule(weights)[p].form == Schedule(weights)[q].form
    requires Numbered(i, Schedule(weights)[p]) == Numbered(j, Schedule(weights)[q])
    ensures i == j && p == q
  {
    hide Schedule;
    hide Numbered;
    ScheduleIsComplete(weights);
    var s := Schedule(weights);
    assert OfForms(weights, s[p]) && OfForms(weights, s[q]);
    NumberedIsFaithful(i, s[p], j, s[q]);
    EachOccurrenceOnce(weights, p, q);
  }

  lemma SameQuotientSameRemainder(a: nat, b: nat, d: nat)
    requires d > 0 && Cycle(a, d) == Cycle(b, d) && Position(a, d) == Position(b, d)
    ensures a == b
  {
    DivisionMod(a, d);
    DivisionMod(b, d);
  }

  // ---------------------------------------------------- accepted cultures

  lemma {:induction false} AcceptedForm(c: Culture, i: nat, j: nat)
    requires PoolsOk(c.pools) && i <= j < |c.forms| && FormsError(c, i) == None
    ensures FormError(c, c.forms[j]) == None
    decreases |c.forms| - i
  {
    hide FormError;
    if i < j {
      AcceptedForm(c, i + 1, j);
    }
  }

  lemma ScheduleIsNotEmpty(c: Culture)
    requires CultureError(c) == None
    ensures Schedule(Weights(c.forms)) != []
  {
    AcceptedForm(c, 0, 0);
    var p := Located(Weights(c.forms), Entry(0, 0, c.forms[0].weight));
  }

  /** What acceptance says about a form. */
  lemma AcceptedFormMeans(c: Culture, j: nat)
    requires CultureError(c) == None && j < |c.forms|
    ensures var form := c.forms[j];
            && Parse(form.pattern).Some? && FormSpace(c, form).Some?
            && var ids := Placeholders(Parse(form.pattern).value);
               && (forall id :: id in ids ==> id in c.pools && PoolOk(id, c.pools[id]))
               && Supplied(c.pools, ids) && RendersWell(c.pools, form.pattern, ids)
  {
    hide PoolOk;
    hide RendersWell;
    hide FormSpace;
    hide Parse;
    AcceptedForm(c, 0, j);
    var ids := Placeholders(Parse(c.forms[j].pattern).value);
    KnownPoolsSupply(c.pools, ids);
  }

  lemma PoolsOfFirst(c: Culture, ids: seq<string>)
    requires forall id :: id in ids ==> id in c.pools && PoolOk(id, c.pools[id])
    ensures AllNonempty(c.pools, FirstOnly(ids, {})) && Positive(PoolSizes(c.pools, FirstOnly(ids, {})))
    ensures forall i :: 0 <= i < |FirstOnly(ids, {})| ==> DistinctValues(c.pools[FirstOnly(ids, {})[i]])
  {
    FirstOnlyIsDistinct(ids, {});
    var u := FirstOnly(ids, {});
    forall i | 0 <= i < |u| ensures u[i] in c.pools && c.pools[u[i]] != [] && DistinctValues(c.pools[u[i]]) {
      assert u[i] in u && PoolOk(u[i], c.pools[u[i]]);
      hide Lower;
    }
  }

  /** The space of an accepted form is the product of its distinct pools' sizes. */
  lemma AcceptedSpace(c: Culture, j: nat)
    requires CultureError(c) == None && j < |c.forms|
    ensures FormSpace(c, c.forms[j]).Some? && FormSpace(c, c.forms[j]).value > 0
    ensures var s := Parse(c.forms[j].pattern);
            s.Some? && FormSpace(c, c.forms[j]).value
                       == Product(PoolSizes(c.pools, FirstOnly(Placeholders(s.value), {})))
  {
    AcceptedFormMeans(c, j);
    var ids := Placeholders(Parse(c.forms[j].pattern).value);
    PoolsOfFirst(c, ids);
    SpaceIsProduct(c.pools, ids, {}, 1);
    ProductIsPositive(PoolSizes(c.pools, FirstOnly(ids, {})));
  }

  // ------------------------------------------------------------ distinctness

  lemma PlaceIsAForm(actorId: nat, c: Culture)
    requires Schedule(Weights(c.forms)) != []
    ensures PlaceOf(actorId, c).form < |c.forms|
  {
    ScheduleIsComplete(Weights(c.forms));
    assert OfForms(Weights(c.forms), PlaceOf(actorId, c));
  }

  /** The form of an actor's name, in a culture that passed the check. */
  function FormOf(actorId: nat, c: Culture): (j: nat)
    requires CultureError(c) == None
    ensures j < |c.forms|
  {
    ScheduleIsNotEmpty(c);
    PlaceIsAForm(actorId, c);
    PlaceOf(actorId, c).form
  }

  function NumberOf(actorId: nat, c: Culture): nat
    requires CultureError(c) == None
  {
    ScheduleIsNotEmpty(c);
    SequenceOf(actorId, c)
  }

  function SpaceOf(actorId: nat, c: Culture): (space: nat)
    requires CultureError(c) == None
    ensures space > 0
  {
    AcceptedSpace(c, FormOf(actorId, c));
    FormSpace(c, c.forms[FormOf(actorId, c)]).value
  }

  /** The components selected for an actor. */
  function SelectionOf(actorId: nat, c: Culture): Choice
    requires CultureError(c) == None
  {
    var form := c.forms[FormOf(actorId, c)];
    AcceptedSpace(c, FormOf(actorId, c));
    SelectFrom(c.pools, Placeholders(Parse(form.pattern).value), map[],
               Permuted(NumberOf(actorId, c), SpaceOf(actorId, c), Salt(c, form)))
  }

  lemma PermutedIsFaithful(a: nat, b: nat, space: nat, salt: nat)
    requires space > 0
    ensures Permuted(a, space, salt) == Permuted(b, space, salt) <==> a % space == b % space
  {
    hide Xor;
    hide RotateLeft23;
    hide Multiplier;
    hide Affine;
    AffineIsInjective(a, b, Multiplier(Xor(0x9E37_79B9_7F4A_7C15, salt), space),
                      Xor(0xD1B5_4A32_D192_ED03, RotateLeft23(salt)) % space, space);
  }

  /** Two actors get the same form and the same components exactly when they get
      the same form and their sequence numbers agree modulo its space. */
  lemma SameComponentsIff(a: nat, b: nat, c: Culture)
    requires CultureError(c) == None
    ensures FormOf(a, c) == FormOf(b, c) && SelectionOf(a, c) == SelectionOf(b, c)
       <==> FormOf(a, c) == FormOf(b, c) && NumberOf(a, c) % SpaceOf(a, c) == NumberOf(b, c) % SpaceOf(a, c)
  {
    if FormOf(a, c) == FormOf(b, c) {
      var j := FormOf(a, c);
      var form, salt := c.forms[j], Salt(c, c.forms[j]);
      hide FormOf;
      hide NumberOf;
      hide Salt;
      AcceptedSpace(c, j);
      AcceptedFormMeans(c, j);
      hide CultureError;
      var space, ids := SpaceOf(a, c), Placeholders(Parse(form.pattern).value);
      assert space == SpaceOf(b, c) == FormSpace(c, form).value;
      hide SpaceOf;
      hide FormSpace;
      hide Parse;
      PoolsOfFirst(c, ids);
      var x, y := Permuted(NumberOf(a, c), space, salt), Permuted(NumberOf(b, c), space, salt);
      SelectionIsFaithful(c.pools, ids, x, y);
      hide SelectFrom;
      PermutedIsFaithful(NumberOf(a, c), NumberOf(b, c), space, salt);
      hide Permuted;
    }
  }

  // ---------------------------------------------------------------- soundness

  lemma SelectionCovers(c: Culture, s: seq<Segment>, index: nat)
    requires forall id :: id in Placeholders(s) ==> id in c.pools && PoolOk(id, c.pools[id])
    ensures var choice := SelectFrom(c.pools, Placeholders(s), map[], index);
            && choice.Chosen? && Covers(choice.selected, s)
            && forall id :: id in Placeholders(s) ==> id in choice.selected && choice.selected[id] in c.pools[id]
  {
    var ids, none: map<string, string> := Placeholders(s), map[];
    var u := FirstOnly(ids, {});
    assert none.Keys == {};
    PoolsOfFirst(c, ids);
    FirstOnlyIsDistinct(ids, {});
    SelectionIsDigits(c.pools, ids, none, index);
    var choice := SelectFrom(c.pools, ids, map[], index);
    forall id | id in ids
      ensures id in choice.selected && choice.selected[id] in c.pools[id] && ValidComponent(choice.selected[id])
    {
      assert id in u;
      var i :| 0 <= i < |u| && u[i] == id;
      assert PoolOk(id, c.pools[id]);
    }
  }

  lemma ExtremesCover(c: Culture, s: seq<Segment>, longest: bool)
    requires forall id :: id in Placeholders(s) ==> id in c.pools && PoolOk(id, c.pools[id])
    requires Supplied(c.pools, Placeholders(s))
    ensures Covers(Extremes(c.pools, Placeholders(s), longest), s)
  {
    var r := Extremes(c.pools, Placeholders(s), longest);
    forall id | id in Placeholders(s) ensures ValidComponent(r[id]) {
      assert PoolOk(id, c.pools[id]) && r[id] in c.pools[id];
    }
  }

  lemma WellRenderedMeans(c: Culture, pattern: string)
    requires Parse(pattern).Some?
    requires forall id :: id in Placeholders(Parse(pattern).value) ==> id in c.pools && PoolOk(id, c.pools[id])
    requires Supplied(c.pools, Placeholders(Parse(pattern).value))
    requires RendersWell(c.pools, pattern, Placeholders(Parse(pattern).value))
    ensures var s := Parse(pattern).value;
            && SegmentsOk(s) && WellSpaced(s)
            && Covers(Extremes(c.pools, Placeholders(s), true), s)
            && |Fill(s, Extremes(c.pools, Placeholders(s), true))| <= MAX_NAME_LENGTH
  {
    var s := Parse(pattern).value;
    hide PoolOk;
    ExtremesCover(c, s, false);
    ExtremesCover(c, s, true);
    ParsedSpellsPattern(pattern, 0);
    hide Parse;
    RenderIsFill(pattern, Extremes(c.pools, Placeholders(s), false));
    RenderIsFill(pattern, Extremes(c.pools, Placeholders(s), true));
    hide Render;
    FilledIsValidIff(s, Extremes(c.pools, Placeholders(s), false));
    hide ValidName;
    hide WellSpaced;
    hide Covers;
  }

  /** The longest filling bounds every other one. */
  lemma FillingIsAcceptable(s: seq<Segment>, selected: map<string, string>, most: map<string, string>)
    requires SegmentsOk(s) && WellSpaced(s) && Covers(selected, s)
    requires forall id :: id in Placeholders(s) ==> id in most && |selected[id]| <= |most[id]|
    requires |Fill(s, most)| <= MAX_NAME_LENGTH
    ensures Acceptable(Fill(s, selected))
  {
    FilledIsValidIff(s, selected);
    hide ValidName;
    hide WellSpaced;
    FilledLengthIsMonotone(s, selected, most);
    hide Fill;
    hide Covers;
  }

  lemma SelectionsAreNoLonger(c: Culture, s: seq<Segment>, selected: map<string, string>)
    requires forall id :: id in Placeholders(s) ==> id in c.pools && id in selected && selected[id] in c.pools[id]
    requires Supplied(c.pools, Placeholders(s))
    ensures var most := Extremes(c.pools, Placeholders(s), true);
            forall id :: id in Placeholders(s) ==> id in most && |selected[id]| <= |most[id]|
  {
    hide Placeholders;
  }

  lemma SpellNameIsRender(c: Culture, form: Form, index: nat, s: seq<Segment>, choice: Choice)
    requires Parse(form.pattern) == Some(s)
    requires choice == SelectFrom(c.pools, Placeholders(s), map[], index) && choice.Chosen?
    ensures var name := Render(form.pattern, choice.selected);
            SpellName(c, form, index) == if name.None? then NoName else Named(name.value)
  {
    hide Render;
    hide Parse;
    hide SelectFrom;
    hide Placeholders;
  }

  /** Every index spells an acceptable name. */
  lemma EveryIndexSpellsWell(c: Culture, j: nat, index: nat)
    requires CultureError(c) == None && j < |c.forms|
    ensures var g := SpellName(c, c.forms[j], index); g.Named? && Acceptable(g.name)
  {
    hide *;
    var pattern := c.forms[j].pattern;
    AcceptedFormMeans(c, j);
    WellRenderedMeans(c, pattern);
    var s := Parse(pattern).value;
    SelectionCovers(c, s, index);
    var choice := SelectFrom(c.pools, Placeholders(s), map[], index);
    SelectionsAreNoLonger(c, s, choice.selected);
    FillingIsAcceptable(s, choice.selected, Extremes(c.pools, Placeholders(s), true));
    SpellNameIsRender(c, c.forms[j], index, s, choice);
    RenderIsFill(pattern, choice.selected);
  }

  lemma {:induction false} AcceptedCulture(cultures: seq<Culture>, i: nat, seen: set<string>, k: nat)
    requires i <= k < |cultures| && CulturesError(cultures, i, seen) == None
    ensures CultureError(cultures[k]) == None
    decreases |cultures| - i
  {
    hide CultureError;
    if i < k {
      AcceptedCulture(cultures, i + 1, seen + {Lower(cultures[i].id)}, k);
    }
  }

  /** An accepted configuration has a culture for every context: its default
      exists under exactly the name it gives. */
  lemma EveryContextHasACulture(config: Config, context: Option<Context>)
    requires Accepted(config)
    ensures ChooseCulture(config, context).Some?
    ensures CultureError(ChooseCulture(config, context).value) == None
  {
    hide CultureError;
    hide TotalSpace;
    assert ChooseCulture(config, None).Some?;
    forall k: nat | k < |config.cultures| ensures CultureError(config.cultures[k]) == None {
      AcceptedCulture(config.cultures, 0, {}, k);
    }
    hide CulturesError;
  }

  /** The name an actor gets is what its permuted index spells in its form. */
  lemma NameIsSpelling(actorId: nat, c: Culture)
    requires CultureError(c) == None && actorId <= U64_MAX
    ensures NameInCulture(actorId, c)
         == SpellName(c, c.forms[FormOf(actorId, c)],
                      Permuted(NumberOf(actorId, c), SpaceOf(actorId, c), Salt(c, c.forms[FormOf(actorId, c)])))
  {
    ScheduleIsNotEmpty(c);
    PlaceIsAForm(actorId, c);
    SequenceFits(actorId, c);
    var j := PlaceOf(actorId, c).form;
    AcceptedSpace(c, j);
    EveryIndexSpellsWell(c, j, Permuted(SequenceOf(actorId, c), FormSpace(c, c.forms[j]).value, Salt(c, c.forms[j])));
    hide CultureError, Acceptable, SequenceOf, PlaceOf, Schedule, FormSpace, SpellName, Permuted, Weights, Salt;
  }

  lemma AcceptedCultureNames(actorId: nat, c: Culture)
    requires CultureError(c) == None && actorId <= U64_MAX
    ensures var g := NameInCulture(actorId, c); g.Named? && Acceptable(g.name)
  {
    hide *;
    NameIsSpelling(actorId, c);
    EveryIndexSpellsWell(c, FormOf(actorId, c), Permuted(NumberOf(actorId, c), SpaceOf(actorId, c),
                                                         Salt(c, c.forms[FormOf(actorId, c)])));
  }

  /** Soundness: an accepted configuration names every actor, in every context,
      with a valid name of at most twenty-eight characters. */
  lemma AcceptedConfigAlwaysNames(actorId: nat, config: Config, context: Option<Context>)
    requires Accepted(config) && actorId <= U64_MAX
    ensures var g := GeneratedName(actorId, config, context); g.Named? && Acceptable(g.name)
  {
    EveryContextHasACulture(config, context);
    AcceptedCultureNames(actorId, ChooseCulture(config, context).value);
    assert config.strategy == STRATEGY;
    hide Accepted, CultureError, ChooseCulture, NameInCulture, Acceptable;
  }
}
