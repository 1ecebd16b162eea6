/**
  From components to names.  A pattern spells two selections alike exactly when
  they agree word by word; so two actors of one form bear one name exactly when
  their components do.  Names coincide for congruent sequence numbers alone if
  and only if no two selections from the form's pools agree in every word, which
  is so when no word has more than one slot.
 */
module NamingSpelling {
  import opened Bits
  import opened NumberTheory
  import opened MixedRadix
  import opened Options
  import opened NamingText
  import opened Naming
  import opened NamingValidator
  import opened NamingLaws

  // ------------------------------------------------------------------- words

  /** No slot before the first literal space. */
  predicate NoSlotInWord(s: seq<Segment>) {
    s == [] || s[0] == Text(' ') || (s[0].Text? && NoSlotInWord(s[1..]))
  }

  /** Between any two slots there is a literal space. */
  predicate OneSlotPerWord(s: seq<Segment>) {
    s == [] || ((s[0].Slot? ==> NoSlotInWord(s[1..])) && OneSlotPerWord(s[1..]))
  }

  function FirstSpace(t: string): nat {
    if t == [] || t[0] == ' ' then 0 else 1 + FirstSpace(t[1..])
  }

  lemma {:induction false} SpaceBehindWord(v: string, t: string)
    requires forall i :: 0 <= i < |v| ==> v[i] != ' '
    ensures FirstSpace(v + t) == |v| + FirstSpace(t)
    decreases |v|
  {
    if v == [] {
      assert v + t == t;
    } else {
      assert (v + t)[1..] == v[1..] + t;
      SpaceBehindWord(v[1..], t);
    }
  }

  lemma CoversRest(s: seq<Segment>, selected: map<string, string>)
    requires s != [] && Covers(selected, s)
    ensures Covers(selected, s[1..]) && Fill(s, selected) == Filling(s[0], selected) + Fill(s[1..], selected)
  {
    PlaceholdersSplit(s);
  }

  /** A word without a slot is as long in every filling. */
  lemma {:induction false} WordIsFixed(s: seq<Segment>, x: map<string, string>, y: map<string, string>)
    requires SegmentsOk(s) && Covers(x, s) && Covers(y, s) && NoSlotInWord(s)
    ensures FirstSpace(Fill(s, x)) == FirstSpace(Fill(s, y))
    decreases |s|
  {
    if s != [] {
      CoversRest(s, x);
      CoversRest(s, y);
      if s[0] != Text(' ') {
        WordIsFixed(s[1..], x, y);
        SpaceBehindWord([s[0].c], Fill(s[1..], x));
        SpaceBehindWord([s[0].c], Fill(s[1..], y));
      }
    }
    hide Covers, Fill;
  }

  lemma ComponentHasNoSpace(v: string)
    requires ValidComponent(v)
    ensures forall i :: 0 <= i < |v| ==> v[i] != ' '
  {}

  lemma EqualHeads(h: string, t: string, k: string, u: string)
    requires h + t == k + u && |h| == |k|
    ensures h == k && t == u
  {
    assert h == (h + t)[..|h|] && k == (k + u)[..|k|];
    assert t == (h + t)[|h|..] && u == (k + u)[|k|..];
  }

  /** Equal fillings have equal first components, */
  lemma SlotIsFaithful(s: seq<Segment>, x: map<string, string>, y: map<string, string>)
    requires s != [] && s[0].Slot? && SegmentsOk(s) && Covers(x, s) && Covers(y, s) && NoSlotInWord(s[1..])
    requires Fill(s, x) == Fill(s, y)
    ensures x[s[0].id] == y[s[0].id] && Covers(x, s[1..]) && Covers(y, s[1..]) && Fill(s[1..], x) == Fill(s[1..], y)
  {
    PlaceholdersSplit(s);
    var v, w := x[s[0].id], y[s[0].id];
    ComponentHasNoSpace(v);
    ComponentHasNoSpace(w);
    hide ValidComponent;
    CoversRest(s, x);
    CoversRest(s, y);
    SpaceBehindWord(v, Fill(s[1..], x));
    SpaceBehindWord(w, Fill(s[1..], y));
    WordIsFixed(s[1..], x, y);
    EqualHeads(v, Fill(s[1..], x), w, Fill(s[1..], y));
  }

  /** And so on through the pattern: it spells two selections alike exactly when
      they agree on all its slots. */
  lemma {:induction false} SpellingIsFaithful(s: seq<Segment>, x: map<string, string>, y: map<string, string>)
    requires SegmentsOk(s) && OneSlotPerWord(s) && Covers(x, s) && Covers(y, s)
    ensures Fill(s, x) == Fill(s, y) <==> forall id :: id in Placeholders(s) ==> x[id] == y[id]
    decreases |s|
  {
    hide ValidComponent;
    if s != [] {
      PlaceholdersSplit(s);
      CoversRest(s, x);
      CoversRest(s, y);
      SpellingIsFaithful(s[1..], x, y);
      if Fill(s, x) == Fill(s, y) {
        if s[0].Slot? {
          SlotIsFaithful(s, x, y);
        } else {
          EqualHeads([s[0].c], Fill(s[1..], x), [s[0].c], Fill(s[1..], y));
        }
      }
      hide Fill, Covers;
    }
  }

  // ------------------------------------------------------------ word by word

  /** How many segments stand before the first literal space. */
  function WordEnd(s: seq<Segment>): (n: nat)
    ensures n <= |s| && (n < |s| ==> s[n] == Text(' '))
    ensures forall i :: 0 <= i < n ==> s[i] != Text(' ')
  {
    if s == [] || s[0] == Text(' ') then 0 else 1 + WordEnd(s[1..])
  }

  lemma CoversParts(s: seq<Segment>, n: nat, selected: map<string, string>)
    requires n <= |s| && Covers(selected, s)
    ensures Covers(selected, s[..n]) && Covers(selected, s[n..])
    ensures Fill(s, selected) == Fill(s[..n], selected) + Fill(s[n..], selected)
  {
    hide ValidComponent, Fill;
    assert s == s[..n] + s[n..];
    PlaceholdersAppend(s[..n], s[n..]);
    hide Placeholders;
    FillAppend(s[..n], s[n..], selected);
  }

  lemma CoversWords(s: seq<Segment>, selected: map<string, string>)
    requires Covers(selected, s)
    ensures var n := WordEnd(s);
            && Covers(selected, s[..n]) && (n < |s| ==> Covers(selected, s[n + 1..]))
            && Fill(s, selected) == (if n == |s| then Fill(s[..n], selected)
                                     else Fill(s[..n], selected) + ([' '] + Fill(s[n + 1..], selected)))
  {
    var n := WordEnd(s);
    CoversParts(s, n, selected);
    if n < |s| {
      CoversRest(s[n..], selected);
      assert s[n..][1..] == s[n + 1..];
    } else {
      assert s[..n] == s;
    }
    hide Covers, Fill, WordEnd;
  }

  /** The two selections spell each word of the pattern alike. */
  predicate AlikeByWord(s: seq<Segment>, x: map<string, string>, y: map<string, string>)
    requires Covers(x, s) && Covers(y, s)
    decreases |s|
  {
    var n := WordEnd(s);
    CoversWords(s, x);
    CoversWords(s, y);
    Fill(s[..n], x) == Fill(s[..n], y) && (n < |s| ==> AlikeByWord(s[n + 1..], x, y))
  }

  lemma {:induction false} WordHasNoSpace(s: seq<Segment>, selected: map<string, string>)
    requires Covers(selected, s) && forall i :: 0 <= i < |s| ==> s[i] != Text(' ')
    ensures forall i :: 0 <= i < |Fill(s, selected)| ==> Fill(s, selected)[i] != ' '
    decreases |s|
  {
    if s != [] {
      CoversRest(s, selected);
      WordHasNoSpace(s[1..], selected);
      if s[0].Slot? {
        PlaceholdersSplit(s);
        ComponentHasNoSpace(selected[s[0].id]);
      }
      hide Covers, Fill;
    }
  }

  lemma EqualWords(u: string, t: string, v: string, r: string)
    requires forall i :: 0 <= i < |u| ==> u[i] != ' '
    requires forall i :: 0 <= i < |v| ==> v[i] != ' '
    ensures u + ([' '] + t) == v + ([' '] + r) <==> u == v && t == r
  {
    if u + ([' '] + t) == v + ([' '] + r) {
      SpaceBehindWord(u, [' '] + t);
      SpaceBehindWord(v, [' '] + r);
      EqualHeads(u, [' '] + t, v, [' '] + r);
      EqualHeads([' '], t, [' '], r);
    }
  }

  lemma FirstWordHasNoSpace(s: seq<Segment>, selected: map<string, string>)
    requires Covers(selected, s) && Covers(selected, s[..WordEnd(s)])
    ensures forall i :: 0 <= i < |Fill(s[..WordEnd(s)], selected)| ==> Fill(s[..WordEnd(s)], selected)[i] != ' '
  {
    hide Covers, Fill;
    WordHasNoSpace(s[..WordEnd(s)], selected);
  }

  /** A pattern spells two selections alike exactly when it does so word by word. */
  lemma {:induction false} SpellingMeansWords(s: seq<Segment>, x: map<string, string>, y: map<string, string>)
    requires Covers(x, s) && Covers(y, s)
    ensures Fill(s, x) == Fill(s, y) <==> AlikeByWord(s, x, y)
    decreases |s|
  {
    hide WordEnd, ValidComponent, Placeholders, Fill;
    var n := WordEnd(s);
    CoversWords(s, x);
    CoversWords(s, y);
    if n < |s| {
      SpellingMeansWords(s[n + 1..], x, y);
      FirstWordHasNoSpace(s, x);
      FirstWordHasNoSpace(s, y);
      EqualWords(Fill(s[..n], x), Fill(s[n + 1..], x), Fill(s[..n], y), Fill(s[n + 1..], y));
    }
  }

  // ------------------------------------------------------------------- names

  /** The segments of an accepted form's pattern. */
  function PatternOf(c: Culture, j: nat): (s: seq<Segment>)
    requires CultureError(c) == None && j < |c.forms|
    ensures Parse(c.forms[j].pattern) == Some(s) && SegmentsOk(s)
    ensures forall id :: id in Placeholders(s) ==> id in c.pools && PoolOk(id, c.pools[id])
  {
    AcceptedFormMeans(c, j);
    ParsedSpellsPattern(c.forms[j].pattern, 0);
    Parse(c.forms[j].pattern).value
  }

  /** The components an index selects. */
  function ComponentsAt(c: Culture, j: nat, index: nat): (x: map<string, string>)
    requires CultureError(c) == None && j < |c.forms|
    ensures SelectFrom(c.pools, Placeholders(PatternOf(c, j)), map[], index) == Chosen(x)
    ensures Covers(x, PatternOf(c, j))
  {
    SelectionCovers(c, PatternOf(c, j), index);
    SelectFrom(c.pools, Placeholders(PatternOf(c, j)), map[], index).selected
  }

  /** What an index of an accepted form spells. */
  lemma SpellingIsFilling(c: Culture, j: nat, index: nat)
    requires CultureError(c) == None && j < |c.forms|
    ensures SpellName(c, c.forms[j], index) == Named(Fill(PatternOf(c, j), ComponentsAt(c, j, index)))
  {
    hide *;
    var s, x := PatternOf(c, j), ComponentsAt(c, j, index);
    SpellNameIsRender(c, c.forms[j], index, s, Chosen(x));
    RenderIsFill(c.forms[j].pattern, x);
  }

  /** Two indices of a form spell one name exactly when their components agree word by word. */
  lemma SameSpellingIff(c: Culture, j: nat, m: nat, n: nat)
    requires CultureError(c) == None && j < |c.forms|
    ensures SpellName(c, c.forms[j], m) == SpellName(c, c.forms[j], n)
       <==> AlikeByWord(PatternOf(c, j), ComponentsAt(c, j, m), ComponentsAt(c, j, n))
  {
    hide *;
    SpellingIsFilling(c, j, m);
    SpellingIsFilling(c, j, n);
    SpellingMeansWords(PatternOf(c, j), ComponentsAt(c, j, m), ComponentsAt(c, j, n));
  }

  /** The index of an actor's name within its form. */
  function IndexOf(actorId: nat, c: Culture): nat
    requires CultureError(c) == None
  {
    Permuted(NumberOf(actorId, c), SpaceOf(actorId, c), Salt(c, c.forms[FormOf(actorId, c)]))
  }

  /** Two actors of one form, whatever its pattern, bear the same name exactly when
      their components agree word by word. */
  lemma SameNameIff(a: nat, b: nat, c: Culture)
    requires CultureError(c) == None && a <= U64_MAX && b <= U64_MAX && FormOf(a, c) == FormOf(b, c)
    ensures var j := FormOf(a, c);
            (NameInCulture(a, c) == NameInCulture(b, c)
             <==> AlikeByWord(PatternOf(c, j), ComponentsAt(c, j, IndexOf(a, c)), ComponentsAt(c, j, IndexOf(b, c))))
  {
    NameIsSpelling(a, c);
    NameIsSpelling(b, c);
    SameSpellingIff(c, FormOf(a, c), IndexOf(a, c), IndexOf(b, c));
    hide CultureError, FormOf, NumberOf, SpaceOf, NameInCulture, SpellName, Permuted, Salt, AlikeByWord, PatternOf, ComponentsAt;
  }

  // ---------------------------------------------------------- faithful forms

  /** One entry for each slot, from the slot's own pool. */
  ghost predicate PoolSelection(c: Culture, j: nat, x: map<string, string>): (r: bool)
    requires CultureError(c) == None && j < |c.forms|
    ensures r ==> Covers(x, PatternOf(c, j))
  {
    hide CultureError, PatternOf, ValidComponent;
    var ids := Placeholders(PatternOf(c, j));
    assert forall id :: id in ids ==> PoolOk(id, c.pools[id]);
    (forall id :: id in x <==> id in ids) && forall id :: id in ids ==> x[id] in c.pools[id]
  }

  /** No two different selections from the form's pools agree in every word. */
  ghost predicate Unambiguous(c: Culture, j: nat)
    requires CultureError(c) == None && j < |c.forms|
  {
    forall x, y :: PoolSelection(c, j, x) && PoolSelection(c, j, y) && AlikeByWord(PatternOf(c, j), x, y) ==> x == y
  }

  function SizeOf(c: Culture, j: nat): (space: nat)
    requires CultureError(c) == None && j < |c.forms|
    ensures space > 0
  {
    AcceptedSpace(c, j);
    FormSpace(c, c.forms[j]).value
  }

  /** The name at a sequence number of the form. */
  function NumberedName(c: Culture, j: nat, n: nat): Generation
    requires CultureError(c) == None && j < |c.forms|
  {
    SpellName(c, c.forms[j], Permuted(n, SizeOf(c, j), Salt(c, c.forms[j])))
  }

  /** Only congruent sequence numbers of the form get the same name. */
  ghost predicate TellsApart(c: Culture, j: nat)
    requires CultureError(c) == None && j < |c.forms|
  {
    forall m: nat, n: nat ::
      NumberedName(c, j, m) == NumberedName(c, j, n) ==> m % SizeOf(c, j) == n % SizeOf(c, j)
  }

  /** What an index selects comes from the pools, one entry for each slot. */
  lemma ComponentsArePooled(c: Culture, j: nat, index: nat)
    requires CultureError(c) == None && j < |c.forms|
    ensures PoolSelection(c, j, ComponentsAt(c, j, index))
  {
    hide CultureError, PatternOf, PoolOk, SelectFrom, Digits, PoolSizes, PoolSize, FirstOnly, Placeholders;
    var ids, none: map<string, string> := Placeholders(PatternOf(c, j)), map[];
    assert none.Keys == {};
    PoolsOfFirst(c, ids);
    FirstOnlyIsDistinct(ids, {});
    SelectionIsDigits(c.pools, ids, none, index);
    SelectionCovers(c, PatternOf(c, j), index);
    var u := FirstOnly(ids, {});
    forall id | id in ids ensures id in ComponentsAt(c, j, index) {
      var i :| 0 <= i < |u| && u[i] == id;
    }
  }

  /** The place of every chosen entry in its pool. */
  lemma {:induction false} PlacesInPools(pools: map<string, seq<string>>, u: seq<string>, x: map<string, string>)
    returns (digits: seq<nat>)
    requires forall i :: 0 <= i < |u| ==> u[i] in pools && u[i] in x && x[u[i]] in pools[u[i]]
    ensures |digits| == |u|
    ensures forall i :: 0 <= i < |u| ==> digits[i] < |pools[u[i]]| && pools[u[i]][digits[i]] == x[u[i]]
    decreases |u|
  {
    if u == [] {
      digits := [];
    } else {
      var k :| 0 <= k < |pools[u[0]]| && pools[u[0]][k] == x[u[0]];
      var rest := PlacesInPools(pools, u[1..], x);
      digits := [k] + rest;
    }
  }

  /** The index whose digits are those places selects those entries. */
  lemma SelectedByPlaces(c: Culture, ids: seq<string>, x: map<string, string>) returns (index: nat)
    requires forall id :: id in ids ==> id in c.pools && PoolOk(id, c.pools[id]) && id in x && x[id] in c.pools[id]
    ensures index < Product(PoolSizes(c.pools, FirstOnly(ids, {})))
    ensures var choice := SelectFrom(c.pools, ids, map[], index);
            choice.Chosen? && forall id :: id in ids ==> id in choice.selected && choice.selected[id] == x[id]
  {
    hide PoolOk, SelectFrom, Digits, Number, Product, PoolSizes, FirstOnly;
    var u, none: map<string, string> := FirstOnly(ids, {}), map[];
    assert none.Keys == {};
    PoolsOfFirst(c, ids);
    FirstOnlyIsDistinct(ids, {});
    var digits := PlacesInPools(c.pools, u, x);
    index := Number(digits, PoolSizes(c.pools, u));
    NumberThenDigits(digits, PoolSizes(c.pools, u));
    SelectionIsDigits(c.pools, ids, none, index);
    var choice := SelectFrom(c.pools, ids, map[], index);
    forall id | id in ids ensures id in choice.selected && choice.selected[id] == x[id] {
      var i :| 0 <= i < |u| && u[i] == id;
    }
  }

  /** And every such selection is selected by an index of the form. */
  lemma EverySelectionIsReached(c: Culture, j: nat, x: map<string, string>) returns (index: nat)
    requires CultureError(c) == None && j < |c.forms| && PoolSelection(c, j, x)
    ensures index < SizeOf(c, j) && ComponentsAt(c, j, index) == x
  {
    hide CultureError, PatternOf, PoolOk, SelectFrom, Product, PoolSizes, FirstOnly, Placeholders, SizeOf, Covers;
    SizeIsProduct(c, j);
    index := SelectedByPlaces(c, Placeholders(PatternOf(c, j)), x);
    ComponentsArePooled(c, j, index);
    assert ComponentsAt(c, j, index) == x;
  }

  lemma SizeIsProduct(c: Culture, j: nat)
    requires CultureError(c) == None && j < |c.forms|
    ensures SizeOf(c, j) == Product(PoolSizes(c.pools, FirstOnly(Placeholders(PatternOf(c, j)), {})))
  {
    AcceptedSpace(c, j);
    hide CultureError, FormSpace, Product, PoolSizes, FirstOnly, Placeholders;
  }

  /** Below the size of the form, equal components mean equal indices. */
  lemma ComponentsAreFaithful(c: Culture, j: nat, m: nat, n: nat)
    requires CultureError(c) == None && j < |c.forms| && m < SizeOf(c, j) && n < SizeOf(c, j)
    ensures ComponentsAt(c, j, m) == ComponentsAt(c, j, n) <==> m == n
  {
    hide CultureError, PatternOf, PoolOk, SelectFrom, Product, PoolSizes, FirstOnly, Placeholders, SizeOf, DistinctValues;
    var ids := Placeholders(PatternOf(c, j));
    PoolsOfFirst(c, ids);
    SizeIsProduct(c, j);
    SelectionIsFaithful(c.pools, ids, m, n);
  }

  lemma PermutedIsOnto(index: nat, space: nat, salt: nat) returns (n: nat)
    requires index < space
    ensures Permuted(n, space, salt) == index
  {
    hide Xor, RotateLeft23, Multiplier, Affine;
    n := AffineIsOnto(index, Multiplier(Xor(0x9E37_79B9_7F4A_7C15, salt), space),
                      Xor(0xD1B5_4A32_D192_ED03, RotateLeft23(salt)) % space, space);
  }

  lemma AmbiguousNamesCoincide(c: Culture, j: nat, x: map<string, string>, y: map<string, string>)
    requires CultureError(c) == None && j < |c.forms| && TellsApart(c, j)
    requires PoolSelection(c, j, x) && PoolSelection(c, j, y) && AlikeByWord(PatternOf(c, j), x, y)
    ensures x == y
  {
    hide CultureError, PatternOf, PoolSelection, ComponentsAt, AlikeByWord, SpellName, Permuted, Salt, SizeOf;
    var p := EverySelectionIsReached(c, j, x);
    var q := EverySelectionIsReached(c, j, y);
    SameSpellingIff(c, j, p, q);
    var space, salt := SizeOf(c, j), Salt(c, c.forms[j]);
    var m := PermutedIsOnto(p, space, salt);
    var n := PermutedIsOnto(q, space, salt);
    assert NumberedName(c, j, m) == NumberedName(c, j, n);
    PermutedIsFaithful(m, n, space, salt);
  }

  lemma UnambiguousNamesDiffer(c: Culture, j: nat, m: nat, n: nat)
    requires CultureError(c) == None && j < |c.forms| && Unambiguous(c, j)
    ensures NumberedName(c, j, m) == NumberedName(c, j, n) <==> m % SizeOf(c, j) == n % SizeOf(c, j)
  {
    hide CultureError, PatternOf, PoolSelection, ComponentsAt, AlikeByWord, SpellName, Permuted, Salt, SizeOf;
    var space, salt := SizeOf(c, j), Salt(c, c.forms[j]);
    var p, q := Permuted(m, space, salt), Permuted(n, space, salt);
    SameSpellingIff(c, j, p, q);
    ComponentsArePooled(c, j, p);
    ComponentsArePooled(c, j, q);
    ComponentsAreFaithful(c, j, p, q);
    PermutedIsFaithful(m, n, space, salt);
  }

  /** The exact condition: names of a form coincide for congruent sequence numbers
      alone if and only if no two different pool selections agree in every word. */
  lemma TellsApartIff(c: Culture, j: nat)
    requires CultureError(c) == None && j < |c.forms|
    ensures TellsApart(c, j) <==> Unambiguous(c, j)
  {
    hide CultureError, NumberedName, PoolSelection, AlikeByWord, PatternOf, SizeOf;
    if TellsApart(c, j) {
      forall x, y | PoolSelection(c, j, x) && PoolSelection(c, j, y) && AlikeByWord(PatternOf(c, j), x, y) ensures x == y {
        AmbiguousNamesCoincide(c, j, x, y);
      }
    }
    if Unambiguous(c, j) {
      forall m: nat, n: nat | NumberedName(c, j, m) == NumberedName(c, j, n)
        ensures m % SizeOf(c, j) == n % SizeOf(c, j)
      {
        UnambiguousNamesDiffer(c, j, m, n);
      }
    }
  }

  /** In such a form two actors bear the same name exactly when their sequence
      numbers agree modulo the form's space. */
  lemma CongruentNamesIff(a: nat, b: nat, c: Culture)
    requires CultureError(c) == None && a <= U64_MAX && b <= U64_MAX && FormOf(a, c) == FormOf(b, c)
    requires Unambiguous(c, FormOf(a, c))
    ensures NameInCulture(a, c) == NameInCulture(b, c)
       <==> NumberOf(a, c) % SpaceOf(a, c) == NumberOf(b, c) % SpaceOf(a, c)
  {
    NameIsSpelling(a, c);
    NameIsSpelling(b, c);
    UnambiguousNamesDiffer(c, FormOf(a, c), NumberOf(a, c), NumberOf(b, c));
    hide CultureError, FormOf, NumberOf, FormSpace, NameInCulture, SpellName, Permuted, Salt, Unambiguous;
  }

  /** One slot a word at most is enough, whatever the pools. */
  lemma SeparatedSlotsAreUnambiguous(c: Culture, j: nat)
    requires CultureError(c) == None && j < |c.forms| && OneSlotPerWord(PatternOf(c, j))
    ensures Unambiguous(c, j)
  {
    hide CultureError, PatternOf, OneSlotPerWord, Covers, Placeholders, AlikeByWord, Fill;
    var s := PatternOf(c, j);
    forall x, y | PoolSelection(c, j, x) && PoolSelection(c, j, y) && AlikeByWord(s, x, y) ensures x == y {
      SpellingMeansWords(s, x, y);
      SpellingIsFaithful(s, x, y);
    }
  }

  lemma PairIsFilled(selected: map<string, string>)
    requires "a" in selected && "b" in selected
    ensures Placeholders([Slot("a"), Slot("b")]) == ["a", "b"]
    ensures Fill([Slot("a"), Slot("b")], selected) == selected["a"] + selected["b"]
  {
    var s := [Slot("a"), Slot("b")];
    assert s[1..] == [Slot("b")] && s[1..][1..] == [];
    PlaceholdersSplit(s);
    PlaceholdersSplit(s[1..]);
    assert Fill(s[1..], selected) == selected["b"] + Fill([], selected);
  }

  lemma StartsAlphabetic(v: string)
    requires 1 <= |v| <= 16 && forall i :: 0 <= i < |v| ==> IsAlpha(v[i])
    ensures ValidComponent(v)
  {
    assert IsAlpha(v[0]);
  }

  /** Two slots in one word: different components, one spelling. */
  lemma SharedWordIsAmbiguous()
    ensures var s := [Slot("a"), Slot("b")];
            var x, y := map["a" := "Ab", "b" := "cd"], map["a" := "Abc", "b" := "d"];
            && Written(s) == "{a}{b}" && !OneSlotPerWord(s)
            && Covers(x, s) && Covers(y, s) && x["a"] != y["a"] && Fill(s, x) == Fill(s, y)
  {
    var s := [Slot("a"), Slot("b")];
    var x, y := map["a" := "Ab", "b" := "cd"], map["a" := "Abc", "b" := "d"];
    assert s[1..] == [Slot("b")] && s[1..][1..] == [];
    PairIsFilled(x);
    PairIsFilled(y);
    StartsAlphabetic(x["a"]);
    StartsAlphabetic(x["b"]);
    StartsAlphabetic(y["a"]);
    StartsAlphabetic(y["b"]);
    hide Fill, Placeholders, ValidComponent;
    assert "Ab" + "cd" == "Abc" + "d";
  }
}
