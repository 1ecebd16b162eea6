/**
  What the name generator does, told without its own helpers: which culture a
  context gets, which configurations are accepted, and the name itself.
 */
module NamingMeaning {
  import opened Bits
  import opened BitsMeaning
  import opened NumberTheory
  import opened MixedRadix
  import opened NamingSchedule
  import opened Options
  import opened NamingText
  import opened NamingValidity
  import opened Naming
  import opened NamingLaws
  import opened NamingValidator
  import opened Whitespace

  // ------------------------------------------------------- the fitting culture

  /** The list asks for nothing, or for a value the context has. */
  predicate Serves(accepted: seq<string>, actual: Option<string>) {
    accepted == [] || (actual.Some? && exists i :: 0 <= i < |accepted| && accepted[i] == actual.value)
  }

  /** How many of a culture's three selector lists ask for something. */
  function Wishes(c: Culture): nat {
    (if c.selectors.profiles == [] then 0 else 1) + (if c.selectors.species == [] then 0 else 1)
    + (if c.selectors.origins == [] then 0 else 1)
  }

  /** It asks for something, and the context has all it asks for. */
  predicate Fits(c: Culture, x: Context) {
    && Wishes(c) > 0
    && Serves(c.selectors.profiles, x.profile) && Serves(c.selectors.species, x.species) && Serves(c.selectors.origins, x.origin)
  }

  lemma ScoreMeans(c: Culture, x: Context)
    ensures MatchScore(c, x).Some? <==> Fits(c, x)
    ensures MatchScore(c, x).Some? ==> MatchScore(c, x).value == Wishes(c)
  {}

  /** The `k`-th culture fits, none of the first `n` fits and asks for more, and no
      later one of them fits and asks for as much. */
  predicate FitsBest(cultures: seq<Culture>, x: Context, n: nat, k: nat)
    requires n <= |cultures|
  {
    && k < n && Fits(cultures[k], x)
    && forall j :: 0 <= j < n && Fits(cultures[j], x) ==>
         Wishes(cultures[j]) <= Wishes(cultures[k]) && (j > k ==> Wishes(cultures[j]) < Wishes(cultures[k]))
  }

  lemma {:induction false} BestMeans(cultures: seq<Culture>, x: Context, n: nat)
    requires n <= |cultures|
    ensures var k := BestMatch(cultures, x, n);
            if exists j :: 0 <= j < n && Fits(cultures[j], x) then FitsBest(cultures, x, n, k) else k == |cultures|
  {
    hide Wishes, Fits, MatchScore;
    if n > 0 {
      BestMeans(cultures, x, n - 1);
      forall c ensures (MatchScore(c, x).Some? <==> Fits(c, x)) && (MatchScore(c, x).Some? ==> MatchScore(c, x).value == Wishes(c)) {
        ScoreMeans(c, x);
      }
    }
  }

  /** The first culture of that name, without which there is none at all. */
  predicate IsDefault(config: Config, k: nat) {
    k < |config.cultures| && config.cultures[k].id == config.defaultCulture
    && forall j :: 0 <= j < k ==> config.cultures[j].id != config.defaultCulture
  }

  /** Main result: a context gets the last of the fitting cultures that ask for the
      most; if none fits, or without a context, it gets the default. */
  lemma ChoosingMeans(config: Config, context: Option<Context>)
    ensures var chosen, cultures := ChooseCulture(config, context), config.cultures;
            && (chosen.Some? <==> exists k: nat :: IsDefault(config, k))
            && (chosen.Some? ==>
                  if context.Some? && exists j :: 0 <= j < |cultures| && Fits(cultures[j], context.value)
                  then exists k: nat :: FitsBest(cultures, context.value, |cultures|, k) && chosen.value == cultures[k]
                  else exists k: nat :: IsDefault(config, k) && chosen.value == cultures[k])
  {
    hide Fits, Wishes;
    var d := FindCulture(config.cultures, config.defaultCulture, 0);
    if context.Some? {
      BestMeans(config.cultures, context.value, |config.cultures|);
    }
    hide BestMatch, FindCulture;
    if d < |config.cultures| {
      assert IsDefault(config, d);
    }
  }

  // ------------------------------------------------------------- what is accepted

  predicate Letter(c: char) {
    'a' <= c <= 'z' || 'A' <= c <= 'Z'
  }

  /** The same character, or the same letter in the other case. */
  predicate CharsAlike(c: char, d: char) {
    || c == d
    || ('A' <= c <= 'Z' && d as int == c as int + 32) || ('A' <= d <= 'Z' && c as int == d as int + 32)
  }

  predicate Alike(s: string, t: string) {
    |s| == |t| && forall i :: 0 <= i < |s| ==> CharsAlike(s[i], t[i])
  }

  predicate NoTwoAlike(values: seq<string>) {
    forall i, j :: 0 <= i < j < |values| ==> !Alike(values[i], values[j])
  }

  lemma LowerMeans(s: string, t: string)
    ensures Lower(s) == Lower(t) <==> Alike(s, t)
  {
    forall c: char, d: char ensures LowerChar(c) == LowerChar(d) <==> CharsAlike(c, d) {}
    hide LowerChar, CharsAlike;
    if Lower(s) == Lower(t) {
      forall i | 0 <= i < |s| ensures CharsAlike(s[i], t[i]) {
        assert Lower(s)[i] == Lower(t)[i];
      }
    }
  }

  lemma DistinctMeans(values: seq<string>)
    ensures DistinctIgnoringCase(values) <==> NoTwoAlike(values)
  {
    forall s, t ensures Lower(s) == Lower(t) <==> Alike(s, t) {
      LowerMeans(s, t);
    }
    hide Lower, Alike;
  }

  /** The white space, character by character. */
  lemma WhiteSpaceIs(c: char)
    ensures IsWhite(c) <==>
              c as int in {9, 10, 11, 12, 13, 32, 133, 160, 5760, 8192, 8193, 8194, 8195, 8196, 8197, 8198, 8199, 8200, 8201,
                           8202, 8232, 8233, 8239, 8287, 12288}
  {}

  /** The text from `i` to `j` is all but the white space around. */
  predicate IsCore(s: string, i: nat, j: nat) {
    && i <= j <= |s| && (i < j ==> !IsWhite(s[i]) && !IsWhite(s[j - 1]))
    && forall k :: 0 <= k < |s| && !(i <= k < j) ==> IsWhite(s[k])
  }

  lemma {:induction false} TrimMeans(s: string) returns (i: nat, j: nat)
    ensures IsCore(s, i, j) && Trim(s) == s[i..j]
    decreases |s|
  {
    hide IsWhite;
    if s != [] && IsWhite(s[0]) {
      var t := s[1..];
      var p, q := TrimMeans(t);
      i, j := p + 1, q + 1;
      assert forall k :: 0 < k < |s| ==> s[k] == t[k - 1];
      assert s[i..j] == t[p..q];
    } else if s != [] && IsWhite(s[|s| - 1]) {
      var t := s[..|s| - 1];
      i, j := TrimMeans(t);
      assert forall k :: 0 <= k < |t| ==> s[k] == t[k];
      assert s[i..j] == t[i..j];
    } else {
      i, j := 0, |s|;
      assert s[i..j] == s;
    }
  }

  /** A style prompt: at most 240 characters, none a control, at least twelve of them
      besides the white space around. */
  predicate GoodPrompt(s: string) {
    && |s| <= 240 && (forall i :: 0 <= i < |s| ==> !(s[i] < ' ' || 0x7F <= s[i] as int < 0xA0))
    && |Trim(s)| >= 12
  }

  predicate GoodSelectors(values: seq<string>) {
    && |values| <= 64 && NoTwoAlike(values)
    && forall i :: 0 <= i < |values| ==>
         1 <= |values[i]| <= 80
         && forall k :: 0 <= k < |values[i]| ==>
              Letter(values[i][k]) || '0' <= values[i][k] <= '9' || values[i][k] in {'.', '_', ':', '-', '/'}
  }

  /** An identifier: a small letter, then small letters, digits and underscores, 32 at most. */
  predicate GoodId(s: string) {
    && 1 <= |s| <= 32 && 'a' <= s[0] <= 'z'
    && forall i :: 0 <= i < |s| ==> 'a' <= s[i] <= 'z' || '0' <= s[i] <= '9' || s[i] == '_'
  }

  /** A component: letters, hyphens and apostrophes, sixteen at most, one a letter. */
  predicate GoodEntry(v: string) {
    && 1 <= |v| <= 16 && (forall i :: 0 <= i < |v| ==> Letter(v[i]) || v[i] == '-' || v[i] == '\'')
    && exists i :: 0 <= i < |v| && Letter(v[i])
  }

  predicate GoodPool(id: string, values: seq<string>) {
    GoodId(id) && 2 <= |values| <= 256 && NoTwoAlike(values) && forall i :: 0 <= i < |values| ==> GoodEntry(values[i])
  }

  lemma LeavesMean(c: Culture, id: string, values: seq<string>)
    ensures PromptOk(c.stylePrompt) <==> GoodPrompt(c.stylePrompt)
    ensures SelectorsOk(values) <==> GoodSelectors(values)
    ensures ValidId(id) <==> GoodId(id)
  {
    DistinctMeans(values);
    hide DistinctIgnoringCase, NoTwoAlike, Trim;
  }

  lemma PoolMeans(id: string, values: seq<string>)
    ensures PoolOk(id, values) <==> GoodPool(id, values)
  {
    DistinctMeans(values);
    forall v ensures ValidComponent(v) <==> GoodEntry(v) {}
    hide DistinctIgnoringCase, NoTwoAlike, ValidComponent, GoodEntry;
  }

  /** One component out of its pool for each placeholder. */
  predicate Picks(c: Culture, s: seq<Segment>, selected: map<string, string>) {
    forall id :: id in Placeholders(s) ==> id in c.pools && id in selected && selected[id] in c.pools[id]
  }

  /** A name: letters, hyphens, apostrophes and single inner spaces, 28 at most. */
  predicate GoodName(s: string) {
    && 1 <= |s| <= 28 && s[0] != ' ' && s[|s| - 1] != ' '
    && (forall i :: 0 <= i < |s| ==> Letter(s[i]) || s[i] in {' ', '-', '\''})
    && forall i :: 0 < i < |s| ==> !(s[i - 1] == ' ' && s[i] == ' ')
  }

  lemma NamesMean(s: string)
    ensures Acceptable(s) <==> GoodName(s)
  {
    if GoodName(s) {
      forall i | 0 <= i < |s| - 1 ensures !(s[i] == ' ' && s[i + 1] == ' ') {
        assert !(s[(i + 1) - 1] == ' ' && s[i + 1] == ' ');
      }
    }
  }

  /** How many names a pattern can spell: the product of the sizes of its pools. */
  function Spellings(c: Culture, s: seq<Segment>): nat {
    Product(PoolSizes(c.pools, FirstOnly(Placeholders(s), {})))
  }

  /** A form has a weight from one to sixteen and a readable pattern with a
      placeholder; every choice of components out of its pools spells a good name;
      and its names can be counted in 64 bits. */
  ghost predicate GoodForm(c: Culture, form: Form) {
    var s := Parse(form.pattern);
    && 1 <= form.weight <= 16 && s.Some? && Placeholders(s.value) != []
    && (forall id :: id in Placeholders(s.value) ==> id in c.pools)
    && (forall selected {:trigger Picks(c, s.value, selected)} :: Picks(c, s.value, selected) ==> GoodName(Fill(s.value, selected)))
    && Spellings(c, s.value) <= 0xFFFF_FFFF_FFFF_FFFF
  }

  /** The fold over the placeholders overflows exactly when their product does. */
  lemma {:induction false} CountingMeans(pools: map<string, seq<string>>, ids: seq<string>, seen: set<string>, size: nat)
    requires forall id :: id in ids ==> id in pools && pools[id] != []
    requires size <= U64_MAX
    ensures SpaceFrom(pools, ids, seen, size).Some? <==> size * Product(PoolSizes(pools, FirstOnly(ids, seen))) <= U64_MAX
    decreases |ids|
  {
    if ids != [] {
      if ids[0] in seen {
        CountingMeans(pools, ids[1..], seen, size);
      } else {
        var n, rest := |pools[ids[0]]|, FirstOnly(ids[1..], seen + {ids[0]});
        FirstOnlyIsDistinct(ids[1..], seen + {ids[0]});
        SizesSplit(pools, ids[0], rest);
        var p := Product(PoolSizes(pools, rest));
        assert p > 0 by {
          forall i | 0 <= i < |rest| ensures PoolSizes(pools, rest)[i] > 0 {
            assert rest[i] in rest;
          }
          ProductIsPositive(PoolSizes(pools, rest));
        }
        hide Product, PoolSizes;
        Regroups(size, n, p);
        if size * n <= U64_MAX {
          CountingMeans(pools, ids[1..], seen + {ids[0]}, size * n);
        } else {
          NoSmallerProduct(size * n, p);
        }
      }
    }
  }

  lemma NoSmallerProduct(n: nat, p: nat)
    requires p >= 1
    ensures n * p >= n
  {}

  lemma SpaceMeans(c: Culture, form: Form)
    requires Parse(form.pattern).Some?
    requires forall id :: id in Placeholders(Parse(form.pattern).value) ==> id in c.pools && c.pools[id] != []
    ensures FormSpace(c, form).Some? <==> Spellings(c, Parse(form.pattern).value) <= U64_MAX
    ensures FormSpace(c, form).Some? ==> FormSpace(c, form).value == Spellings(c, Parse(form.pattern).value)
  {
    var ids := Placeholders(Parse(form.pattern).value);
    CountingMeans(c.pools, ids, {}, 1);
    if FormSpace(c, form).Some? {
      SpaceIsProduct(c.pools, ids, {}, 1);
    }
    hide Product, PoolSizes, SpaceFrom, FirstOnly, Parse;
  }

  lemma PoolsAreOk(c: Culture, ids: seq<string>)
    requires PoolsOk(c.pools) && forall id :: id in ids ==> id in c.pools
    ensures forall id :: id in ids ==> PoolOk(id, c.pools[id])
  {
    hide PoolOk;
  }

  lemma PicksCover(c: Culture, s: seq<Segment>, selected: map<string, string>)
    requires Picks(c, s, selected) && PoolsOk(c.pools)
    ensures Covers(selected, s)
  {
    hide ValidComponent, Placeholders;
    forall id | id in Placeholders(s) ensures id in selected && ValidComponent(selected[id]) {
      assert PoolOk(id, c.pools[id]);
    }
  }

  lemma ExtremesArePicked(c: Culture, s: seq<Segment>, longest: bool)
    requires Supplied(c.pools, Placeholders(s))
    ensures Picks(c, s, Extremes(c.pools, Placeholders(s), longest))
  {
    hide Placeholders;
  }

  lemma PicksAreCovered(c: Culture, s: seq<Segment>, selected: map<string, string>)
    requires Picks(c, s, selected)
    ensures forall id :: id in Placeholders(s) ==> id in c.pools && id in selected && selected[id] in c.pools[id]
  {}

  lemma PickedIsGood(c: Culture, pattern: string, s: seq<Segment>, selected: map<string, string>)
    requires PoolsOk(c.pools) && Parse(pattern) == Some(s) && Picks(c, s, selected)
    requires Supplied(c.pools, Placeholders(s)) && RendersWell(c.pools, pattern, Placeholders(s))
    ensures GoodName(Fill(s, selected))
  {
    hide *;
    PicksAreCovered(c, s, selected);
    PoolsAreOk(c, Placeholders(s));
    WellRenderedMeans(c, pattern);
    PicksCover(c, s, selected);
    SelectionsAreNoLonger(c, s, selected);
    FillingIsAcceptable(s, selected, Extremes(c.pools, Placeholders(s), true));
    NamesMean(Fill(s, selected));
  }

  lemma ExtremesRenderWell(c: Culture, pattern: string, s: seq<Segment>)
    requires PoolsOk(c.pools) && Parse(pattern) == Some(s) && Supplied(c.pools, Placeholders(s))
    requires forall longest :: GoodName(Fill(s, Extremes(c.pools, Placeholders(s), longest)))
    ensures RendersWell(c.pools, pattern, Placeholders(s))
  {
    ExtremesArePicked(c, s, true);
    ExtremesArePicked(c, s, false);
    var most, least := Extremes(c.pools, Placeholders(s), true), Extremes(c.pools, Placeholders(s), false);
    PicksCover(c, s, most);
    PicksCover(c, s, least);
    RenderIsFill(pattern, most);
    RenderIsFill(pattern, least);
    NamesMean(Fill(s, most));
    NamesMean(Fill(s, least));
    hide Parse, Placeholders, Render, Fill, ValidName, GoodName, Covers, PoolsOk, Supplied;
  }

  /** The two extreme renderings settle every other one. */
  lemma ExtremesSettle(c: Culture, pattern: string, s: seq<Segment>)
    requires Parse(pattern) == Some(s) && PoolsOk(c.pools) && Supplied(c.pools, Placeholders(s))
    ensures RendersWell(c.pools, pattern, Placeholders(s))
       <==> forall selected {:trigger Picks(c, s, selected)} :: Picks(c, s, selected) ==> GoodName(Fill(s, selected))
  {
    hide Parse, Placeholders, Fill, GoodName, PoolsOk, Supplied, Picks, RendersWell;
    if RendersWell(c.pools, pattern, Placeholders(s)) {
      forall selected | Picks(c, s, selected)
        ensures forall id :: id in Placeholders(s) ==> id in selected
        ensures GoodName(Fill(s, selected))
      {
        PicksAreCovered(c, s, selected);
        PickedIsGood(c, pattern, s, selected);
      }
    }
    if forall selected {:trigger Picks(c, s, selected)} :: Picks(c, s, selected) ==> PicksFillWell(c, s, selected) {
      forall longest ensures GoodName(Fill(s, Extremes(c.pools, Placeholders(s), longest))) {
        ExtremesArePicked(c, s, longest);
      }
      ExtremesRenderWell(c, pattern, s);
    }
  }

  predicate PicksFillWell(c: Culture, s: seq<Segment>, selected: map<string, string>)
    requires Picks(c, s, selected)
  {
    GoodName(Fill(s, selected))
  }

  /** A form is accepted exactly when it is good. */
  lemma FormMeans(c: Culture, form: Form)
    requires PoolsOk(c.pools)
    ensures FormError(c, form) == None <==> GoodForm(c, form)
  {
    hide Placeholders, Fill, GoodName, Parse, Picks, RendersWell, FormSpace, Spellings, PoolsOk, Supplied;
    var s := Parse(form.pattern);
    if s.Some? && forall id :: id in Placeholders(s.value) ==> id in c.pools {
      KnownPoolsSupply(c.pools, Placeholders(s.value));
      ExtremesSettle(c, form.pattern, s.value);
      SuppliedMeans(c, Placeholders(s.value));
      SpaceMeans(c, form);
    }
  }

  lemma SuppliedMeans(c: Culture, ids: seq<string>)
    requires Supplied(c.pools, ids)
    ensures forall id :: id in ids ==> id in c.pools && c.pools[id] != []
  {}

  /** Good prompt, selectors, pools and forms, and not too many of them. */
  ghost predicate GoodCulture(c: Culture) {
    && GoodPrompt(c.stylePrompt)
    && GoodSelectors(c.selectors.profiles) && GoodSelectors(c.selectors.species) && GoodSelectors(c.selectors.origins)
    && 1 <= |c.pools| <= 32 && (forall id :: id in c.pools ==> GoodPool(id, c.pools[id]))
    && 1 <= |c.forms| <= 16 && forall i :: 0 <= i < |c.forms| ==> GoodForm(c, c.forms[i])
  }

  lemma {:induction false} FormsMean(c: Culture, i: nat)
    requires PoolsOk(c.pools) && i <= |c.forms|
    ensures FormsError(c, i) == None <==> forall k :: i <= k < |c.forms| ==> GoodForm(c, c.forms[k])
    decreases |c.forms| - i
  {
    hide GoodForm, FormError, PoolsOk;
    if i < |c.forms| {
      FormMeans(c, c.forms[i]);
      FormsMean(c, i + 1);
    }
  }

  lemma CultureMeans(c: Culture)
    ensures CultureError(c) == None <==> GoodCulture(c)
  {
    LeavesMean(c, "", c.selectors.profiles);
    LeavesMean(c, "", c.selectors.species);
    LeavesMean(c, "", c.selectors.origins);
    forall id, values ensures PoolOk(id, values) <==> GoodPool(id, values) {
      PoolMeans(id, values);
    }
    hide PoolOk, GoodPool, PromptOk, GoodPrompt, SelectorsOk, GoodSelectors, GoodForm;
    if PoolsOk(c.pools) {
      FormsMean(c, 0);
    }
    hide FormsError;
  }

  /** The names all forms from the `i`-th on can spell together. */
  function SpellingsFrom(c: Culture, i: nat): nat
    requires i <= |c.forms|
    decreases |c.forms| - i
  {
    if i == |c.forms| then 0
    else
      var s := Parse(c.forms[i].pattern);
      (if s.None? then 0 else Spellings(c, s.value)) + SpellingsFrom(c, i + 1)
  }

  lemma {:induction false} TotalMeans(c: Culture, i: nat, total: nat)
    requires i <= |c.forms| && total <= U64_MAX && CultureError(c) == None
    ensures TotalSpace(c, i, total).Some? <==> total + SpellingsFrom(c, i) <= U64_MAX
    decreases |c.forms| - i
  {
    hide CultureError, FormSpace, Parse, Product, PoolSizes, FirstOnly;
    if i < |c.forms| {
      AcceptedSpace(c, i);
      if total + FormSpace(c, c.forms[i]).value <= U64_MAX {
        TotalMeans(c, i + 1, total + FormSpace(c, c.forms[i]).value);
      }
    }
  }

  predicate NoIdsAlike(cultures: seq<Culture>) {
    forall i, j :: 0 <= i < j < |cultures| ==> !Alike(cultures[i].id, cultures[j].id)
  }

  lemma {:induction false} CulturesMean(cultures: seq<Culture>, i: nat, seen: set<string>)
    requires i <= |cultures|
    ensures CulturesError(cultures, i, seen) == None <==>
              && (forall k :: i <= k < |cultures| ==> ValidId(cultures[k].id) && CultureError(cultures[k]) == None)
              && (forall k :: i <= k < |cultures| ==> Lower(cultures[k].id) !in seen)
              && forall j, k :: i <= j < k < |cultures| ==> Lower(cultures[j].id) != Lower(cultures[k].id)
    decreases |cultures| - i
  {
    hide CultureError, ValidId, Lower;
    if i < |cultures| {
      CulturesMean(cultures, i + 1, seen + {Lower(cultures[i].id)});
    }
  }

  predicate DefaultCounts(config: Config, k: nat) {
    IsDefault(config, k) && SpellingsFrom(config.cultures[k], 0) <= 0xFFFF_FFFF_FFFF_FFFF
  }

  /** Main result: the configurations that are accepted. */
  lemma AcceptedIff(config: Config)
    ensures Accepted(config) <==>
              && config.strategy == "culture-grammar/1" && 1 <= |config.cultures| <= 32 && NoIdsAlike(config.cultures)
              && (forall i :: 0 <= i < |config.cultures| ==> GoodId(config.cultures[i].id) && GoodCulture(config.cultures[i]))
              && exists k: nat :: DefaultCounts(config, k)
  {
    AllCulturesMean(config.cultures);
    hide CulturesError, GoodId, GoodCulture, NoIdsAlike, NamingSpace, LowerIds, DefaultCounts;
    if CulturesError(config.cultures, 0, {}) == None {
      DefaultDecides(config);
    }
  }

  lemma AllCulturesMean(cultures: seq<Culture>)
    ensures CulturesError(cultures, 0, {}) == None <==>
              NoIdsAlike(cultures) && forall i :: 0 <= i < |cultures| ==> GoodId(cultures[i].id) && GoodCulture(cultures[i])
  {
    hide *;
    CulturesMean(cultures, 0, {});
    IdsMean(cultures);
    forall i | 0 <= i < |cultures|
      ensures ValidId(cultures[i].id) && CultureError(cultures[i]) == None <==> GoodId(cultures[i].id) && GoodCulture(cultures[i])
    {
      CultureMeans(cultures[i]);
      LeavesMean(cultures[i], cultures[i].id, []);
    }
  }

  lemma DefaultDecides(config: Config)
    requires CulturesError(config.cultures, 0, {}) == None
    ensures Lower(config.defaultCulture) in LowerIds(config.cultures) && NamingSpace(config, None).Some?
       <==> exists k: nat :: DefaultCounts(config, k)
  {
    var k := FindCulture(config.cultures, config.defaultCulture, 0);
    DefaultMeans(config);
    if k < |config.cultures| {
      AcceptedCulture(config.cultures, 0, {}, k);
      TotalMeans(config.cultures[k], 0, 0);
      assert DefaultCounts(config, k) <==> SpellingsFrom(config.cultures[k], 0) <= U64_MAX;
    }
    hide FindCulture, CulturesError, NamingSpace, LowerIds, Lower, TotalSpace, SpellingsFrom, IsDefault, CultureError;
  }

  lemma IdsMean(cultures: seq<Culture>)
    ensures NoIdsAlike(cultures) <==> forall j, k :: 0 <= j < k < |cultures| ==> Lower(cultures[j].id) != Lower(cultures[k].id)
  {
    forall s, t ensures Lower(s) == Lower(t) <==> Alike(s, t) {
      LowerMeans(s, t);
    }
    hide Lower, Alike;
  }

  lemma DefaultMeans(config: Config)
    ensures var k := FindCulture(config.cultures, config.defaultCulture, 0);
            && (k < |config.cultures| ==> IsDefault(config, k))
            && (forall j: nat :: IsDefault(config, j) ==> j == k)
            && (k < |config.cultures| ==> Lower(config.defaultCulture) in LowerIds(config.cultures))
            && NamingSpace(config, None) == (if k == |config.cultures| then None else TotalSpace(config.cultures[k], 0, 0))
  {
    hide FindCulture, TotalSpace, Lower;
  }

  // ------------------------------------------------------ what is told of errors

  /** What is wrong with a form: the first of weight, pattern, placeholders, some name it
      spells, and the number of names. */
  lemma FormRefused(c: Culture, form: Form)
    requires PoolsOk(c.pools) && FormError(c, form) != None
    ensures var s := Parse(form.pattern);
            FormError(c, form).value
            == if !(1 <= form.weight <= 16) then BadWeight
               else if s.None? then BadPattern
               else if Placeholders(s.value) == [] || exists id :: id in Placeholders(s.value) && id !in c.pools then UnknownPoolName
               else if SomeNameIsBad(c, s.value) then BadForm
               else FormSpaceTooLarge
  {
    hide Placeholders, Fill, GoodName, Parse, Picks, RendersWell, FormSpace, Spellings, PoolsOk, Supplied;
    var s := Parse(form.pattern);
    if s.Some? && forall id :: id in Placeholders(s.value) ==> id in c.pools {
      KnownPoolsSupply(c.pools, Placeholders(s.value));
      ExtremesSettle(c, form.pattern, s.value);
    }
  }

  ghost predicate SomeNameIsBad(c: Culture, s: seq<Segment>) {
    exists selected {:trigger Picks(c, s, selected)} :: Picks(c, s, selected) && !GoodName(Fill(s, selected))
  }

  lemma {:induction false} FirstBadForm(c: Culture, i: nat)
    requires PoolsOk(c.pools) && i <= |c.forms| && FormsError(c, i) != None
    ensures exists k :: i <= k < |c.forms| && FormsError(c, i) == FormError(c, c.forms[k])
              && forall j :: i <= j < k ==> FormError(c, c.forms[j]) == None
    decreases |c.forms| - i
  {
    hide FormError, PoolsOk;
    if i < |c.forms| && FormError(c, c.forms[i]) == None {
      FirstBadForm(c, i + 1);
    }
  }

  /** What is wrong with a culture: prompt, selectors, pools, or its first bad form. */
  lemma CultureRefused(c: Culture)
    requires CultureError(c) != None
    ensures var e := CultureError(c).value;
            if !GoodPrompt(c.stylePrompt) then e == BadStylePrompt
            else if !(GoodSelectors(c.selectors.profiles) && GoodSelectors(c.selectors.species) && GoodSelectors(c.selectors.origins))
            then e == BadSelectors
            else if !(1 <= |c.pools| <= 32) then e == PoolCount
            else if exists id :: id in c.pools && !GoodPool(id, c.pools[id]) then e == BadPool
            else if !(1 <= |c.forms| <= 16) then e == FormCount
            else
              PoolsOk(c.pools)
              && exists k :: 0 <= k < |c.forms| && Some(e) == FormError(c, c.forms[k])
                             && forall j :: 0 <= j < k ==> FormError(c, c.forms[j]) == None
  {
    LeavesMean(c, "", c.selectors.profiles);
    LeavesMean(c, "", c.selectors.species);
    LeavesMean(c, "", c.selectors.origins);
    forall id, values ensures PoolOk(id, values) <==> GoodPool(id, values) {
      PoolMeans(id, values);
    }
    hide PoolOk, GoodPool, PromptOk, GoodPrompt, SelectorsOk, GoodSelectors, FormError;
    if PoolsOk(c.pools) && FormsError(c, 0) != None {
      FirstBadForm(c, 0);
    }
    hide FormsError;
  }

  lemma {:induction false} FirstBadCulture(cultures: seq<Culture>, i: nat, seen: set<string>) returns (k: nat)
    requires i <= |cultures| && CulturesError(cultures, i, seen) != None
    ensures i <= k < |cultures|
    ensures forall j :: i <= j < k ==> ValidId(cultures[j].id) && CultureError(cultures[j]) == None
    ensures var repeated := Lower(cultures[k].id) in seen || exists j :: i <= j < k && Lower(cultures[j].id) == Lower(cultures[k].id);
            CulturesError(cultures, i, seen)
            == if !ValidId(cultures[k].id) || repeated then Some(BadCultureId) else CultureError(cultures[k])
    decreases |cultures| - i
  {
    hide CultureError, ValidId, Lower;
    if !ValidId(cultures[i].id) || Lower(cultures[i].id) in seen || CultureError(cultures[i]) != None {
      k := i;
    } else {
      k := FirstBadCulture(cultures, i + 1, seen + {Lower(cultures[i].id)});
    }
  }

  /** The culture is the first bad one: its identifier is bad or like an earlier one, or
      the culture itself is bad. */
  ghost predicate IsFirstBad(cultures: seq<Culture>, k: nat, e: Option<NamingError>) {
    && k < |cultures| && (forall j :: 0 <= j < k ==> GoodId(cultures[j].id) && GoodCulture(cultures[j]))
    && e == if !GoodId(cultures[k].id) || exists j :: 0 <= j < k && Alike(cultures[j].id, cultures[k].id)
            then Some(BadCultureId) else CultureError(cultures[k])
  }

  lemma FirstBadIs(cultures: seq<Culture>) returns (k: nat)
    requires CulturesError(cultures, 0, {}) != None
    ensures IsFirstBad(cultures, k, CulturesError(cultures, 0, {}))
  {
    k := FirstBadCulture(cultures, 0, {});
    forall j | 0 <= j <= k
      ensures (CultureError(cultures[j]) == None <==> GoodCulture(cultures[j])) && (ValidId(cultures[j].id) <==> GoodId(cultures[j].id))
      ensures Lower(cultures[j].id) == Lower(cultures[k].id) <==> Alike(cultures[j].id, cultures[k].id)
    {
      CultureMeans(cultures[j]);
      LeavesMean(cultures[j], cultures[j].id, []);
      LowerMeans(cultures[j].id, cultures[k].id);
    }
    hide *;
  }

  /** What is wrong with a configuration: the strategy, the number of cultures, the first
      bad one, the default, or the number of its names. */
  lemma ConfigRefused(config: Config)
    requires ConfigError(config) != None
    ensures var e, cultures := ConfigError(config).value, config.cultures;
            if config.strategy != "culture-grammar/1" then e == UnsupportedStrategy
            else if !(1 <= |cultures| <= 32) then e == CultureCount
            else if CulturesError(cultures, 0, {}) != None then exists k: nat :: IsFirstBad(cultures, k, Some(e))
            else if forall k :: 0 <= k < |cultures| ==> !Alike(cultures[k].id, config.defaultCulture) then e == NoDefaultCulture
            else e == SpaceTooLarge
  {
    if CulturesError(config.cultures, 0, {}) != None {
      var k := FirstBadIs(config.cultures);
    }
    forall k | 0 <= k < |config.cultures|
      ensures Lower(config.cultures[k].id) == Lower(config.defaultCulture) <==> Alike(config.cultures[k].id, config.defaultCulture)
    {
      LowerMeans(config.cultures[k].id, config.defaultCulture);
    }
    hide IsFirstBad, Lower, Alike, CulturesError, NamingSpace;
  }

  // ------------------------------------------------------------------ the name

  /** The order of the schedule: an occurrence comes at the middle of its share of the
      cycle, and at the same point the earlier form comes first. */
  lemma OrderMeans(l: Entry, r: Entry)
    requires l.weight > 0 && r.weight > 0
    ensures var p, q := (2 * l.occurrence + 1) as real / l.weight as real, (2 * r.occurrence + 1) as real / r.weight as real;
            Before(l, r) <==> p < q || (p == q && l.form < r.form)
  {
    FractionsCompare((2 * l.occurrence + 1) as real, l.weight as real, (2 * r.occurrence + 1) as real, r.weight as real);
    assert ((2 * l.occurrence + 1) * r.weight) as real == (2 * l.occurrence + 1) as real * r.weight as real;
    assert ((2 * r.occurrence + 1) * l.weight) as real == (2 * r.occurrence + 1) as real * l.weight as real;
  }

  lemma FractionsCompare(p: real, a: real, q: real, b: real)
    requires a > 0.0 && b > 0.0
    ensures p / a < q / b <==> p * b < q * a
    ensures p / a == q / b <==> p * b == q * a
  {
    var x, y := p / a, q / b;
    assert p == x * a && q == y * b;
    assert p * b == x * (a * b) && q * a == y * (a * b);
    assert a * b > 0.0;
    if x < y {
      assert (y - x) * (a * b) > 0.0;
    } else if y < x {
      assert (x - y) * (a * b) > 0.0;
    }
  }

  /** The salt of a form: the hash of the culture's name, a colon and the pattern. */
  function SaltOf(c: Culture, form: Form): nat {
    Fold(Bytes(c.id + ":" + form.pattern), 0xcbf2_9ce4_8422_2325)
  }

  lemma SaltMeans(c: Culture, form: Form)
    ensures Salt(c, form) == SaltOf(c, form)
  {
    BytesAreFolded(Bytes(c.id + ":" + form.pattern), 0xcbf2_9ce4_8422_2325);
  }

  /** The least multiplier from a start on that shares no factor with the space; the
      start is never zero. */
  predicate IsMultiplier(m: nat, start: nat, space: nat)
    requires space > 0
  {
    var from := if start % space == 0 then 1 else start % space;
    from <= m && Gcd(m, space) == 1 && forall k :: from <= k < m ==> Gcd(k, space) != 1
  }

  /** The place of a number in its space: multiplied, shifted and reduced. */
  ghost predicate IsPlace(index: nat, number: nat, space: nat, salt: nat)
    requires space > 0
  {
    exists m: nat ::
      IsMultiplier(m, Xor(0x9E37_79B9_7F4A_7C15, salt), space)
      && index == (number % space * m + Xor(0xD1B5_4A32_D192_ED03, RotateLeft23(salt)) % space) % space
  }

  lemma PlacingMeans(number: nat, space: nat, salt: nat)
    requires space > 0
    ensures IsPlace(Permuted(number, space, salt), number, space, salt)
  {
    hide Xor, RotateLeft23;
    assert IsMultiplier(Multiplier(Xor(0x9E37_79B9_7F4A_7C15, salt), space), Xor(0x9E37_79B9_7F4A_7C15, salt), space) by {
      hide Gcd;
    }
    hide IsMultiplier, Multiplier;
  }

  /** The entry of the schedule that an actor's number falls on, and how many names
      of its form come before. */
  predicate IsTurn(actorId: nat, c: Culture, e: Entry, number: nat) {
    var schedule := Schedule(Weights(c.forms));
    && schedule != [] && e == schedule[actorId % |schedule|] && e.form < |c.forms|
    && number == actorId / |schedule| * c.forms[e.form].weight + e.occurrence
  }

  lemma TurnIs(actorId: nat, c: Culture)
    requires CultureError(c) == None
    ensures Schedule(Weights(c.forms)) != []
    ensures IsTurn(actorId, c, PlaceOf(actorId, c), NumberOf(actorId, c)) && FormOf(actorId, c) == PlaceOf(actorId, c).form
  {
    ScheduleIsNotEmpty(c);
    PlaceIsAForm(actorId, c);
    ScheduleIsComplete(Weights(c.forms));
    hide CultureError, Schedule;
    assert OfForms(Weights(c.forms), PlaceOf(actorId, c));
  }

  /** The components that an index picks: its digits, one for each placeholder in order
      of first appearance, each in the base of its pool. */
  predicate IsSpelled(c: Culture, s: seq<Segment>, index: nat, selected: map<string, string>) {
    var ids := FirstOnly(Placeholders(s), {});
    && Picks(c, s, selected) && Positive(PoolSizes(c.pools, ids))
    && forall i :: 0 <= i < |ids| ==>
         ids[i] in c.pools && ids[i] in selected && Digits(index, PoolSizes(c.pools, ids))[i] < |c.pools[ids[i]]|
         && selected[ids[i]] == c.pools[ids[i]][Digits(index, PoolSizes(c.pools, ids))[i]]
  }

  lemma SelectionIsSpelled(c: Culture, s: seq<Segment>, index: nat)
    requires forall id :: id in Placeholders(s) ==> id in c.pools && PoolOk(id, c.pools[id])
    ensures var choice := SelectFrom(c.pools, Placeholders(s), map[], index);
            choice.Chosen? && IsSpelled(c, s, index, choice.selected)
  {
    var ids, none: map<string, string> := Placeholders(s), map[];
    assert none.Keys == {};
    SelectionCovers(c, s, index);
    PoolsOfFirst(c, ids);
    SelectionIsDigits(c.pools, ids, none, index);
    hide PoolOk, Placeholders, FirstOnly, SelectFrom;
  }

  /** Main result: the name an accepted configuration gives an actor is its form's
      pattern filled with the components that the place of its number picks. */
  lemma NameMeans(actorId: nat, config: Config, context: Option<Context>)
    requires Accepted(config) && actorId <= U64_MAX
    ensures var chosen := ChooseCulture(config, context);
            && chosen.Some?
            && exists e: Entry, number: nat, index: nat, selected: map<string, string> ::
                 NamedBy(actorId, chosen.value, e, number, index, selected, GeneratedName(actorId, config, context))
  {
    hide *;
    EveryContextHasACulture(config, context);
    AcceptedStrategy(actorId, config, context);
    var c := ChooseCulture(config, context).value;
    var index, selected := NameInCultureMeans(actorId, c);
  }

  lemma AcceptedStrategy(actorId: nat, config: Config, context: Option<Context>)
    requires Accepted(config) && ChooseCulture(config, context).Some?
    ensures GeneratedName(actorId, config, context) == NameInCulture(actorId, ChooseCulture(config, context).value)
  {
    hide ChooseCulture, NameInCulture, CulturesError, NamingSpace, LowerIds;
  }

  ghost predicate NamedBy(actorId: nat, c: Culture, e: Entry, number: nat, index: nat, selected: map<string, string>, g: Generation) {
    && IsTurn(actorId, c, e, number)
    && var s := Parse(c.forms[e.form].pattern);
       && s.Some? && Spellings(c, s.value) > 0 && IsPlace(index, number, Spellings(c, s.value), SaltOf(c, c.forms[e.form]))
       && IsSpelled(c, s.value, index, selected)
       && g == Named(Fill(s.value, selected))
  }

  lemma NameInCultureMeans(actorId: nat, c: Culture) returns (index: nat, selected: map<string, string>)
    requires CultureError(c) == None && actorId <= U64_MAX
    ensures Schedule(Weights(c.forms)) != []
    ensures NamedBy(actorId, c, PlaceOf(actorId, c), NumberOf(actorId, c), index, selected, NameInCulture(actorId, c))
  {
    hide *;
    TurnIs(actorId, c);
    var j := FormOf(actorId, c);
    var form := c.forms[j];
    AcceptedSpace(c, j);
    AcceptedFormMeans(c, j);
    SpaceIsSpellings(actorId, c);
    var s, number := Parse(form.pattern).value, NumberOf(actorId, c);
    index := Permuted(number, SpaceOf(actorId, c), Salt(c, form));
    PlacingMeans(number, SpaceOf(actorId, c), Salt(c, form));
    SaltMeans(c, form);
    SelectionIsSpelled(c, s, index);
    SelectionCovers(c, s, index);
    var choice := SelectFrom(c.pools, Placeholders(s), map[], index);
    selected := choice.selected;
    NameIsSpelling(actorId, c);
    SpellNameIsRender(c, form, index, s, choice);
    RenderIsFill(form.pattern, selected);
    Together(actorId, c, PlaceOf(actorId, c), number, index, selected, s, NameInCulture(actorId, c));
  }

  lemma SpaceIsSpellings(actorId: nat, c: Culture)
    requires CultureError(c) == None
    ensures var s := Parse(c.forms[FormOf(actorId, c)].pattern);
            s.Some? && SpaceOf(actorId, c) == Spellings(c, s.value) > 0
  {
    AcceptedSpace(c, FormOf(actorId, c));
    hide CultureError, FormSpace, Parse, Product, PoolSizes, FirstOnly;
  }

  lemma Together(actorId: nat, c: Culture, e: Entry, number: nat, index: nat, selected: map<string, string>,
                 s: seq<Segment>, g: Generation)
    requires IsTurn(actorId, c, e, number) && Parse(c.forms[e.form].pattern) == Some(s)
    requires Spellings(c, s) > 0 && IsPlace(index, number, Spellings(c, s), SaltOf(c, c.forms[e.form]))
    requires IsSpelled(c, s, index, selected)
    requires g == Named(Fill(s, selected))
    ensures NamedBy(actorId, c, e, number, index, selected, g)
  {
    hide IsTurn, Parse, Spellings, IsPlace, SaltOf, IsSpelled, Fill;
  }
}
