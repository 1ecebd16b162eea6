/**
  The check a naming configuration must pass: identifiers, prompts, selectors,
  pools and forms culture by culture, then the default culture and the size of
  its space.
 */
module NamingValidator {
  import opened Options
  import opened NamingText
  import opened NamingValidity
  import opened Naming
  import opened Whitespace

  datatype NamingError =
    | UnsupportedStrategy | CultureCount | BadCultureId | BadStylePrompt | BadSelectors
    | PoolCount | BadPool | FormCount | BadWeight | BadPattern | UnknownPoolName
    | BadForm | FormSpaceTooLarge | NoDefaultCulture | SpaceTooLarge

  // ------------------------------------------------------------- characters

  function LowerChar(c: char): char {
    if 'A' <= c <= 'Z' then (c as int + 32) as char else c
  }

  function Lower(s: string): (r: string)
    ensures |r| == |s| && forall i :: 0 <= i < |s| ==> r[i] == LowerChar(s[i])
  {
    seq(|s|, i requires 0 <= i < |s| => LowerChar(s[i]))
  }

  predicate IsControl(c: char) {
    c as int < 0x20 || 0x7F <= c as int < 0xA0
  }

  predicate PromptOk(s: string) {
    |Trim(s)| >= 12 && |s| <= 240 && forall i :: 0 <= i < |s| ==> !IsControl(s[i])
  }

  predicate IsSelectorChar(c: char) {
    IsAlpha(c) || '0' <= c <= '9' || c == '.' || c == '_' || c == ':' || c == '-' || c == '/'
  }

  predicate ValidSelector(s: string) {
    1 <= |s| <= 80 && forall i :: 0 <= i < |s| ==> IsSelectorChar(s[i])
  }

  /** No two entries differ in case only. */
  predicate DistinctIgnoringCase(values: seq<string>) {
    forall i, j :: 0 <= i < j < |values| ==> Lower(values[i]) != Lower(values[j])
  }

  predicate SelectorsOk(values: seq<string>) {
    |values| <= 64 && (forall i :: 0 <= i < |values| ==> ValidSelector(values[i])) && DistinctIgnoringCase(values)
  }

  // ------------------------------------------------------------ pools, forms

  predicate EntriesOk(values: seq<string>) {
    (forall i :: 0 <= i < |values| ==> ValidComponent(values[i])) && DistinctIgnoringCase(values)
  }

  predicate PoolOk(id: string, values: seq<string>) {
    ValidId(id) && 2 <= |values| <= 256 && EntriesOk(values)
  }

  predicate PoolsOk(pools: map<string, seq<string>>) {
    forall id :: id in pools ==> PoolOk(id, pools[id])
  }

  /** The last of the longest entries. */
  function Longest(pool: seq<string>): (v: string)
    requires pool != []
    ensures v in pool && forall w :: w in pool ==> |w| <= |v|
  {
    if |pool| == 1 then pool[0]
    else
      var rest := Longest(pool[1..]);
      if |rest| >= |pool[0]| then rest else pool[0]
  }

  /** The first of the shortest entries. */
  function Shortest(pool: seq<string>): (v: string)
    requires pool != []
    ensures v in pool && forall w :: w in pool ==> |v| <= |w|
  {
    if |pool| == 1 then pool[0]
    else
      var rest := Shortest(pool[1..]);
      if |pool[0]| <= |rest| then pool[0] else rest
  }

  predicate Supplied(pools: map<string, seq<string>>, ids: seq<string>) {
    forall id :: id in ids ==> id in pools && pools[id] != []
  }

  function Extremes(pools: map<string, seq<string>>, ids: seq<string>, longest: bool): (r: map<string, string>)
    requires Supplied(pools, ids)
    ensures forall id :: id in ids <==> id in r
    ensures forall id :: id in ids ==> r[id] == if longest then Longest(pools[id]) else Shortest(pools[id])
  {
    map id | id in ids :: if longest then Longest(pools[id]) else Shortest(pools[id])
  }

  /** The selection loop of the extreme renderings. */
  method SelectExtremes(pools: map<string, seq<string>>, ids: seq<string>, longest: bool) returns (r: map<string, string>)
    requires Supplied(pools, ids)
    ensures r == Extremes(pools, ids, longest)
  {
    r := map[];
    var i := 0;
    while i < |ids|
      invariant i <= |ids|
      invariant forall id :: id in r <==> id in ids[..i]
      invariant forall id :: id in r ==> id in ids && r[id] == if longest then Longest(pools[id]) else Shortest(pools[id])
    {
      var pool := pools[ids[i]];
      r := r[ids[i] := if longest then Longest(pool) else Shortest(pool)];
      i := i + 1;
    }
    assert ids[..i] == ids;
  }

  /** Both extreme renderings succeed, are valid, and the longer one is short enough. */
  predicate RendersWell(pools: map<string, seq<string>>, pattern: string, ids: seq<string>)
    requires Supplied(pools, ids)
  {
    var shortest, longest := Render(pattern, Extremes(pools, ids, false)), Render(pattern, Extremes(pools, ids, true));
    shortest.Some? && longest.Some? && ValidName(shortest.value) && ValidName(longest.value)
    && |longest.value| <= MAX_NAME_LENGTH
  }

  lemma KnownPoolsSupply(pools: map<string, seq<string>>, ids: seq<string>)
    requires PoolsOk(pools) && forall id :: id in ids ==> id in pools
    ensures Supplied(pools, ids)
  {
    forall id | id in ids ensures pools[id] != [] {
      assert PoolOk(id, pools[id]);
    }
  }

  function FormError(c: Culture, form: Form): Option<NamingError>
    requires PoolsOk(c.pools)
  {
    var parsed := Parse(form.pattern);
    if !(1 <= form.weight <= 16) then Some(BadWeight)
    else if parsed.None? then Some(BadPattern)
    else
      var ids := Placeholders(parsed.value);
      if ids == [] || exists id :: id in ids && id !in c.pools then Some(UnknownPoolName)
      else
        KnownPoolsSupply(c.pools, ids);
        if !RendersWell(c.pools, form.pattern, ids) then Some(BadForm)
        else if FormSpace(c, form).None? then Some(FormSpaceTooLarge)
        else None
  }

  function FormsError(c: Culture, i: nat): Option<NamingError>
    requires PoolsOk(c.pools) && i <= |c.forms|
    decreases |c.forms| - i
  {
    if i == |c.forms| then None
    else if FormError(c, c.forms[i]).Some? then FormError(c, c.forms[i])
    else FormsError(c, i + 1)
  }

  function CultureError(c: Culture): Option<NamingError> {
    if !PromptOk(c.stylePrompt) then Some(BadStylePrompt)
    else if !(SelectorsOk(c.selectors.profiles) && SelectorsOk(c.selectors.species) && SelectorsOk(c.selectors.origins))
    then Some(BadSelectors)
    else if !(1 <= |c.pools| <= 32) then Some(PoolCount)
    else if !PoolsOk(c.pools) then Some(BadPool)
    else if !(1 <= |c.forms| <= 16) then Some(FormCount)
    else FormsError(c, 0)
  }

  /** The cultures from index `i` on, given the identifiers already seen. */
  function CulturesError(cultures: seq<Culture>, i: nat, seen: set<string>): Option<NamingError>
    requires i <= |cultures|
    decreases |cultures| - i
  {
    if i == |cultures| then None
    else if !ValidId(cultures[i].id) || Lower(cultures[i].id) in seen then Some(BadCultureId)
    else if CultureError(cultures[i]).Some? then CultureError(cultures[i])
    else CulturesError(cultures, i + 1, seen + {Lower(cultures[i].id)})
  }

  function LowerIds(cultures: seq<Culture>): set<string> {
    set i | 0 <= i < |cultures| :: Lower(cultures[i].id)
  }

  function ConfigError(config: Config): Option<NamingError> {
    if config.strategy != STRATEGY then Some(UnsupportedStrategy)
    else if !(1 <= |config.cultures| <= 32) then Some(CultureCount)
    else if CulturesError(config.cultures, 0, {}).Some? then CulturesError(config.cultures, 0, {})
    else if Lower(config.defaultCulture) !in LowerIds(config.cultures) then Some(NoDefaultCulture)
    else if NamingSpace(config, None).None? then Some(SpaceTooLarge)
    else None
  }

  predicate Accepted(config: Config) {
    ConfigError(config) == None
  }

  // --------------------------------------------------------------- the loops

  /** The entry loop, with its set of lower-cased values. */
  method CheckEntries(values: seq<string>) returns (valid: bool)
    ensures valid == EntriesOk(values)
  {
    hide ValidComponent;
    var unique: set<string> := {};
    var i := 0;
    while i < |values|
      invariant i <= |values|
      invariant forall v :: v in unique <==> exists j :: 0 <= j < i && Lower(values[j]) == v
      invariant forall j :: 0 <= j < i ==> ValidComponent(values[j])
      invariant DistinctIgnoringCase(values[..i])
    {
      if !ValidComponent(values[i]) || Lower(values[i]) in unique {
        return false;
      }
      unique := unique + {Lower(values[i])};
      i := i + 1;
    }
    assert values[..i] == values;
    valid := true;
  }

  /** The selector checks: a bound, a scan, and a set compared by size. */
  method CheckSelectors(values: seq<string>) returns (valid: bool)
    ensures valid == SelectorsOk(values)
  {
    hide ValidSelector;
    if |values| > 64 {
      return false;
    }
    var unique: set<string> := {};
    var i := 0;
    while i < |values|
      invariant i <= |values|
      invariant forall j :: 0 <= j < i ==> ValidSelector(values[j])
      invariant forall v :: v in unique <==> exists j :: 0 <= j < i && Lower(values[j]) == v
      invariant |unique| <= i && (|unique| == i <==> DistinctIgnoringCase(values[..i]))
    {
      if !ValidSelector(values[i]) {
        return false;
      }
      OneMoreDistinct(values, i);
      if Lower(values[i]) in unique {
        assert unique + {Lower(values[i])} == unique;
      }
      unique := unique + {Lower(values[i])};
      i := i + 1;
    }
    assert values[..i] == values;
    valid := |unique| == |values|;
  }

  lemma OneMoreDistinct(values: seq<string>, i: nat)
    requires i < |values|
    ensures DistinctIgnoringCase(values[..i + 1])
       <==> DistinctIgnoringCase(values[..i]) && forall j :: 0 <= j < i ==> Lower(values[j]) != Lower(values[i])
  {
    hide Lower;
    assert forall j :: 0 <= j <= i ==> values[..i + 1][j] == values[j];
    assert forall j :: 0 <= j < i ==> values[..i][j] == values[j];
  }

  /** The pool loop, in whatever order the map yields its keys. */
  method CheckPools(pools: map<string, seq<string>>) returns (valid: bool)
    ensures valid == PoolsOk(pools)
  {
    hide ValidId;
    hide EntriesOk;
    var left := pools.Keys;
    while left != {}
      invariant left <= pools.Keys
      invariant forall id :: id in pools && id !in left ==> PoolOk(id, pools[id])
      decreases |left|
    {
      var id :| id in left;
      left := left - {id};
      var entries := CheckEntries(pools[id]);
      if !ValidId(id) || |pools[id]| < 2 || |pools[id]| > 256 || !entries {
        assert !PoolOk(id, pools[id]);
        return false;
      }
    }
    valid := true;
  }

  method CheckRenderings(pools: map<string, seq<string>>, pattern: string, ids: seq<string>) returns (well: bool)
    requires Supplied(pools, ids)
    ensures well == RendersWell(pools, pattern, ids)
  {
    hide ValidName;
    hide Render;
    var least := SelectExtremes(pools, ids, false);
    var most := SelectExtremes(pools, ids, true);
    var shortest := RenderPattern(pattern, least);
    var longest := RenderPattern(pattern, most);
    well := shortest.Some? && longest.Some? && ValidName(shortest.value) && ValidName(longest.value)
            && |longest.value| <= MAX_NAME_LENGTH;
  }

  method CheckForm(c: Culture, form: Form) returns (e: Option<NamingError>)
    requires PoolsOk(c.pools)
    ensures e == FormError(c, form)
  {
    hide RendersWell;
    hide FormSpace;
    hide Parse;
    if !(1 <= form.weight <= 16) {
      return Some(BadWeight);
    }
    var ids := ReadPlaceholders(form.pattern);
    if ids.None? {
      return Some(BadPattern);
    }
    if ids.value == [] || exists id :: id in ids.value && id !in c.pools {
      return Some(UnknownPoolName);
    }
    KnownPoolsSupply(c.pools, ids.value);
    var well := CheckRenderings(c.pools, form.pattern, ids.value);
    if !well {
      return Some(BadForm);
    }
    e := if FormSpace(c, form).None? then Some(FormSpaceTooLarge) else None;
  }

  method CheckCulture(c: Culture) returns (e: Option<NamingError>)
    ensures e == CultureError(c)
  {
    hide FormError;
    hide PoolsOk;
    if !PromptOk(c.stylePrompt) {
      return Some(BadStylePrompt);
    }
    var profiles := CheckSelectors(c.selectors.profiles);
    var species := CheckSelectors(c.selectors.species);
    var origins := CheckSelectors(c.selectors.origins);
    if !profiles || !species || !origins {
      return Some(BadSelectors);
    }
    if !(1 <= |c.pools| <= 32) {
      return Some(PoolCount);
    }
    var pools := CheckPools(c.pools);
    if !pools {
      return Some(BadPool);
    }
    if !(1 <= |c.forms| <= 16) {
      return Some(FormCount);
    }
    var i := 0;
    while i < |c.forms|
      invariant i <= |c.forms| && FormsError(c, 0) == FormsError(c, i)
    {
      e := CheckForm(c, c.forms[i]);
      if e.Some? {
        return;
      }
      i := i + 1;
    }
    e := None;
  }

  /** The whole check. */
  method Validate(config: Config) returns (e: Option<NamingError>)
    ensures e == ConfigError(config)
  {
    hide CultureError;
    hide NamingSpace;
    if config.strategy != STRATEGY {
      return Some(UnsupportedStrategy);
    }
    if !(1 <= |config.cultures| <= 32) {
      return Some(CultureCount);
    }
    var ids: set<string> := {};
    var i := 0;
    while i < |config.cultures|
      invariant i <= |config.cultures| && ids == LowerIds(config.cultures[..i])
      invariant CulturesError(config.cultures, 0, {}) == CulturesError(config.cultures, i, ids)
    {
      var c := config.cultures[i];
      if !ValidId(c.id) || Lower(c.id) in ids {
        return Some(BadCultureId);
      }
      e := CheckCulture(c);
      if e.Some? {
        return;
      }
      OneMoreId(config.cultures, i);
      ids := ids + {Lower(c.id)};
      i := i + 1;
    }
    assert config.cultures[..i] == config.cultures;
    if Lower(config.defaultCulture) !in ids {
      return Some(NoDefaultCulture);
    }
    e := if NamingSpace(config, None).None? then Some(SpaceTooLarge) else None;
  }

  lemma OneMoreId(cultures: seq<Culture>, i: nat)
    requires i < |cultures|
    ensures LowerIds(cultures[..i + 1]) == LowerIds(cultures[..i]) + {Lower(cultures[i].id)}
  {
    var longer, shorter := cultures[..i + 1], cultures[..i];
    forall v | v in LowerIds(shorter) + {Lower(cultures[i].id)} ensures v in LowerIds(longer) {
      if v in LowerIds(shorter) {
        var j :| 0 <= j < i && Lower(shorter[j].id) == v;
        assert longer[j] == shorter[j];
      } else {
        assert longer[i] == cultures[i];
      }
    }
    forall v | v in LowerIds(longer) ensures v in LowerIds(shorter) + {Lower(cultures[i].id)} {
      var j :| 0 <= j <= i && Lower(longer[j].id) == v;
      if j < i {
        assert shorter[j] == longer[j];
      }
    }
  }
}
