/**
  The avatar name generator: which culture applies, how large each form's space
  of names is, which components an actor's sequence number selects, and the
  name they spell.
 */
module Naming {
  import opened Bits
  import opened NumberTheory
  import opened NamingSchedule
  import opened Options
  import opened NamingText
  import opened NamingValidity

  const U64_MAX: nat := 0xFFFF_FFFF_FFFF_FFFF

  const STRATEGY: string := "culture-grammar/1"

  const MAX_NAME_LENGTH: nat := 28

  datatype Form = Form(pattern: string, weight: nat)

  datatype Selectors = Selectors(profiles: seq<string>, species: seq<string>, origins: seq<string>)

  datatype Culture = Culture(
    id: string, stylePrompt: string, selectors: Selectors,
    forms: seq<Form>, pools: map<string, seq<string>>)

  datatype Config = Config(strategy: string, defaultCulture: string, cultures: seq<Culture>)

  datatype Context = Context(profile: Option<string>, species: Option<string>, origin: Option<string>)

  // ---------------------------------------------------------------- cultures

  /** A selector list that is empty does not count; one that misses rules out. */
  function Matches(accepted: seq<string>, actual: Option<string>): Option<nat> {
    if accepted == [] then Some(0)
    else if actual.Some? && actual.value in accepted then Some(1)
    else None
  }

  function MatchScore(c: Culture, context: Context): Option<nat> {
    var p, s, o := Matches(c.selectors.profiles, context.profile), Matches(c.selectors.species, context.species),
                   Matches(c.selectors.origins, context.origin);
    if p.None? || s.None? || o.None? || p.value + s.value + o.value == 0 then None
    else Some(p.value + s.value + o.value)
  }

  /** Among the first `n` cultures, the index of the last of the best matches;
      the table's length when nothing matches. */
  function BestMatch(cultures: seq<Culture>, context: Context, n: nat): (k: nat)
    requires n <= |cultures|
    ensures k < n || k == |cultures|
    ensures k < |cultures| ==> MatchScore(cultures[k], context).Some?
  {
    if n == 0 then |cultures|
    else
      var best, score := BestMatch(cultures, context, n - 1), MatchScore(cultures[n - 1], context);
      if score.None? || (best < |cultures| && MatchScore(cultures[best], context).value > score.value) then best
      else n - 1
  }

  function FindCulture(cultures: seq<Culture>, id: string, i: nat): (k: nat)
    requires i <= |cultures|
    ensures i <= k <= |cultures| && (k < |cultures| ==> cultures[k].id == id)
    ensures forall j :: i <= j < k ==> cultures[j].id != id
    decreases |cultures| - i
  {
    if i == |cultures| || cultures[i].id == id then i else FindCulture(cultures, id, i + 1)
  }

  /** Without an existing default there is no culture at all, match or not. */
  function ChooseCulture(config: Config, context: Option<Context>): Option<Culture> {
    var fallback := FindCulture(config.cultures, config.defaultCulture, 0);
    if fallback == |config.cultures| then None
    else if context.None? then Some(config.cultures[fallback])
    else
      var best := BestMatch(config.cultures, context.value, |config.cultures|);
      Some(config.cultures[if best < |config.cultures| then best else fallback])
  }

  // ------------------------------------------------------------------ spaces

  /** Distinct placeholders, in order of first appearance. */
  function FirstOnly(ids: seq<string>, seen: set<string>): seq<string>
    decreases |ids|
  {
    if ids == [] then []
    else if ids[0] in seen then FirstOnly(ids[1..], seen)
    else [ids[0]] + FirstOnly(ids[1..], seen + {ids[0]})
  }

  function PoolSize(pools: map<string, seq<string>>, id: string): nat {
    if id in pools then |pools[id]| else 0
  }

  function PoolSizes(pools: map<string, seq<string>>, ids: seq<string>): (r: seq<nat>)
    ensures |r| == |ids| && forall i :: 0 <= i < |ids| ==> r[i] == PoolSize(pools, ids[i])
  {
    seq(|ids|, i requires 0 <= i < |ids| => PoolSize(pools, ids[i]))
  }

  /** The fold over the placeholders, multiplying with an overflow check. */
  function SpaceFrom(pools: map<string, seq<string>>, ids: seq<string>, seen: set<string>, size: nat): Option<nat>
    decreases |ids|
  {
    if ids == [] then Some(size)
    else if ids[0] in seen then SpaceFrom(pools, ids[1..], seen, size)
    else if ids[0] !in pools || size * |pools[ids[0]]| > U64_MAX then None
    else SpaceFrom(pools, ids[1..], seen + {ids[0]}, size * |pools[ids[0]]|)
  }

  function FormSpace(c: Culture, form: Form): Option<nat> {
    var s := Parse(form.pattern);
    if s.None? then None else SpaceFrom(c.pools, Placeholders(s.value), {}, 1)
  }

  /** The sum over a culture's forms, with an overflow check. */
  function TotalSpace(c: Culture, i: nat, total: nat): Option<nat>
    requires i <= |c.forms|
    decreases |c.forms| - i
  {
    if i == |c.forms| then Some(total)
    else
      var space := FormSpace(c, c.forms[i]);
      if space.None? || total + space.value > U64_MAX then None
      else TotalSpace(c, i + 1, total + space.value)
  }

  function NamingSpace(config: Config, context: Option<Context>): Option<nat> {
    var c := ChooseCulture(config, context);
    if c.None? then None else TotalSpace(c.value, 0, 0)
  }

  // -------------------------------------------------------------- selection

  /** The outcome of choosing components: an unknown pool, or an empty one,
      which the remainder below cannot take. */
  datatype Choice = Chosen(selected: map<string, string>) | UnknownPool | EmptyPool

  function SelectFrom(pools: map<string, seq<string>>, ids: seq<string>, chosen: map<string, string>, index: nat): Choice
    decreases |ids|
  {
    if ids == [] then Chosen(chosen)
    else if ids[0] in chosen then SelectFrom(pools, ids[1..], chosen, index)
    else if ids[0] !in pools then UnknownPool
    else if pools[ids[0]] == [] then EmptyPool
    else
      var pool := pools[ids[0]];
      SelectFrom(pools, ids[1..], chosen[ids[0] := pool[index % |pool|]], index / |pool|)
  }

  /** The selection loop: take a digit, divide it away. */
  method SelectComponents(pools: map<string, seq<string>>, ids: seq<string>, index: nat) returns (r: Choice)
    ensures r == SelectFrom(pools, ids, map[], index)
  {
    var selections: map<string, string> := map[];
    var rest: nat, i: nat := index, 0;
    while i < |ids|
      invariant i <= |ids|
      invariant SelectFrom(pools, ids, map[], index) == SelectFrom(pools, ids[i..], selections, rest)
    {
      assert ids[i..][0] == ids[i] && ids[i..][1..] == ids[i + 1..];
      if ids[i] !in selections {
        if ids[i] !in pools {
          return UnknownPool;
        }
        var pool := pools[ids[i]];
        if pool == [] {
          return EmptyPool;
        }
        selections := selections[ids[i] := pool[rest % |pool|]];
        rest := rest / |pool|;
      }
      i := i + 1;
    }
    r := Chosen(selections);
  }

  // ------------------------------------------------------------- generation

  /** What a call yields; the last is an arithmetic fault of the original. */
  datatype Generation = Named(name: string) | NoName | DivisionByZero

  function Salt(c: Culture, form: Form): nat {
    FoldBytes(Bytes(c.id + ":" + form.pattern), 0xcbf2_9ce4_8422_2325)
  }

  /** The index a sequence number is permuted to. */
  function Permuted(sequence: nat, space: nat, salt: nat): (index: nat)
    requires space > 0
    ensures index < space
  {
    Affine(sequence, Multiplier(Xor(0x9E37_79B9_7F4A_7C15, salt), space),
           Xor(0xD1B5_4A32_D192_ED03, RotateLeft23(salt)) % space, space)
  }

  method PermuteIndex(sequence: nat, space: nat, salt: nat) returns (index: nat)
    requires space > 0
    ensures index == Permuted(sequence, space, salt)
  {
    var multiplier := FindMultiplier(Xor(0x9E37_79B9_7F4A_7C15, salt), space);
    var offset := Xor(0xD1B5_4A32_D192_ED03, RotateLeft23(salt)) % space;
    index := ((sequence % space) * multiplier + offset) % space;
  }

  function Weights(forms: seq<Form>): (r: seq<nat>)
    ensures |r| == |forms| && forall i :: 0 <= i < |forms| ==> r[i] == forms[i].weight
  {
    seq(|forms|, i requires 0 <= i < |forms| => forms[i].weight)
  }

  /** The position within a cycle, and the number of whole cycles before it. */
  function Position(actorId: nat, len: nat): (p: nat)
    requires len > 0
    ensures p < len
  {
    actorId % len
  }

  function Cycle(actorId: nat, len: nat): nat
    requires len > 0
  {
    actorId / len
  }

  /** The actor's place in its culture's schedule. */
  function PlaceOf(actorId: nat, c: Culture): Entry
    requires Schedule(Weights(c.forms)) != []
  {
    var schedule := Schedule(Weights(c.forms));
    schedule[Position(actorId, |schedule|)]
  }

  /** The number of an occurrence over all cycles. */
  function Numbered(cycle: nat, place: Entry): nat {
    cycle * place.weight + place.occurrence
  }

  /** How many names of its form come before the actor's. */
  function SequenceOf(actorId: nat, c: Culture): nat
    requires Schedule(Weights(c.forms)) != []
  {
    Numbered(Cycle(actorId, |Schedule(Weights(c.forms))|), PlaceOf(actorId, c))
  }

  function SpellName(c: Culture, form: Form, index: nat): Generation {
    var s := Parse(form.pattern);
    if s.None? then NoName
    else
      var choice := SelectFrom(c.pools, Placeholders(s.value), map[], index);
      if choice.UnknownPool? then NoName
      else if choice.EmptyPool? then DivisionByZero
      else
        var name := Render(form.pattern, choice.selected);
        if name.None? then NoName else Named(name.value)
  }

  predicate Acceptable(name: string) {
    |name| <= MAX_NAME_LENGTH && ValidName(name)
  }

  function NameInCulture(actorId: nat, c: Culture): Generation {
    if Schedule(Weights(c.forms)) == [] then NoName
    else
      var place, sequence := PlaceOf(actorId, c), SequenceOf(actorId, c);
      if place.form >= |c.forms| || sequence > U64_MAX then NoName
      else
        var form := c.forms[place.form];
        var space := FormSpace(c, form);
        if space.None? then NoName
        else if space.value == 0 then DivisionByZero
        else
          var g := SpellName(c, form, Permuted(sequence, space.value, Salt(c, form)));
          if g.Named? && !Acceptable(g.name) then NoName else g
  }

  function GeneratedName(actorId: nat, config: Config, context: Option<Context>): Generation {
    if config.strategy != STRATEGY then NoName
    else
      var c := ChooseCulture(config, context);
      if c.None? then NoName else NameInCulture(actorId, c.value)
  }
}
