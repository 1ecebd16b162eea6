/**
  What an actor is known for: a projection of its latest durable deeds.  A first
  primary needs a handful of varied deeds; replacing it needs a clear lead.
 */
module Practice {
  import opened Options
  import opened Sequences

  const PRACTICE_SCHEMA_VERSION := 1
  const PRACTICE_WINDOW := 16
  const PRACTICE_MIN_DEEDS := 5
  const PRACTICE_MIN_TARGETS := 3
  const PRACTICE_SWITCH_LEAD := 3
  const COMPOUND_MIN_DEEDS := 3
  const COMPOUND_MAX_GAP := 1

  datatype Category = Exploration | Craft | Delivery | Stewardship | Care | Mediation | Lore

  datatype Deed = Deed(
    id: string, category: Category, sources: seq<nat>, targetKind: string, targetId: string, durable: bool)

  datatype State = State(schema: nat, primary: Option<Category>, secondary: Option<Category>, updatedSeq: nat)

  // ------------------------------------------------------------------ ordering

  function LatestSource(sources: seq<nat>): nat {
    if sources == [] then 0
    else
      var rest := LatestSource(sources[1..]);
      if rest < sources[0] then sources[0] else rest
  }

  /** Lexicographic order, code point by code point. */
  predicate TextBefore(a: string, b: string) {
    b != "" && (a == "" || a[0] < b[0] || (a[0] == b[0] && TextBefore(a[1..], b[1..])))
  }

  predicate Earlier(a: Deed, b: Deed) {
    var x, y := LatestSource(a.sources), LatestSource(b.sources);
    x < y || (x == y && TextBefore(a.id, b.id))
  }

  predicate IsDurable(d: Deed) {
    d.durable
  }

  /** The durable deeds in order of event and identifier. */
  function Chronicle(deeds: seq<Deed>): seq<Deed> {
    Sort(Filter(deeds, IsDurable), Earlier)
  }

  function LatestOf(chronicle: seq<Deed>): (r: seq<Deed>)
    ensures |r| <= PRACTICE_WINDOW
  {
    if |chronicle| > PRACTICE_WINDOW then chronicle[|chronicle| - PRACTICE_WINDOW..] else chronicle
  }

  function Recent(deeds: seq<Deed>): seq<Deed> {
    LatestOf(Chronicle(deeds))
  }

  function TargetKey(d: Deed): string {
    d.targetKind + ":" + d.targetId
  }

  function Targets(recent: seq<Deed>): set<string> {
    set i | 0 <= i < |recent| :: TargetKey(recent[i])
  }

  // ------------------------------------------------------------------ counting

  function Get(counts: map<Category, nat>, c: Category): nat {
    if c in counts then counts[c] else 0
  }

  function Tally(recent: seq<Deed>): map<Category, nat> {
    if recent == [] then map[]
    else
      var front, c := Tally(recent[..|recent| - 1]), recent[|recent| - 1].category;
      front[c := Get(front, c) + 1]
  }

  method CountCategories(recent: seq<Deed>) returns (counts: map<Category, nat>)
    ensures counts == Tally(recent)
  {
    counts := map[];
    var i := 0;
    while i < |recent|
      invariant 0 <= i <= |recent|
      invariant counts == Tally(recent[..i])
    {
      assert recent[..i + 1][..i] == recent[..i];
      var c := recent[i].category;
      counts := counts[c := Get(counts, c) + 1];
      i := i + 1;
    }
    assert recent[..|recent|] == recent;
  }

  function Rank(c: Category): nat {
    match c
    case Exploration => 0
    case Craft => 1
    case Delivery => 2
    case Stewardship => 3
    case Care => 4
    case Mediation => 5
    case Lore => 6
  }

  function Categories(): seq<Category> {
    [Exploration, Craft, Delivery, Stewardship, Care, Mediation, Lore]
  }

  /** More deeds first, then the earlier category. */
  function Leads(counts: map<Category, nat>): (Category, Category) -> bool {
    (a: Category, b: Category) => Get(counts, a) > Get(counts, b) || (Get(counts, a) == Get(counts, b) && Rank(a) < Rank(b))
  }

  function Practised(counts: map<Category, nat>): Category -> bool {
    (c: Category) => c in counts
  }

  function Leaders(counts: map<Category, nat>): seq<Category> {
    Sort(Filter(Categories(), Practised(counts)), Leads(counts))
  }

  // ---------------------------------------------------------------- projection

  function Primary(current: Option<Category>, leader: Category, counts: map<Category, nat>): Category {
    if current.None? || current.value == leader then leader
    else if Get(counts, leader) >= Get(counts, current.value) + PRACTICE_SWITCH_LEAD then leader
    else current.value
  }

  function Gap(a: nat, b: nat): nat {
    if a < b then b - a else a - b
  }

  /** Both categories are well practised, and about equally. */
  predicate Compounds(counts: map<Category, nat>, primary: Category, c: Category) {
    && c != primary && Get(counts, primary) >= COMPOUND_MIN_DEEDS && Get(counts, c) >= COMPOUND_MIN_DEEDS
    && Gap(Get(counts, primary), Get(counts, c)) <= COMPOUND_MAX_GAP
  }

  function FirstCompound(leaders: seq<Category>, primary: Category, counts: map<Category, nat>): Option<Category> {
    if leaders == [] then None
    else if Compounds(counts, primary, leaders[0]) then Some(leaders[0])
    else FirstCompound(leaders[1..], primary, counts)
  }

  /** Too few deeds, or too few different targets, settle nothing. */
  predicate Settles(recent: seq<Deed>) {
    |recent| >= PRACTICE_MIN_DEEDS && |Targets(recent)| >= PRACTICE_MIN_TARGETS
  }

  function Projected(current: State, deeds: seq<Deed>): State {
    var recent := Recent(deeds);
    var counts := Tally(recent);
    var leaders := Leaders(counts);
    if !Settles(recent) || leaders == [] then current
    else
      var primary := Primary(current.primary, leaders[0], counts);
      var secondary := FirstCompound(leaders, primary, counts);
      var changed := current.primary != Some(primary) || current.secondary != secondary;
      State(PRACTICE_SCHEMA_VERSION, Some(primary), secondary,
            if changed && recent != [] then LatestSource(recent[|recent| - 1].sources) else current.updatedSeq)
  }

  /** The projection as the original runs it: sort, drain, count in a loop. */
  method Project(current: State, deeds: seq<Deed>) returns (state: State)
    ensures state == Projected(current, deeds)
  {
    hide Sort, Filter, Tally, Targets, FirstCompound, Primary;
    var recent := Sort(Filter(deeds, IsDurable), Earlier);
    if |recent| > PRACTICE_WINDOW {
      recent := recent[|recent| - PRACTICE_WINDOW..];
    }
    if |recent| < PRACTICE_MIN_DEEDS || |Targets(recent)| < PRACTICE_MIN_TARGETS {
      return current;
    }
    var counts := CountCategories(recent);
    var leaders := Sort(Filter(Categories(), Practised(counts)), Leads(counts));
    if leaders == [] {
      return current;
    }
    var primary := Primary(current.primary, leaders[0], counts);
    var secondary := FirstCompound(leaders, primary, counts);
    var changed := current.primary != Some(primary) || current.secondary != secondary;
    state := State(PRACTICE_SCHEMA_VERSION, Some(primary), secondary,
                   if changed then LatestSource(recent[|recent| - 1].sources) else current.updatedSeq);
  }
}
