/**
  Packing a prompt into a token budget: duplicates are dropped, pinned segments
  are always kept, and the others are taken greedily by priority while they
  fit; the survivors keep their original order.
 */
module PromptPacking {
  import opened Options
  import opened Sequences
  import opened Whitespace

  const U32_MAX: nat := 0xFFFF_FFFF
  const DEFAULT_CONTEXT_LIMIT: U32 := 32_768
  const MIN_PROVIDER_RESERVE: U32 := 256

  type U32 = x: nat | x <= 0xFFFF_FFFF
  type U8 = x: nat | x <= 255

  /** Token budgets: the provider's reserve keeps them below the largest number. */
  type Allowance = x: nat | 1 <= x < 0xFFFF_FFFF witness 1

  datatype SegmentKind = SharedPolicy | UniqueEvidence | Envelope

  datatype Segment = Segment(text: string, kind: SegmentKind, priority: U8, pinned: bool)

  /** A segment with its position in the list it came from. */
  datatype Candidate = Candidate(index: nat, segment: Segment)

  datatype Telemetry = Telemetry(
    contextLimit: U32, inputBudget: U32, estimated: U32, uniqueEvidence: U32, sharedPolicy: U32,
    envelope: U32, duplicates: U32, dropped: U32, overflowed: bool)

  datatype Rendered = Rendered(system: string, user: string, telemetry: Telemetry)

  // -------------------------------------------------------------- arithmetic

  function SaturatingAdd(a: nat, b: nat): U32 {
    if a + b > U32_MAX then U32_MAX else a + b
  }

  function SaturatingSub(a: nat, b: nat): nat {
    if a > b then a - b else 0
  }

  /** A number cut to 32 bits, as unchecked arithmetic leaves it. */
  function Wrapped(n: nat): U32 {
    n % 0x1_0000_0000
  }

  function WrappingAdd(a: nat, b: nat): U32 {
    Wrapped(a + b)
  }

  function Max(a: nat, b: nat): nat {
    if a < b then b else a
  }

  function ContextLimit(limit: Option<U32>): U32 {
    if limit.Some? then limit.value else DEFAULT_CONTEXT_LIMIT
  }

  /** What the context leaves for the prompt, never less than one token. */
  function Budget(limit: Option<U32>, maxOutput: U32): Allowance {
    var context := ContextLimit(limit);
    Max(SaturatingSub(SaturatingSub(context, maxOutput), Max(context / 20, MIN_PROVIDER_RESERVE)), 1)
  }

  // ------------------------------------------------------------------- texts

  function Tokens(text: string): (n: U32)
    ensures n >= 1
  {
    Max(SaturatingAdd(Wrapped(|text|), 3) / 4, 1)
  }

  function Text(s: Segment): string {
    Trim(s.text)
  }

  function Cost(s: Segment): nat {
    Tokens(s.text)
  }

  function Weigh(c: Candidate): nat {
    Cost(c.segment)
  }

  /** The texts of the candidates, one to a line. */
  function Lines(s: seq<Candidate>): string {
    if s == [] then ""
    else if |s| == 1 then Text(s[0].segment)
    else Lines(s[..|s| - 1]) + "\n" + Text(s[|s| - 1].segment)
  }

  // ----------------------------------------------------------- deduplication

  predicate IsFresh(s: Segment, seen: set<string>) {
    Text(s) != "" && Text(s) !in seen
  }

  function SeenAfter(segments: seq<Segment>, seen: set<string>): set<string>
    decreases |segments|
  {
    if segments == [] then seen
    else
      var front, last := segments[..|segments| - 1], segments[|segments| - 1];
      SeenAfter(front, seen) + if Text(last) == "" then {} else {Text(last)}
  }

  /** The first segment of every text not seen before. */
  function Fresh(segments: seq<Segment>, seen: set<string>): seq<Candidate>
    decreases |segments|
  {
    if segments == [] then []
    else
      var front, last := segments[..|segments| - 1], segments[|segments| - 1];
      Fresh(front, seen) + if IsFresh(last, SeenAfter(front, seen)) then [Candidate(|front|, last)] else []
  }

  function DuplicateTokens(segments: seq<Segment>, seen: set<string>, start: U32): U32
    decreases |segments|
  {
    if segments == [] then start
    else
      var front, last := segments[..|segments| - 1], segments[|segments| - 1];
      var sum := DuplicateTokens(front, seen, start);
      if Text(last) in SeenAfter(front, seen) && Text(last) != "" then WrappingAdd(sum, Tokens(Text(last))) else sum
  }

  method Deduplicate(segments: seq<Segment>, alreadySeen: set<string>, start: U32)
      returns (firsts: seq<Candidate>, seen: set<string>, duplicates: U32)
    ensures firsts == Fresh(segments, alreadySeen) && seen == SeenAfter(segments, alreadySeen)
    ensures duplicates == DuplicateTokens(segments, alreadySeen, start)
  {
    firsts, seen, duplicates := [], alreadySeen, start;
    var i := 0;
    while i < |segments|
      invariant 0 <= i <= |segments|
      invariant firsts == Fresh(segments[..i], alreadySeen) && seen == SeenAfter(segments[..i], alreadySeen)
      invariant duplicates == DuplicateTokens(segments[..i], alreadySeen, start)
    {
      assert segments[..i + 1][..i] == segments[..i];
      var text := Text(segments[i]);
      if text != "" {
        if text !in seen {
          seen := seen + {text};
          firsts := firsts + [Candidate(i, segments[i])];
        } else {
          duplicates := WrappingAdd(duplicates, Tokens(text));
          assert seen == seen + {text};
        }
      }
      i := i + 1;
    }
    assert segments[..|segments|] == segments;
  }

  // ----------------------------------------------------------------- packing

  predicate IsPinned(c: Candidate) {
    c.segment.pinned
  }

  predicate IsOptional(c: Candidate) {
    !c.segment.pinned
  }

  /** Higher priority first, then the earlier position. */
  predicate Outranks(a: Candidate, b: Candidate) {
    a.segment.priority > b.segment.priority || (a.segment.priority == b.segment.priority && a.index < b.index)
  }

  predicate Precedes(a: Candidate, b: Candidate) {
    a.index < b.index
  }

  /** An unchecked sum of 32-bit estimates. */
  function Tally(s: seq<Candidate>): U32 {
    Wrapped(Sum(s, Weigh))
  }

  datatype Packing = Packing(used: U32, kept: seq<Candidate>, dropped: U32)

  /** Taking what fits, in the order given. */
  function Pack(optional: seq<Candidate>, used: U32, budget: Allowance): Packing
    decreases |optional|
  {
    if optional == [] then Packing(used, [], 0)
    else
      var p, last := Pack(optional[..|optional| - 1], used, budget), optional[|optional| - 1];
      var sum := SaturatingAdd(p.used, Weigh(last));
      if sum <= budget then Packing(sum, p.kept + [last], p.dropped)
      else Packing(p.used, p.kept, WrappingAdd(p.dropped, 1))
  }

  datatype Layout = Layout(system: seq<Candidate>, selected: seq<Candidate>, used: U32, dropped: U32, duplicates: U32)

  function Candidates(system: seq<Segment>, user: seq<Segment>): seq<Candidate> {
    Fresh(user, SeenAfter(system, {}))
  }

  /** What is sent whatever the budget: the system texts and the pinned ones. */
  function Committed(system: seq<Segment>, user: seq<Segment>): U32 {
    WrappingAdd(Tally(Fresh(system, {})), Tally(Filter(Candidates(system, user), IsPinned)))
  }

  function Ranked(system: seq<Segment>, user: seq<Segment>): seq<Candidate> {
    Sort(Filter(Candidates(system, user), IsOptional), Outranks)
  }

  function Lay(system: seq<Segment>, user: seq<Segment>, budget: Allowance): Layout {
    var p := Pack(Ranked(system, user), Committed(system, user), budget);
    Layout(Fresh(system, {}), Sort(Filter(Candidates(system, user), IsPinned) + p.kept, Precedes), p.used, p.dropped,
           DuplicateTokens(user, SeenAfter(system, {}), DuplicateTokens(system, {}, 0)))
  }

  function OfKind(kind: SegmentKind): Candidate -> bool {
    (c: Candidate) => c.segment.kind == kind
  }

  function TokensFor(l: Layout, kind: SegmentKind): U32 {
    Tally(Filter(l.system + l.selected, OfKind(kind)))
  }

  function Render(system: seq<Segment>, user: seq<Segment>, limit: Option<U32>, maxOutput: U32): Rendered {
    var budget := Budget(limit, maxOutput);
    var l := Lay(system, user, budget);
    Rendered(Lines(l.system), Lines(l.selected),
             Telemetry(ContextLimit(limit), budget, l.used, TokensFor(l, UniqueEvidence), TokensFor(l, SharedPolicy),
                       TokensFor(l, Envelope), l.duplicates, l.dropped, l.used > budget))
  }

  /** The greedy loop. */
  method TakeWhatFits(optional: seq<Candidate>, pinned: seq<Candidate>, committed: U32, budget: Allowance)
      returns (selected: seq<Candidate>, used: U32, dropped: U32)
    ensures var p := Pack(optional, committed, budget);
            selected == pinned + p.kept && used == p.used && dropped == p.dropped
  {
    selected, used, dropped := pinned, committed, 0;
    var i := 0;
    while i < |optional|
      invariant 0 <= i <= |optional|
      invariant var p := Pack(optional[..i], committed, budget);
                selected == pinned + p.kept && used == p.used && dropped == p.dropped
    {
      assert optional[..i + 1][..i] == optional[..i];
      var tokens := Weigh(optional[i]);
      if SaturatingAdd(used, tokens) <= budget {
        used := SaturatingAdd(used, tokens);
        selected := selected + [optional[i]];
      } else {
        dropped := WrappingAdd(dropped, 1);
      }
      i := i + 1;
    }
    assert optional[..|optional|] == optional;
  }

  class PromptEnvelope {
    var system: seq<Segment>
    var user: seq<Segment>

    constructor ()
      ensures system == [] && user == []
    {
      system, user := [], [];
    }

    method AddSystem(text: string)
      modifies this
      ensures system == old(system) + [Segment(text, SharedPolicy, 255, true)] && user == old(user)
    {
      system := system + [Segment(text, SharedPolicy, 255, true)];
    }

    /** Blank texts are not added. */
    method AddUser(text: string, kind: SegmentKind, priority: U8, pinned: bool)
      modifies this
      ensures system == old(system)
      ensures user == old(user) + if Trim(text) == "" then [] else [Segment(text, kind, priority, pinned)]
    {
      if Trim(text) != "" {
        user := user + [Segment(text, kind, priority, pinned)];
      }
    }

    method RenderFor(limit: Option<U32>, maxOutput: U32) returns (r: Rendered)
      ensures r == Render(system, user, limit, maxOutput)
    {
      hide Fresh, SeenAfter, DuplicateTokens, Filter, Sort, Pack, Lines, Tally, Budget;
      var budget := Budget(limit, maxOutput);
      var kept, seen, duplicates := Deduplicate(system, {}, 0);
      var candidates;
      candidates, seen, duplicates := Deduplicate(user, seen, duplicates);
      var selected := Filter(candidates, IsPinned);
      var used := WrappingAdd(Tally(kept), Tally(selected));
      var optional := Sort(Filter(candidates, IsOptional), Outranks);
      var dropped;
      selected, used, dropped := TakeWhatFits(optional, selected, used, budget);
      selected := Sort(selected, Precedes);
      var l := Layout(kept, selected, used, dropped, duplicates);
      r := Rendered(Lines(kept), Lines(selected),
                    Telemetry(ContextLimit(limit), budget, used, TokensFor(l, UniqueEvidence), TokensFor(l, SharedPolicy),
                              TokensFor(l, Envelope), duplicates, dropped, used > budget));
    }
  }
}
