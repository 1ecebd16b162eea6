/**
  Name patterns: literal text with pool identifiers in braces.  The parser reads
  a pattern into segments; rendering replaces one placeholder after another in
  the whole text; and that is the same as filling every slot in one pass.
 */
module NamingText {

  import opened Options

  predicate IsLower(c: char) { 'a' <= c <= 'z' }

  predicate IsAlpha(c: char) { 'a' <= c <= 'z' || 'A' <= c <= 'Z' }

  predicate IsIdChar(c: char) { IsLower(c) || '0' <= c <= '9' || c == '_' }

  predicate IsNameChar(c: char) { IsAlpha(c) || c == ' ' || c == '-' || c == '\'' }

  predicate ValidId(s: string) {
    1 <= |s| <= 32 && IsLower(s[0]) && forall i :: 0 < i < |s| ==> IsIdChar(s[i])
  }

  datatype Segment = Text(c: char) | Slot(id: string)

  predicate SegmentOk(x: Segment) {
    match x
    case Text(c) => IsNameChar(c)
    case Slot(id) => ValidId(id)
  }

  predicate SegmentsOk(s: seq<Segment>) {
    forall i :: 0 <= i < |s| ==> SegmentOk(s[i])
  }

  // ----------------------------------------------------------------- parsing

  /** The first closing brace at or after `i`, or the pattern's length. */
  function FindBrace(p: string, i: nat): (k: nat)
    requires i <= |p|
    ensures i <= k <= |p| && (k < |p| ==> p[k] == '}')
    ensures forall j :: i <= j < k ==> p[j] != '}'
    decreases |p| - i
  {
    if i == |p| || p[i] == '}' then i else FindBrace(p, i + 1)
  }

  function Prepend(x: Segment, rest: Option<seq<Segment>>): Option<seq<Segment>> {
    if rest.None? then None else Some([x] + rest.value)
  }

  function Scan(p: string, cursor: nat): Option<seq<Segment>>
    requires cursor <= |p|
    decreases |p| - cursor
  {
    if cursor == |p| then Some([])
    else if p[cursor] == '{' then
      var end := FindBrace(p, cursor + 1);
      if end == |p| || !ValidId(p[cursor + 1..end]) then None
      else Prepend(Slot(p[cursor + 1..end]), Scan(p, end + 1))
    else if !IsNameChar(p[cursor]) then None
    else Prepend(Text(p[cursor]), Scan(p, cursor + 1))
  }

  function Parse(pattern: string): Option<seq<Segment>> {
    if pattern == [] || |pattern| > 80 then None else Scan(pattern, 0)
  }

  function Braced(id: string): string {
    ['{'] + id + ['}']
  }

  function Spelled(x: Segment): string {
    match x
    case Text(c) => [c]
    case Slot(id) => Braced(id)
  }

  /** The text of a list of segments, slots in braces. */
  function Written(s: seq<Segment>): string {
    if s == [] then [] else Spelled(s[0]) + Written(s[1..])
  }

  lemma WrittenPrepend(x: Segment, rest: seq<Segment>)
    requires SegmentOk(x) && SegmentsOk(rest)
    ensures SegmentsOk([x] + rest) && Written([x] + rest) == Spelled(x) + Written(rest)
  {
    assert ([x] + rest)[1..] == rest;
  }

  lemma BracedSliceSplits(p: string, cursor: nat, end: nat)
    requires cursor < end < |p| && p[cursor] == '{' && p[end] == '}'
    ensures p[cursor..] == Braced(p[cursor + 1..end]) + p[end + 1..]
  {}

  /** Reading is the inverse of writing: what the parser returns spells the
      pattern, and only well-formed segments. */
  lemma {:induction false} ParsedSpellsPattern(p: string, cursor: nat)
    requires cursor <= |p| && Scan(p, cursor).Some?
    ensures SegmentsOk(Scan(p, cursor).value)
    ensures Written(Scan(p, cursor).value) == p[cursor..]
    decreases |p| - cursor
  {
    hide ValidId;
    hide IsNameChar;
    hide Written;
    hide SegmentsOk;
    if cursor == |p| {
      NothingIsWritten();
    } else if p[cursor] == '{' {
      var end := FindBrace(p, cursor + 1);
      ParsedSpellsPattern(p, end + 1);
      WrittenPrepend(Slot(p[cursor + 1..end]), Scan(p, end + 1).value);
      BracedSliceSplits(p, cursor, end);
    } else {
      ParsedSpellsPattern(p, cursor + 1);
      WrittenPrepend(Text(p[cursor]), Scan(p, cursor + 1).value);
      assert p[cursor..] == [p[cursor]] + p[cursor + 1..];
    }
  }

  lemma NothingIsWritten()
    ensures SegmentsOk([]) && Written([]) == []
  {}

  lemma IdHasNoBraces(id: string, i: nat)
    requires ValidId(id) && i < |id|
    ensures id[i] != '{' && id[i] != '}'
  {}

  /** And writing is the inverse of reading. */
  lemma {:induction false} WrittenParsesBack(s: seq<Segment>, p: string, cursor: nat)
    requires SegmentsOk(s) && cursor <= |p| && p[cursor..] == Written(s)
    ensures Scan(p, cursor) == Some(s)
    decreases |s|
  {
    hide ValidId;
    hide Written;
    if s == [] {
      NothingIsWritten();
      assert cursor == |p|;
    } else {
      assert SegmentOk(s[0]);
      assert [s[0]] + s[1..] == s;
      if s[0].Text? {
        TextParsesBack(s, p, cursor);
        WrittenParsesBack(s[1..], p, cursor + 1);
      } else {
        SlotParsesBack(s, p, cursor, s[0].id);
        WrittenParsesBack(s[1..], p, cursor + |s[0].id| + 2);
      }
    }
  }

  lemma TextParsesBack(s: seq<Segment>, p: string, cursor: nat)
    requires s != [] && s[0].Text? && cursor <= |p| && p[cursor..] == Written(s)
    ensures cursor < |p| && p[cursor] == s[0].c && p[cursor + 1..] == Written(s[1..])
  {
    var text := p[cursor..];
    assert text == [s[0].c] + Written(s[1..]);
    assert p[cursor] == text[0] && p[cursor + 1..] == text[1..];
  }

  lemma SlotParsesBack(s: seq<Segment>, p: string, cursor: nat, id: string)
    requires s != [] && s[0] == Slot(id) && ValidId(id) && cursor <= |p| && p[cursor..] == Written(s)
    ensures cursor + |id| + 2 <= |p| && p[cursor] == '{' && p[cursor + |id| + 2..] == Written(s[1..])
    ensures FindBrace(p, cursor + 1) == cursor + |id| + 1 && p[cursor + 1..cursor + |id| + 1] == id
  {
    assert p[cursor..] == Braced(id) + Written(s[1..]);
    hide Written;
    forall i: nat | i < |id| ensures id[i] != '}' { IdHasNoBraces(id, i); }
    hide ValidId;
    BracedAt(p, cursor, id, Written(s[1..]));
  }

  lemma BracedAt(p: string, cursor: nat, id: string, rest: string)
    requires cursor <= |p| && p[cursor..] == Braced(id) + rest && forall i :: 0 <= i < |id| ==> id[i] != '}'
    ensures cursor + |id| + 2 <= |p| && p[cursor] == '{' && p[cursor + |id| + 2..] == rest
    ensures FindBrace(p, cursor + 1) == cursor + |id| + 1 && p[cursor + 1..cursor + |id| + 1] == id
  {
    hide FindBrace;
    var text, end := p[cursor..], cursor + |id| + 1;
    assert |text| == |id| + 2 + |rest|;
    assert p[cursor] == text[0] && p[end] == text[|id| + 1];
    forall j | cursor + 1 <= j < end ensures p[j] == id[j - cursor - 1] {
      assert p[j] == text[j - cursor];
    }
    assert p[end + 1..] == text[|id| + 2..] == rest;
  }

  /** The placeholders, in order. */
  function Placeholders(s: seq<Segment>): seq<string> {
    if s == [] then []
    else (match s[0] case Text(_) => [] case Slot(id) => [id]) + Placeholders(s[1..])
  }

  /** The parser's loop: a cursor over the pattern that collects placeholders. */
  method ReadPlaceholders(pattern: string) returns (r: Option<seq<string>>)
    ensures r == if Parse(pattern).None? then None else Some(Placeholders(Parse(pattern).value))
  {
    if pattern == [] || |pattern| > 80 {
      return None;
    }
    var found, cursor := [], 0;
    ghost var done: seq<Segment> := [];
    assert Scan(pattern, 0).Some? ==> done + Scan(pattern, 0).value == Scan(pattern, 0).value;
    while cursor < |pattern|
      invariant cursor <= |pattern| && found == Placeholders(done)
      invariant Scan(pattern, 0) == if Scan(pattern, cursor).None? then None else Some(done + Scan(pattern, cursor).value)
      decreases |pattern| - cursor
    {
      if pattern[cursor] == '{' {
        var end := FindBrace(pattern, cursor + 1);
        if end == |pattern| || !ValidId(pattern[cursor + 1..end]) {
          return None;
        }
        Continues(done, Slot(pattern[cursor + 1..end]), Scan(pattern, end + 1));
        found := found + [pattern[cursor + 1..end]];
        done := done + [Slot(pattern[cursor + 1..end])];
        cursor := end + 1;
      } else {
        if !IsNameChar(pattern[cursor]) {
          return None;
        }
        Continues(done, Text(pattern[cursor]), Scan(pattern, cursor + 1));
        done := done + [Text(pattern[cursor])];
        cursor := cursor + 1;
      }
    }
    assert done + [] == done;
    r := Some(found);
  }

  lemma Continues(done: seq<Segment>, x: Segment, rest: Option<seq<Segment>>)
    ensures rest.Some? ==> done + Prepend(x, rest).value == (done + [x]) + rest.value
    ensures Placeholders(done + [x]) == Placeholders(done) + (match x case Text(_) => [] case Slot(id) => [id])
  {
    PlaceholdersAppend(done, [x]);
    assert [x][1..] == [];
  }

  lemma {:induction false} PlaceholdersAppend(s: seq<Segment>, t: seq<Segment>)
    ensures Placeholders(s + t) == Placeholders(s) + Placeholders(t)
    decreases |s|
  {
    if s == [] {
      assert s + t == t;
    } else {
      assert (s + t)[0] == s[0] && (s + t)[1..] == s[1..] + t;
      PlaceholdersAppend(s[1..], t);
    }
  }

  // ------------------------------------------------------------- replacement

  /** All non-overlapping matches of `from`, left to right, become `to`. */
  function Replace(text: string, from: string, to: string): string
    requires |from| > 0
    decreases |text|
  {
    if text == [] then []
    else if from <= text then to + Replace(text[|from|..], from, to)
    else [text[0]] + Replace(text[1..], from, to)
  }

  lemma {:induction false} ReplaceSkips(s: string, t: string, id: string, to: string)
    requires forall i :: 0 <= i < |s| ==> s[i] != '{'
    ensures Replace(s + t, Braced(id), to) == s + Replace(t, Braced(id), to)
    decreases |s|
  {
    if s == [] {
      assert s + t == t;
    } else {
      assert (s + t)[0] == s[0] && (s + t)[1..] == s[1..] + t;
      assert Braced(id)[0] == '{';
      ReplaceSkips(s[1..], t, id, to);
      assert s == [s[0]] + s[1..];
    }
  }

  /** Two braced identifiers differ within the shorter one's braces. */
  lemma BracedDiffer(id: string, other: string) returns (i: nat)
    requires ValidId(id) && ValidId(other) && id != other
    ensures i < |Braced(id)| && i < |Braced(other)| && Braced(id)[i] != Braced(other)[i]
  {
    if |id| < |other| {
      i := |id| + 1;
      IdHasNoBraces(other, |id|);
    } else if |other| < |id| {
      i := |other| + 1;
      IdHasNoBraces(id, |other|);
    } else {
      var k :| 0 <= k < |id| && id[k] != other[k];
      i := k + 1;
    }
  }

  lemma OtherSlotIsNoMatch(id: string, other: string, rest: string)
    requires ValidId(id) && ValidId(other) && id != other
    ensures !(Braced(id) <= Braced(other) + rest)
  {
    var i := BracedDiffer(id, other);
    assert (Braced(other) + rest)[i] == Braced(other)[i];
  }

  function Texts(v: string): (r: seq<Segment>)
    ensures |r| == |v| && forall i :: 0 <= i < |v| ==> r[i] == Text(v[i])
  {
    seq(|v|, i requires 0 <= i < |v| => Text(v[i]))
  }

  /** Every slot of this name becomes the value's text. */
  function Substitute(s: seq<Segment>, id: string, v: string): seq<Segment> {
    if s == [] then []
    else (if s[0] == Slot(id) then Texts(v) else [s[0]]) + Substitute(s[1..], id, v)
  }

  lemma {:induction false} WrittenAppend(s: seq<Segment>, t: seq<Segment>)
    ensures Written(s + t) == Written(s) + Written(t)
    decreases |s|
  {
    if s == [] {
      assert s + t == t;
    } else {
      assert (s + t)[0] == s[0] && (s + t)[1..] == s[1..] + t;
      WrittenAppend(s[1..], t);
    }
  }

  lemma {:induction false} WrittenTexts(v: string)
    ensures Written(Texts(v)) == v
    decreases |v|
  {
    if v != [] {
      assert Texts(v)[1..] == Texts(v[1..]);
      WrittenTexts(v[1..]);
      assert v == [v[0]] + v[1..];
    }
  }

  lemma SlotIsReplaced(rest: string, id: string, v: string)
    ensures Replace(Braced(id) + rest, Braced(id), v) == v + Replace(rest, Braced(id), v)
  {
    assert (Braced(id) + rest)[|Braced(id)|..] == rest;
  }

  lemma SegmentIsKept(x: Segment, rest: string, id: string, v: string)
    requires SegmentOk(x) && ValidId(id) && x != Slot(id)
    ensures Replace(Spelled(x) + rest, Braced(id), v) == Spelled(x) + Replace(rest, Braced(id), v)
  {
    hide ValidId;
    if x.Text? {
      ReplaceSkips([x.c], rest, id, v);
    } else {
      OtherSlotIsNoMatch(id, x.id, rest);
      var tail := x.id + ['}'];
      assert Braced(x.id) == ['{'] + tail;
      assert (Braced(x.id) + rest)[1..] == tail + rest;
      forall i | 0 <= i < |x.id| ensures x.id[i] != '{' { IdHasNoBraces(x.id, i); }
      ReplaceSkips(tail, rest, id, v);
      assert ['{'] + (tail + Replace(rest, Braced(id), v)) == Braced(x.id) + Replace(rest, Braced(id), v);
    }
  }

  /** Replacing in the text is substituting in the segments. */
  lemma {:induction false} ReplaceIsSubstitute(s: seq<Segment>, id: string, v: string)
    requires SegmentsOk(s) && ValidId(id)
    ensures Replace(Written(s), Braced(id), v) == Written(Substitute(s, id, v))
    decreases |s|
  {
    hide ValidId;
    hide Replace;
    if s == [] {
      NothingToReplace(id, v);
    } else {
      var rest := Written(s[1..]);
      ReplaceIsSubstitute(s[1..], id, v);
      if s[0] == Slot(id) {
        SlotIsReplaced(rest, id, v);
        WrittenTexts(v);
        WrittenAppend(Texts(v), Substitute(s[1..], id, v));
      } else {
        SegmentIsKept(s[0], rest, id, v);
        WrittenAppend([s[0]], Substitute(s[1..], id, v));
        assert [s[0]][1..] == [];
      }
    }
  }

  lemma NothingToReplace(id: string, v: string)
    ensures Replace([], Braced(id), v) == []
  {}

  // --------------------------------------------------------------- rendering

  function Filling(x: Segment, selected: map<string, string>): string
    requires x.Slot? ==> x.id in selected
  {
    match x
    case Text(c) => [c]
    case Slot(id) => selected[id]
  }

  /** Every slot filled at once. */
  function Fill(s: seq<Segment>, selected: map<string, string>): string
    requires forall id :: id in Placeholders(s) ==> id in selected
  {
    if s == [] then []
    else
      PlaceholdersSplit(s);
      Filling(s[0], selected) + Fill(s[1..], selected)
  }

  lemma PlaceholdersSplit(s: seq<Segment>)
    requires s != []
    ensures forall id :: id in Placeholders(s) <==> id in Placeholders(s[1..]) || s[0] == Slot(id)
  {}

  /** One placeholder after another, in the whole text. */
  function ReplaceEach(text: string, ids: seq<string>, selected: map<string, string>): Option<string>
    decreases |ids|
  {
    if ids == [] then Some(text)
    else if ids[0] !in selected then None
    else ReplaceEach(Replace(text, Braced(ids[0]), selected[ids[0]]), ids[1..], selected)
  }

  function Render(pattern: string, selected: map<string, string>): Option<string> {
    var s := Parse(pattern);
    if s.None? then None else ReplaceEach(pattern, Placeholders(s.value), selected)
  }

  /** The rendering loop. */
  method RenderPattern(pattern: string, selected: map<string, string>) returns (r: Option<string>)
    ensures r == Render(pattern, selected)
  {
    var ids := ReadPlaceholders(pattern);
    if ids.None? {
      return None;
    }
    var rendered, i := pattern, 0;
    while i < |ids.value|
      invariant i <= |ids.value|
      invariant ReplaceEach(pattern, ids.value, selected) == ReplaceEach(rendered, ids.value[i..], selected)
    {
      if ids.value[i] !in selected {
        return None;
      }
      rendered := Replace(rendered, Braced(ids.value[i]), selected[ids.value[i]]);
      assert ids.value[i..][1..] == ids.value[i + 1..];
      i := i + 1;
    }
    r := Some(rendered);
  }

  predicate IsComponentChar(c: char) { IsAlpha(c) || c == '-' || c == '\'' }

  predicate ValidComponent(v: string) {
    && 1 <= |v| <= 16
    && (forall i :: 0 <= i < |v| ==> IsComponentChar(v[i]))
    && exists i :: 0 <= i < |v| && IsAlpha(v[i])
  }

  /** The selection offers a valid component for every slot. */
  predicate Covers(selected: map<string, string>, s: seq<Segment>) {
    forall id :: id in Placeholders(s) ==> id in selected && ValidComponent(selected[id])
  }

  lemma {:induction false} SubstituteKeeps(s: seq<Segment>, id: string, v: string, selected: map<string, string>)
    requires SegmentsOk(s) && ValidComponent(v) && Covers(selected, s) && id in selected && selected[id] == v
    ensures SegmentsOk(Substitute(s, id, v))
    ensures forall other :: other in Placeholders(Substitute(s, id, v)) <==> other in Placeholders(s) && other != id
    ensures Covers(selected, Substitute(s, id, v))
    ensures Fill(Substitute(s, id, v), selected) == Fill(s, selected)
    decreases |s|
  {
    hide ValidComponent;
    hide ValidId;
    if s != [] {
      PlaceholdersSplit(s);
      assert SegmentOk(s[0]);
      SubstituteKeeps(s[1..], id, v, selected);
      var head, tail := if s[0] == Slot(id) then Texts(v) else [s[0]], Substitute(s[1..], id, v);
      PlaceholdersAppend(head, tail);
      if s[0] == Slot(id) {
        TextsAreText(v, selected);
      } else {
        assert [s[0]][1..] == [];
      }
      FillAppend(head, tail, selected);
    }
  }

  lemma TextsAreText(v: string, selected: map<string, string>)
    requires ValidComponent(v)
    ensures SegmentsOk(Texts(v)) && Placeholders(Texts(v)) == [] && Fill(Texts(v), selected) == v
  {
    NoSlotsInText(v);
    FillTexts(v, selected);
  }

  lemma {:induction false} NoSlotsInText(v: string)
    ensures Placeholders(Texts(v)) == []
    decreases |v|
  {
    if v != [] {
      assert Texts(v)[1..] == Texts(v[1..]);
      NoSlotsInText(v[1..]);
    }
  }

  lemma {:induction false} FillTexts(v: string, selected: map<string, string>)
    requires Placeholders(Texts(v)) == []
    ensures Fill(Texts(v), selected) == v
    decreases |v|
  {
    if v != [] {
      assert Texts(v)[1..] == Texts(v[1..]);
      NoSlotsInText(v[1..]);
      FillTexts(v[1..], selected);
      assert v == [v[0]] + v[1..];
    }
  }

  lemma Reassociate(a: string, b: string, c: string)
    ensures (a + b) + c == a + (b + c)
  {}

  lemma {:induction false} FillAppend(s: seq<Segment>, t: seq<Segment>, selected: map<string, string>)
    requires forall id :: id in Placeholders(s) || id in Placeholders(t) ==> id in selected
    ensures forall id :: id in Placeholders(s + t) <==> id in Placeholders(s) || id in Placeholders(t)
    ensures Fill(s + t, selected) == Fill(s, selected) + Fill(t, selected)
    decreases |s|
  {
    hide Filling;
    PlaceholdersAppend(s, t);
    if s == [] {
      assert s + t == t;
    } else {
      assert (s + t)[0] == s[0] && (s + t)[1..] == s[1..] + t;
      PlaceholdersSplit(s);
      hide Placeholders;
      FillAppend(s[1..], t, selected);
      Reassociate(Filling(s[0], selected), Fill(s[1..], selected), Fill(t, selected));
    }
  }

  lemma {:induction false} WithoutSlotsWrittenIsFilled(s: seq<Segment>, selected: map<string, string>)
    requires Placeholders(s) == []
    ensures Written(s) == Fill(s, selected)
    decreases |s|
  {
    if s != [] {
      PlaceholdersSplit(s);
      WithoutSlotsWrittenIsFilled(s[1..], selected);
    }
  }

  lemma {:induction false} SlotsAreIds(s: seq<Segment>, id: string)
    requires SegmentsOk(s) && id in Placeholders(s)
    ensures ValidId(id)
    decreases |s|
  {
    PlaceholdersSplit(s);
    assert SegmentOk(s[0]);
    if s[0] != Slot(id) {
      SlotsAreIds(s[1..], id);
    }
  }

  lemma SomethingIsInIt(ids: seq<string>)
    requires ids != []
    ensures exists id :: id in ids
  {
    assert ids[0] in ids;
  }

  lemma {:induction false} ReplacingEachFills(s: seq<Segment>, ids: seq<string>, selected: map<string, string>)
    requires SegmentsOk(s) && Covers(selected, s)
    requires forall id :: id in Placeholders(s) ==> id in ids
    requires forall id :: id in ids ==> ValidId(id) && id in selected && ValidComponent(selected[id])
    ensures ReplaceEach(Written(s), ids, selected) == Some(Fill(s, selected))
    decreases |ids|
  {
    hide ValidComponent;
    hide ValidId;
    if ids == [] {
      if Placeholders(s) != [] {
        SomethingIsInIt(Placeholders(s));
        assert false;
      }
      WithoutSlotsWrittenIsFilled(s, selected);
    } else {
      var id := ids[0];
      assert id in ids;
      ReplaceIsSubstitute(s, id, selected[id]);
      SubstituteKeeps(s, id, selected[id], selected);
      hide Substitute;
      hide Replace;
      ReplacingEachFills(Substitute(s, id, selected[id]), ids[1..], selected);
    }
  }

  /** Replacing the placeholders one after another, in text already partly
      replaced, is filling every slot in one pass. */
  lemma RenderIsFill(pattern: string, selected: map<string, string>)
    requires Parse(pattern).Some? && Covers(selected, Parse(pattern).value)
    ensures Render(pattern, selected) == Some(Fill(Parse(pattern).value, selected))
  {
    var s := Parse(pattern).value;
    ParsedSpellsPattern(pattern, 0);
    assert pattern[0..] == pattern;
    forall id | id in Placeholders(s) ensures ValidId(id) {
      SlotsAreIds(s, id);
    }
    hide ValidId;
    hide ValidComponent;
    hide Written;
    ReplacingEachFills(s, Placeholders(s), selected);
  }
}
