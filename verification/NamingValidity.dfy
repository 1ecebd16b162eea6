/**
  Valid names.  Whether a filled pattern is a valid name depends on its literal
  spaces alone, and its length only grows with its components; so checking the
  shortest and the longest filling settles every other one.
 */
module NamingValidity {
  import opened NamingText

  predicate NoDoubleSpace(s: string) {
    forall i :: 0 <= i < |s| - 1 ==> !(s[i] == ' ' && s[i + 1] == ' ')
  }

  predicate ValidName(s: string) {
    && s != [] && s[0] != ' ' && s[|s| - 1] != ' ' && NoDoubleSpace(s)
    && AllNameChars(s)
  }

  predicate NoDoubleGap(s: seq<Segment>) {
    forall i :: 0 <= i < |s| - 1 ==> !(s[i] == Text(' ') && s[i + 1] == Text(' '))
  }

  /** The pattern neither starts nor ends with a space, nor has two in a row. */
  predicate WellSpaced(s: seq<Segment>) {
    s != [] && s[0] != Text(' ') && s[|s| - 1] != Text(' ') && NoDoubleGap(s)
  }

  lemma FillingShape(x: Segment, selected: map<string, string>)
    requires SegmentOk(x) && (x.Slot? ==> x.id in selected && ValidComponent(selected[x.id]))
    ensures var h := Filling(x, selected);
            && h != [] && NoDoubleSpace(h) && (forall i :: 0 <= i < |h| ==> IsNameChar(h[i]))
            && (h[0] == ' ' <==> x == Text(' ')) && (h[|h| - 1] == ' ' <==> x == Text(' '))
  {}

  lemma JoinedSpaces(h: string, t: string)
    requires h != [] && t != []
    ensures NoDoubleSpace(h + t) <==> NoDoubleSpace(h) && NoDoubleSpace(t) && !(h[|h| - 1] == ' ' && t[0] == ' ')
  {
    var s := h + t;
    assert forall i :: 0 <= i < |h| ==> s[i] == h[i];
    assert forall i :: 0 <= i < |t| ==> s[|h| + i] == t[i];
    if NoDoubleSpace(s) {
      forall i | 0 <= i < |h| - 1 ensures !(h[i] == ' ' && h[i + 1] == ' ') {
        assert !(s[i] == ' ' && s[i + 1] == ' ');
      }
      forall i | 0 <= i < |t| - 1 ensures !(t[i] == ' ' && t[i + 1] == ' ') {
        assert !(s[|h| + i] == ' ' && s[|h| + i + 1] == ' ');
      }
      assert !(s[|h| - 1] == ' ' && s[|h| - 1 + 1] == ' ');
    }
    if NoDoubleSpace(h) && NoDoubleSpace(t) && !(h[|h| - 1] == ' ' && t[0] == ' ') {
      forall i | 0 <= i < |s| - 1 ensures !(s[i] == ' ' && s[i + 1] == ' ') {
        if i >= |h| {
          assert s[i] == t[i - |h|] && s[i + 1] == t[i - |h| + 1];
        }
      }
    }
  }

  lemma GapsBehindTheHead(s: seq<Segment>)
    requires |s| >= 2
    ensures NoDoubleGap(s) <==> NoDoubleGap(s[1..]) && !(s[0] == Text(' ') && s[1] == Text(' '))
  {
    if NoDoubleGap(s) {
      forall i | 0 <= i < |s[1..]| - 1 ensures !(s[1..][i] == Text(' ') && s[1..][i + 1] == Text(' ')) {
        assert !(s[i + 1] == Text(' ') && s[i + 1 + 1] == Text(' '));
      }
      assert !(s[0] == Text(' ') && s[0 + 1] == Text(' '));
    }
    if NoDoubleGap(s[1..]) && !(s[0] == Text(' ') && s[1] == Text(' ')) {
      forall i | 0 <= i < |s| - 1 ensures !(s[i] == Text(' ') && s[i + 1] == Text(' ')) {
        if i > 0 {
          assert s[i] == s[1..][i - 1] && s[i + 1] == s[1..][i - 1 + 1];
        }
      }
    }
  }

  predicate AllNameChars(s: string) {
    forall i :: 0 <= i < |s| ==> IsNameChar(s[i])
  }

  /** First and last character, and the alphabet. */
  predicate Edges(s: string, first: bool, last: bool) {
    s != [] && (s[0] == ' ' <==> first) && (s[|s| - 1] == ' ' <==> last) && AllNameChars(s)
  }

  lemma JoinedEdges(h: string, t: string, a: bool, b: bool, c: bool, d: bool)
    requires Edges(h, a, b) && Edges(t, c, d)
    ensures Edges(h + t, a, d)
  {
    hide IsNameChar;
  }

  lemma {:induction false} FilledEdges(s: seq<Segment>, selected: map<string, string>)
    requires SegmentsOk(s) && Covers(selected, s) && s != []
    ensures Edges(Fill(s, selected), s[0] == Text(' '), s[|s| - 1] == Text(' '))
    decreases |s|
  {
    hide ValidComponent;
    hide ValidId;
    PlaceholdersSplit(s);
    hide Placeholders;
    assert SegmentOk(s[0]);
    FillingShape(s[0], selected);
    var h, x := Filling(s[0], selected), s[0] == Text(' ');
    assert Edges(h, x, x);
    hide Filling;
    hide Edges;
    if |s| == 1 {
      assert s[1..] == [] && h + [] == h;
    } else {
      FilledEdges(s[1..], selected);
      JoinedEdges(h, Fill(s[1..], selected), x, x, s[1] == Text(' '), s[|s| - 1] == Text(' '));
    }
  }

  lemma {:induction false} FilledGaps(s: seq<Segment>, selected: map<string, string>)
    requires SegmentsOk(s) && Covers(selected, s) && s != []
    ensures NoDoubleSpace(Fill(s, selected)) <==> NoDoubleGap(s)
    decreases |s|
  {
    hide ValidComponent;
    hide ValidId;
    PlaceholdersSplit(s);
    hide Placeholders;
    assert SegmentOk(s[0]);
    FillingShape(s[0], selected);
    var h := Filling(s[0], selected);
    hide Filling;
    hide NoDoubleSpace;
    hide NoDoubleGap;
    if |s| == 1 {
      assert s[1..] == [] && h + [] == h;
      OneSegmentHasNoGap(s);
    } else {
      FilledGaps(s[1..], selected);
      FilledEdges(s[1..], selected);
      JoinedSpaces(h, Fill(s[1..], selected));
      GapsBehindTheHead(s);
    }
  }

  lemma OneSegmentHasNoGap(s: seq<Segment>)
    requires |s| == 1
    ensures NoDoubleGap(s)
  {}

  /** A filling is valid exactly when its pattern is well spaced: the choice of
      components does not matter. */
  lemma FilledIsValidIff(s: seq<Segment>, selected: map<string, string>)
    requires SegmentsOk(s) && Covers(selected, s)
    ensures ValidName(Fill(s, selected)) <==> WellSpaced(s)
  {
    if s != [] {
      FilledEdges(s, selected);
      FilledGaps(s, selected);
    }
  }

  /** Longer components never make a shorter name. */
  lemma {:induction false} FilledLengthIsMonotone(s: seq<Segment>, a: map<string, string>, b: map<string, string>)
    requires forall id :: id in Placeholders(s) ==> id in a && id in b && |a[id]| <= |b[id]|
    ensures |Fill(s, a)| <= |Fill(s, b)|
    decreases |s|
  {
    if s != [] {
      PlaceholdersSplit(s);
      FilledLengthIsMonotone(s[1..], a, b);
    }
  }
}
