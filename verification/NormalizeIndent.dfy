/**
 * The indentation normaliser: lines vote for tabs or spaces, and the lines of the losing style are
 * rewritten. Text is a sequence of UTF-16 units, as in JavaScript. Which lines are protected
 * (inside template literals, strings or comments) is a parameter.
 */
module NormalizeIndent {
  import opened Bytes
  import opened Utf16

  type Text = seq<unit>

  const TAB: unit := 0x09
  const LF: unit := 0x0A
  const CR: unit := 0x0D
  const SPACE: unit := 0x20

  datatype Style = Tabs | Spaces

  datatype Normalised = Normalised(text: Text, changed: nat, style: Style, width: nat)

  // ---- Lines ----

  function Split(text: Text): (lines: seq<Text>)
    ensures |lines| > 0
    ensures forall i :: 0 <= i < |lines| ==> LF !in lines[i]
  {
    if text == [] then [[]]
    else
      var rest := Split(text[1..]);
      if text[0] == LF then [[]] + rest else [[text[0]] + rest[0]] + rest[1..]
  }

  function Join(lines: seq<Text>): Text
    requires |lines| > 0
  {
    if |lines| == 1 then lines[0] else lines[0] + [LF] + Join(lines[1..])
  }

  /** Joining what was split gives the text back. */
  lemma {:induction false} JoinOfSplit(text: Text)
    ensures Join(Split(text)) == text
  {
    if text != [] {
      JoinOfSplit(text[1..]);
      var rest := Split(text[1..]);
      assert text == [text[0]] + text[1..];
      if text[0] == LF {
        assert ([[]] + rest)[1..] == rest;
      } else if |rest| > 1 {
        assert ([[text[0]] + rest[0]] + rest[1..])[1..] == rest[1..];
      }
    }
  }

  lemma {:induction false} SplitFirst(line: Text, tail: Text)
    requires LF !in line
    ensures Split(line + [LF] + tail) == [line] + Split(tail)
    decreases |line|
  {
    var text := line + [LF] + tail;
    if line == [] {
      assert text[1..] == tail;
    } else {
      SplitFirst(line[1..], tail);
      assert text[1..] == line[1..] + [LF] + tail;
      assert [line[0]] + line[1..] == line;
    }
  }

  lemma {:induction false} SplitLast(line: Text)
    requires LF !in line
    ensures Split(line) == [line]
    decreases |line|
  {
    if line != [] {
      SplitLast(line[1..]);
      assert [line[0]] + line[1..] == line;
    }
  }

  /** Splitting what was joined gives the lines back. */
  lemma {:induction false} SplitOfJoin(lines: seq<Text>)
    requires |lines| > 0 && forall i :: 0 <= i < |lines| ==> LF !in lines[i]
    ensures Split(Join(lines)) == lines
    decreases |lines|
  {
    if |lines| == 1 {
      SplitLast(lines[0]);
    } else {
      SplitFirst(lines[0], Join(lines[1..]));
      SplitOfJoin(lines[1..]);
    }
  }

  // ---- What a line is ----

  predicate IsIndent(u: unit) {
    u == TAB || u == SPACE
  }

  /** `\s` of a JavaScript regular expression. */
  predicate IsWhite(u: unit) {
    || 0x09 <= u <= 0x0D || u == 0x20 || u == 0xA0 || u == 0x1680 || 0x2000 <= u <= 0x200A
    || u == 0x2028 || u == 0x2029 || u == 0x202F || u == 0x205F || u == 0x3000 || u == 0xFEFF
  }

  /** What `.` does not match. */
  predicate EndsLine(u: unit) {
    u == LF || u == CR || u == 0x2028 || u == 0x2029
  }

  function IndentLength(line: Text): (n: nat)
    ensures n <= |line| && (forall i :: 0 <= i < n ==> IsIndent(line[i])) && (n < |line| ==> !IsIndent(line[n]))
  {
    if line != [] && IsIndent(line[0]) then 1 + IndentLength(line[1..]) else 0
  }

  function Indent(line: Text): Text {
    line[..IndentLength(line)]
  }

  function Content(line: Text): Text {
    line[IndentLength(line)..]
  }

  lemma {:induction false} IndentOfParts(indent: Text, content: Text)
    requires forall i :: 0 <= i < |indent| ==> IsIndent(indent[i])
    requires content == [] || !IsIndent(content[0])
    ensures Indent(indent + content) == indent && Content(indent + content) == content
  {
    var line := indent + content;
    assert forall i :: 0 <= i < |indent| ==> line[i] == indent[i];
    assert content != [] ==> line[|indent|] == content[0];
    assert IndentLength(line) == |indent|;
  }

  /** The line is indented and not blank: it has a vote. */
  predicate Votes(line: Text) {
    Indent(line) != [] && Content(line) != [] && !IsWhite(Content(line)[0])
  }

  /** The line may be rewritten: it votes, and `.` matches the rest of it. */
  predicate Rewritable(line: Text) {
    Votes(line) && forall i :: 0 <= i < |Content(line)| ==> !EndsLine(Content(line)[i])
  }

  predicate TabLine(lines: seq<Text>, safe: nat -> bool, i: nat)
    requires i < |lines|
  {
    !safe(i) && Votes(lines[i]) && TAB in Indent(lines[i])
  }

  predicate SpaceLine(lines: seq<Text>, safe: nat -> bool, i: nat)
    requires i < |lines|
  {
    !safe(i) && Votes(lines[i]) && TAB !in Indent(lines[i])
  }

  // ---- The vote ----

  /** Tab-indented lines among the first `n`; `safe(i)`: line `i` is protected. */
  function TabLines(lines: seq<Text>, safe: nat -> bool, n: nat): nat
    requires n <= |lines|
  {
    if n == 0 then 0 else TabLines(lines, safe, n - 1) + if TabLine(lines, safe, n - 1) then 1 else 0
  }

  function SpaceLines(lines: seq<Text>, safe: nat -> bool, n: nat): nat
    requires n <= |lines|
  {
    if n == 0 then 0 else SpaceLines(lines, safe, n - 1) + if SpaceLine(lines, safe, n - 1) then 1 else 0
  }

  /** Some space-indented line is not indented by a multiple of four. */
  predicate HasNarrowIndent(lines: seq<Text>, safe: nat -> bool) {
    exists i: nat :: i < |lines| && SpaceLine(lines, safe, i) && |Indent(lines[i])| % 4 != 0
  }

  function WidthOf(lines: seq<Text>, safe: nat -> bool): (width: nat)
    ensures width == 2 || width == 4
  {
    if HasNarrowIndent(lines, safe) then 2 else 4
  }

  function StyleOf(lines: seq<Text>, safe: nat -> bool): Style {
    if TabLines(lines, safe, |lines|) >= SpaceLines(lines, safe, |lines|) then Tabs else Spaces
  }

  predicate Mixed(lines: seq<Text>, safe: nat -> bool) {
    TabLines(lines, safe, |lines|) > 0 && SpaceLines(lines, safe, |lines|) > 0
  }

  // ---- The rewriting ----

  function Repeat(u: unit, n: nat): (r: Text)
    ensures |r| == n && forall i :: 0 <= i < n ==> r[i] == u
  {
    seq(n, _ => u)
  }

  /** The column an indentation reaches with tab stops every `width` columns. */
  function Column(indent: Text, width: nat): nat
    requires width > 0
  {
    if indent == [] then 0
    else
      var before := Column(indent[..|indent| - 1], width);
      if indent[|indent| - 1] == TAB then (before / width + 1) * width else before + 1
  }

  /** As many tabs as fit, then spaces. */
  function TabIndent(column: nat, width: nat): Text
    requires width > 0
  {
    Repeat(TAB, column / width) + Repeat(SPACE, column % width)
  }

  /** Every tab replaced by `width` spaces. */
  function SpaceIndent(indent: Text, width: nat): (r: Text)
    ensures forall i :: 0 <= i < |r| ==> r[i] != TAB
    ensures (forall i :: 0 <= i < |indent| ==> IsIndent(indent[i])) ==> forall i :: 0 <= i < |r| ==> r[i] == SPACE
    ensures width > 0 ==> |r| >= |indent|
  {
    if indent == [] then [] else (if indent[0] == TAB then Repeat(SPACE, width) else [indent[0]]) + SpaceIndent(indent[1..], width)
  }

  function RewriteLine(line: Text, style: Style, width: nat): Text
    requires width > 0
  {
    if !Rewritable(line) then line
    else if style == Tabs then if SPACE in Indent(line) then TabIndent(Column(Indent(line), width), width) + Content(line) else line
    else if TAB in Indent(line) then SpaceIndent(Indent(line), width) + Content(line) else line
  }

  /** The rewritten lines. */
  function Rewrite(lines: seq<Text>, safe: nat -> bool, style: Style, width: nat): (out: seq<Text>)
    requires width > 0
    ensures |out| == |lines|
    ensures forall i: nat :: i < |lines| ==> out[i] == if safe(i) then lines[i] else RewriteLine(lines[i], style, width)
  {
    seq(|lines|, i requires 0 <= i < |lines| => if safe(i) then lines[i] else RewriteLine(lines[i], style, width))
  }

  /** How many of the first `n` lines differ. */
  function Differences(a: seq<Text>, b: seq<Text>, n: nat): nat
    requires n <= |a| == |b|
  {
    if n == 0 then 0 else Differences(a, b, n - 1) + if a[n - 1] != b[n - 1] then 1 else 0
  }

  function Normalise(text: Text, safe: nat -> bool): Option<Normalised> {
    var lines := Split(text);
    if !Mixed(lines, safe) then None
    else
      var style, width := StyleOf(lines, safe), WidthOf(lines, safe);
      var out := Rewrite(lines, safe, style, width);
      Some(Normalised(Join(out), Differences(lines, out, |lines|), style, width))
  }

  // ---- What counts, and what comes out ----

  /** A line votes when `^([ \t]+)\S` matches it, with an indentation of `k` units. */
  predicate Matches(line: Text, k: nat) {
    0 < k < |line| && (forall i :: 0 <= i < k ==> line[i] == TAB || line[i] == SPACE) && !IsWhite(line[k])
  }

  lemma VotesIff(line: Text)
    ensures Votes(line) <==> exists k: nat :: Matches(line, k)
    ensures forall k: nat :: Matches(line, k) ==> Indent(line) == line[..k] && Content(line) == line[k..]
  {
    forall k: nat | Matches(line, k) ensures Votes(line) && IndentLength(line) == k {}
    if Votes(line) { assert Matches(line, IndentLength(line)); }
  }

  /** The tab-indented and the space-indented lines that are not protected. */
  ghost function TabSet(lines: seq<Text>, safe: nat -> bool, n: nat): set<nat>
    requires n <= |lines|
  {
    set i: nat | i < n && !safe(i) && Votes(lines[i]) && TAB in Indent(lines[i])
  }

  ghost function SpaceSet(lines: seq<Text>, safe: nat -> bool, n: nat): set<nat>
    requires n <= |lines|
  {
    set i: nat | i < n && !safe(i) && Votes(lines[i]) && TAB !in Indent(lines[i])
  }

  lemma OneMoreLine(lines: seq<Text>, safe: nat -> bool, n: nat)
    requires n < |lines|
    ensures TabSet(lines, safe, n + 1) == TabSet(lines, safe, n) + (if TabLine(lines, safe, n) then {n} else {})
    ensures SpaceSet(lines, safe, n + 1) == SpaceSet(lines, safe, n) + (if SpaceLine(lines, safe, n) then {n} else {})
    ensures n !in TabSet(lines, safe, n) && n !in SpaceSet(lines, safe, n)
  {
    hide Votes, Indent;
  }

  lemma {:induction false} TabsAreCounted(lines: seq<Text>, safe: nat -> bool, n: nat)
    requires n <= |lines|
    ensures TabLines(lines, safe, n) == |TabSet(lines, safe, n)|
  {
    NoneYet(lines, safe);
    hide TabSet, SpaceSet, TabLine, SpaceLine;
    if n > 0 {
      TabsAreCounted(lines, safe, n - 1);
      OneMoreLine(lines, safe, n - 1);
      OneMoreIn(TabSet(lines, safe, n - 1), n - 1, TabLine(lines, safe, n - 1));
    }
  }

  lemma {:induction false} SpacesAreCounted(lines: seq<Text>, safe: nat -> bool, n: nat)
    requires n <= |lines|
    ensures SpaceLines(lines, safe, n) == |SpaceSet(lines, safe, n)|
  {
    NoneYet(lines, safe);
    hide TabSet, SpaceSet, TabLine, SpaceLine;
    if n > 0 {
      SpacesAreCounted(lines, safe, n - 1);
      OneMoreLine(lines, safe, n - 1);
      OneMoreIn(SpaceSet(lines, safe, n - 1), n - 1, SpaceLine(lines, safe, n - 1));
    }
  }

  lemma NoneYet(lines: seq<Text>, safe: nat -> bool)
    ensures TabSet(lines, safe, 0) == {} && SpaceSet(lines, safe, 0) == {}
  {
  }

  lemma OneMoreIn(s: set<nat>, n: nat, more: bool)
    requires n !in s
    ensures |s + (if more then {n} else {})| == |s| + if more then 1 else 0
  {
    assert s + {} == s;
  }

  /**
   * A file is left alone unless it mixes both styles; otherwise the style is tabs exactly when tab-indented lines are
   * no fewer, and the width is four exactly when every space-indented line is indented by a multiple of four.
   */
  lemma StyleIsMajority(text: Text, safe: nat -> bool)
    ensures var lines, r := Split(text), Normalise(text, safe);
            var tabs, spaces := TabSet(lines, safe, |lines|), SpaceSet(lines, safe, |lines|);
            && (r.None? <==> tabs == {} || spaces == {})
            && (r.Some? ==>
                  && (r.value.style == Tabs <==> |tabs| >= |spaces|)
                  && (r.value.width == 4 <==> forall i :: i in spaces ==> |Indent(lines[i])| % 4 == 0)
                  && (r.value.width == 4 || r.value.width == 2))
  {
    var lines := Split(text);
    TabsAreCounted(lines, safe, |lines|);
    SpacesAreCounted(lines, safe, |lines|);
    hide Split, Votes, TabLines, SpaceLines, Rewrite, Join, Differences;
    if Normalise(text, safe).Some? { NarrowIff(lines, safe); }
  }

  lemma NarrowIff(lines: seq<Text>, safe: nat -> bool)
    ensures HasNarrowIndent(lines, safe) <==> !(forall i :: i in SpaceSet(lines, safe, |lines|) ==> |Indent(lines[i])| % 4 == 0)
  {
    if i: nat :| i < |lines| && SpaceLine(lines, safe, i) && |Indent(lines[i])| % 4 != 0 {
      assert i in SpaceSet(lines, safe, |lines|);
    }
    if i :| i in SpaceSet(lines, safe, |lines|) && |Indent(lines[i])| % 4 != 0 {
      assert SpaceLine(lines, safe, i);
    }
  }

  /** The count is the number of lines that differ. */
  lemma {:induction false} DifferencesAreCounted(a: seq<Text>, b: seq<Text>, n: nat)
    requires n <= |a| == |b|
    ensures Differences(a, b, n) == |set i: nat | i < n && a[i] != b[i]|
  {
    if n > 0 {
      DifferencesAreCounted(a, b, n - 1);
      var s := set i: nat | i < n - 1 && a[i] != b[i];
      var t := set i: nat | i < n && a[i] != b[i];
      assert t == if a[n - 1] != b[n - 1] then s + {n - 1} else s;
    }
  }

  lemma ChangedIsCounted(text: Text, safe: nat -> bool)
    requires Normalise(text, safe).Some?
    ensures var r, lines := Normalise(text, safe).value, Split(text);
            var out := Rewrite(lines, safe, r.style, r.width);
            r.text == Join(out) && r.changed == |set i: nat | i < |lines| && lines[i] != out[i]|
  {
    var r, lines := Normalise(text, safe).value, Split(text);
    DifferencesAreCounted(lines, Rewrite(lines, safe, r.style, r.width), |lines|);
    hide Split, Join;
  }

  // ---- Columns ----

  lemma OneMore(a: nat, b: nat, width: nat)
    requires a > b
    ensures a * width >= b * width + width
  {
    assert (a - b - 1) * width >= 0;
    assert a * width == (a - b - 1) * width + b * width + width;
  }

  lemma Quotient(k: nat, r: nat, width: nat)
    requires r < width
    ensures (k * width + r) / width == k && (k * width + r) % width == r
  {
    var q, s := (k * width + r) / width, (k * width + r) % width;
    assert k * width + r == q * width + s;
    if q > k {
      OneMore(q, k, width);
    } else if q < k {
      OneMore(k, q, width);
    }
  }

  lemma {:induction false} ColumnOfTabs(k: nat, width: nat)
    requires width > 0
    ensures Column(Repeat(TAB, k), width) == k * width
  {
    if k > 0 {
      ColumnOfTabs(k - 1, width);
      assert Repeat(TAB, k)[..k - 1] == Repeat(TAB, k - 1);
      Quotient(k - 1, 0, width);
      assert k * width == (k - 1) * width + width;
    }
  }

  lemma {:induction false} ColumnAfterSpaces(indent: Text, r: nat, width: nat)
    requires width > 0
    ensures Column(indent + Repeat(SPACE, r), width) == Column(indent, width) + r
  {
    if r == 0 {
      assert indent + Repeat(SPACE, 0) == indent;
    } else {
      ColumnAfterSpaces(indent, r - 1, width);
      assert (indent + Repeat(SPACE, r))[..|indent| + r - 1] == indent + Repeat(SPACE, r - 1);
    }
  }

  lemma ColumnOfTabIndent(k: nat, r: nat, width: nat)
    requires width > 0
    ensures Column(Repeat(TAB, k) + Repeat(SPACE, r), width) == k * width + r
  {
    ColumnOfTabs(k, width);
    ColumnAfterSpaces(Repeat(TAB, k), r, width);
  }

  lemma {:induction false} ColumnReaches(indent: Text, width: nat)
    requires width > 0
    ensures Column(indent, width) >= |indent|
    ensures TAB in indent ==> Column(indent, width) >= width
    ensures TAB !in indent ==> Column(indent, width) == |indent|
  {
    if indent != [] {
      var before := Column(indent[..|indent| - 1], width);
      ColumnReaches(indent[..|indent| - 1], width);
      assert indent == indent[..|indent| - 1] + [indent[|indent| - 1]];
      NextStop(before, width);
    }
  }

  lemma NextStop(column: nat, width: nat)
    requires width > 0
    ensures column < (column / width + 1) * width <= column + width
    ensures (column / width + 1) * width >= width
    ensures (column / width + 1) * width == column + width <==> column % width == 0
  {
    assert column == column / width * width + column % width;
    assert (column / width + 1) * width == column / width * width + width;
    assert column / width * width >= 0;
  }

  lemma TabIndentHasTab(column: nat, width: nat)
    requires width > 0
    ensures TAB in TabIndent(column, width) <==> column >= width
    ensures forall i :: 0 <= i < |TabIndent(column, width)| ==> IsIndent(TabIndent(column, width)[i])
    ensures column > 0 ==> TabIndent(column, width) != []
  {
    var t := TabIndent(column, width);
    assert column == column / width * width + column % width;
    if column >= width {
      assert column / width >= 1;
      assert t[0] == TAB;
    } else {
      assert column / width == 0 && column % width == column;
    }
  }

  /** Rewritten in tabs, an indentation reaches the same column. */
  lemma TabIndentKeepsColumn(column: nat, width: nat)
    requires width > 0
    ensures Column(TabIndent(column, width), width) == column
  {
    ColumnOfTabIndent(column / width, column % width, width);
  }

  /** Every tab of the indentation starts at a tab stop. */
  ghost predicate Aligned(indent: Text, width: nat)
    requires width > 0
  {
    forall i :: 0 <= i < |indent| && indent[i] == TAB ==> Column(indent[..i], width) % width == 0
  }

  lemma AlignedSnoc(indent: Text, u: unit, width: nat)
    requires width > 0
    ensures Aligned(indent + [u], width) <==> Aligned(indent, width) && (u == TAB ==> Column(indent, width) % width == 0)
  {
    hide Column;
    assert (indent + [u])[..|indent|] == indent;
    assert forall i :: 0 <= i < |indent| ==> (indent + [u])[..i] == indent[..i] && (indent + [u])[i] == indent[i];
  }

  lemma {:induction false} SpaceIndentSnoc(indent: Text, u: unit, width: nat)
    ensures SpaceIndent(indent + [u], width) == SpaceIndent(indent, width) + if u == TAB then Repeat(SPACE, width) else [u]
  {
    if indent == [] {
      assert [u][1..] == [];
      assert SpaceIndent([u], width) == (if u == TAB then Repeat(SPACE, width) else [u]) + SpaceIndent([], width);
    } else {
      assert (indent + [u])[1..] == indent[1..] + [u];
      SpaceIndentSnoc(indent[1..], u, width);
    }
  }

  /** Where a tab leads from column `column`, and from `reached`, which is not left of it. */
  lemma SameColumn(reached: nat, column: nat, width: nat)
    requires width > 0 && reached >= column
    ensures reached + width >= (column / width + 1) * width
    ensures reached + width == (column / width + 1) * width <==> reached == column && column % width == 0
  {
    NextStop(column, width);
  }

  /** Rewritten in spaces, an indentation reaches at least its column, and exactly that if and only if its tabs are aligned. */
  lemma {:induction false} SpaceIndentKeepsColumnIff(indent: Text, width: nat)
    requires width > 0
    ensures |SpaceIndent(indent, width)| >= Column(indent, width)
    ensures |SpaceIndent(indent, width)| == Column(indent, width) <==> Aligned(indent, width)
  {
    if indent != [] {
      var init, u := indent[..|indent| - 1], indent[|indent| - 1];
      SpaceIndentKeepsColumnIff(init, width);
      assert indent == init + [u];
      SpaceIndentSnoc(init, u, width);
      AlignedSnoc(init, u, width);
      SameColumn(|SpaceIndent(init, width)|, Column(init, width), width);
      assert Column(indent, width) == if u == TAB then (Column(init, width) / width + 1) * width else Column(init, width) + 1;
      hide Aligned, SpaceIndent, Column;
    }
  }

  // ---- One line ----

  /** The indentation a line has afterwards. */
  function IndentAfter(line: Text, style: Style, width: nat): Text
    requires width > 0
  {
    if !Rewritable(line) then Indent(line)
    else if style == Tabs then if SPACE in Indent(line) then TabIndent(Column(Indent(line), width), width) else Indent(line)
    else SpaceIndent(Indent(line), width)
  }

  lemma {:induction false} SpaceIndentOfSpaces(indent: Text, width: nat)
    requires TAB !in indent
    ensures SpaceIndent(indent, width) == indent
  {
    if indent != [] { SpaceIndentOfSpaces(indent[1..], width); }
  }

  lemma IndentAfterIsIndent(line: Text, style: Style, width: nat)
    requires width > 0
    ensures forall i :: 0 <= i < |IndentAfter(line, style, width)| ==> IsIndent(IndentAfter(line, style, width)[i])
    ensures IndentAfter(line, style, width) == [] <==> Indent(line) == []
  {
    var indent := Indent(line);
    ColumnReaches(indent, width);
    TabIndentHasTab(Column(indent, width), width);
  }

  /**
   * Everything after the indentation stays, and so does whether the line votes and may be
   * rewritten; without a line feed before, there is none after.
   */
  lemma RewriteLineKeepsContent(line: Text, style: Style, width: nat)
    requires width > 0
    ensures var after := RewriteLine(line, style, width);
            && Content(after) == Content(line) && Indent(after) == IndentAfter(line, style, width)
            && (Votes(after) <==> Votes(line)) && (Rewritable(after) <==> Rewritable(line))
            && (LF !in line ==> LF !in after)
  {
    var after := RewriteLine(line, style, width);
    assert line == Indent(line) + Content(line);
    if Rewritable(line) {
      if TAB !in Indent(line) { SpaceIndentOfSpaces(Indent(line), width); }
      IndentAfterIsIndent(line, style, width);
      assert after == IndentAfter(line, style, width) + Content(line);
      IndentOfParts(IndentAfter(line, style, width), Content(line));
    }
  }

  /** How often a unit occurs. */
  function Occurrences(text: Text, u: unit): nat {
    multiset(text)[u]
  }

  lemma {:induction false} SpaceIndentLength(indent: Text, width: nat)
    requires forall i :: 0 <= i < |indent| ==> IsIndent(indent[i])
    ensures |SpaceIndent(indent, width)| == Occurrences(indent, SPACE) + width * Occurrences(indent, TAB)
  {
    if indent != [] {
      SpaceIndentLength(indent[1..], width);
      assert indent == [indent[0]] + indent[1..];
      assert width * (Occurrences(indent[1..], TAB) + 1) == width * Occurrences(indent[1..], TAB) + width;
    }
  }

  /** In the tab style: tabs, then fewer spaces than a tab is wide, up to the column the line had. */
  lemma TabForm(line: Text, width: nat) returns (a: nat, b: nat)
    requires width > 0 && Rewritable(line)
    ensures b < width && a * width + b == Column(Indent(line), width)
    ensures RewriteLine(line, Tabs, width) == Repeat(TAB, a) + Repeat(SPACE, b) + Content(line)
  {
    hide Column, Votes;
    var indent := Indent(line);
    a, b := Column(indent, width) / width, Column(indent, width) % width;
    assert line == indent + Content(line);
    if SPACE !in indent {
      TabsOnly(indent, width);
      assert Repeat(TAB, a) + Repeat(SPACE, b) == indent;
    }
  }

  lemma SpacesOnly(indent: Text, width: nat)
    requires width > 0 && forall i :: 0 <= i < |indent| ==> IsIndent(indent[i])
    ensures SpaceIndent(indent, width) == Repeat(SPACE, Occurrences(indent, SPACE) + width * Occurrences(indent, TAB))
    ensures TAB !in indent ==> SpaceIndent(indent, width) == indent
  {
    SpaceIndentLength(indent, width);
    hide Occurrences;
    if TAB !in indent { SpaceIndentOfSpaces(indent, width); }
  }

  /** In the space style: one space for each space, and `width` for each tab. */
  lemma SpaceForm(line: Text, width: nat)
    requires width > 0 && Rewritable(line)
    ensures RewriteLine(line, Spaces, width) ==
              Repeat(SPACE, Occurrences(Indent(line), SPACE) + width * Occurrences(Indent(line), TAB)) + Content(line)
  {
    assert line == Indent(line) + Content(line);
    SpacesOnly(Indent(line), width);
    hide Votes, Occurrences, Repeat, SpaceIndent, IndentLength;
  }

  /** A line is rewritten when `^([ \t]+)(\S.*)?$` matches it with its second group; any other stays as it is. */
  lemma RewritableIff(line: Text)
    ensures Rewritable(line) <==> exists k: nat :: Matches(line, k) && forall i :: k <= i < |line| ==> !EndsLine(line[i])
    ensures !Rewritable(line) ==> forall style, width: nat :: width > 0 ==> RewriteLine(line, style, width) == line
  {
    VotesIff(line);
    if Rewritable(line) {
      var k: nat :| Matches(line, k);
      assert forall i :: k <= i < |line| ==> line[i] == Content(line)[i - k];
    }
  }

  lemma TabsOnly(indent: Text, width: nat)
    requires width > 0 && SPACE !in indent && forall i :: 0 <= i < |indent| ==> IsIndent(indent[i])
    ensures indent == Repeat(TAB, Column(indent, width) / width) && Column(indent, width) % width == 0
  {
    assert indent == Repeat(TAB, |indent|);
    ColumnOfTabs(|indent|, width);
    Quotient(|indent|, 0, width);
  }

  /** A line rewritten in tabs is a fixpoint of every later pass in tabs whose width is not smaller than what is left over. */
  lemma TabLineIsFixed(line: Text, width: nat, later: nat)
    requires width > 0 && later > 0 && (width <= later || width == 2)
    requires later >= 2
    ensures var after := RewriteLine(line, Tabs, width); RewriteLine(after, Tabs, later) == after
  {
    var after := RewriteLine(line, Tabs, width);
    RewriteLineKeepsContent(line, Tabs, width);
    if Rewritable(line) && SPACE in Indent(line) {
      var column := Column(Indent(line), width);
      var k, r := column / width, column % width;
      assert Indent(after) == Repeat(TAB, k) + Repeat(SPACE, r);
      ColumnOfTabIndent(k, r, later);
      Quotient(k, r, later);
      assert TabIndent(Column(Indent(after), later), later) == Indent(after);
      assert after == Indent(after) + Content(after);
    }
  }

  lemma SpaceLineIsFixed(line: Text, width: nat, later: nat)
    requires width > 0 && later > 0
    ensures var after := RewriteLine(line, Spaces, width); RewriteLine(after, Spaces, later) == after
  {
    RewriteLineKeepsContent(line, Spaces, width);
  }

  // ---- A whole file ----

  /** After a pass a line still has the losing style exactly when it could not be rewritten, or was too narrow for a tab. */
  predicate Stubborn(line: Text, style: Style, width: nat) {
    && Votes(line)
    && if style == Tabs then TAB !in Indent(line) && (!Rewritable(line) || |Indent(line)| < width)
       else TAB in Indent(line) && !Rewritable(line)
  }

  lemma VoteAfter(line: Text, style: Style, width: nat)
    requires width > 0 && Votes(line)
    ensures (style == Tabs <==> TAB !in Indent(RewriteLine(line, style, width))) <==> Stubborn(line, style, width)
    ensures style == Tabs && TAB in Indent(line) ==> TAB in Indent(RewriteLine(line, style, width))
    ensures style == Spaces && TAB !in Indent(line) ==> TAB !in Indent(RewriteLine(line, style, width))
  {
    var indent := Indent(line);
    RewriteLineKeepsContent(line, style, width);
    ColumnReaches(indent, width);
    TabIndentHasTab(Column(indent, width), width);
    assert indent[0] == TAB || indent[0] == SPACE;
  }

  lemma {:induction false} CountsAfter(lines: seq<Text>, safe: nat -> bool, style: Style, width: nat, n: nat)
    requires width > 0 && n <= |lines|
    ensures var out := Rewrite(lines, safe, style, width);
            if style == Tabs then
              TabLines(out, safe, n) >= TabLines(lines, safe, n) && SpaceLines(out, safe, n) <= SpaceLines(lines, safe, n)
            else
              TabLines(out, safe, n) <= TabLines(lines, safe, n) && SpaceLines(out, safe, n) >= SpaceLines(lines, safe, n)
  {
    if n > 0 {
      CountsAfter(lines, safe, style, width, n - 1);
      RewriteLineKeepsContent(lines[n - 1], style, width);
      if Votes(lines[n - 1]) { VoteAfter(lines[n - 1], style, width); }
    }
  }

  lemma {:induction false} SpaceLinesPositive(lines: seq<Text>, safe: nat -> bool, n: nat)
    requires n <= |lines|
    ensures SpaceLines(lines, safe, n) > 0 <==> exists i: nat :: i < n && SpaceLine(lines, safe, i)
  {
    if n > 0 { SpaceLinesPositive(lines, safe, n - 1); }
  }

  lemma {:induction false} TabLinesPositive(lines: seq<Text>, safe: nat -> bool, n: nat)
    requires n <= |lines|
    ensures TabLines(lines, safe, n) > 0 <==> exists i: nat :: i < n && TabLine(lines, safe, i)
  {
    if n > 0 { TabLinesPositive(lines, safe, n - 1); }
  }

  /** A pass in tabs of width four leaves no narrow space indentation, so the next one finds the same width. */
  lemma WidthStays(lines: seq<Text>, safe: nat -> bool)
    ensures !HasNarrowIndent(lines, safe) ==> !HasNarrowIndent(Rewrite(lines, safe, Tabs, 4), safe)
  {
    var out := Rewrite(lines, safe, Tabs, 4);
    if !HasNarrowIndent(lines, safe) {
      forall i: nat | i < |out| && SpaceLine(out, safe, i)
        ensures |Indent(out[i])| % 4 == 0
      {
        RewriteLineKeepsContent(lines[i], Tabs, 4);
        VoteAfter(lines[i], Tabs, 4);
        assert SpaceLine(lines, safe, i);
        assert |Indent(lines[i])| % 4 == 0 && |Indent(lines[i])| > 0;
        assert !Rewritable(lines[i]);
      }
    }
  }

  /** A second vote on the rewritten lines finds no mix any more, or the same style, under which nothing is left to rewrite. */
  lemma SecondPassChangesNothing(lines: seq<Text>, safe: nat -> bool)
    requires Mixed(lines, safe)
    ensures var out := Rewrite(lines, safe, StyleOf(lines, safe), WidthOf(lines, safe));
            !Mixed(out, safe) || (StyleOf(out, safe) == StyleOf(lines, safe)
              && Rewrite(out, safe, StyleOf(out, safe), WidthOf(out, safe)) == out)
  {
    var style, width := StyleOf(lines, safe), WidthOf(lines, safe);
    var out := Rewrite(lines, safe, style, width);
    CountsAfter(lines, safe, style, width, |lines|);
    if Mixed(out, safe) {
      var later := WidthOf(out, safe);
      WidthStays(lines, safe);
      forall i: nat | i < |out| && !safe(i)
        ensures RewriteLine(out[i], style, later) == out[i]
      {
        if style == Tabs { TabLineIsFixed(lines[i], width, later); } else { SpaceLineIsFixed(lines[i], width, later); }
      }
    }
  }

  lemma RewriteHasNoLineFeeds(lines: seq<Text>, safe: nat -> bool, style: Style, width: nat)
    requires width > 0 && forall i :: 0 <= i < |lines| ==> LF !in lines[i]
    ensures forall i :: 0 <= i < |lines| ==> LF !in Rewrite(lines, safe, style, width)[i]
  {
    forall i: nat | i < |lines| ensures LF !in Rewrite(lines, safe, style, width)[i] {
      RewriteLineKeepsContent(lines[i], style, width);
    }
  }

  lemma {:induction false} NoDifferences(lines: seq<Text>, n: nat)
    requires n <= |lines|
    ensures Differences(lines, lines, n) == 0
  {
    if n > 0 { NoDifferences(lines, n - 1); }
  }

  lemma {:induction false} DifferencesFound(a: seq<Text>, b: seq<Text>, n: nat)
    requires n <= |a| == |b|
    ensures Differences(a, b, n) == 0 <==> a[..n] == b[..n]
  {
    if n > 0 {
      DifferencesFound(a, b, n - 1);
      assert a[..n] == a[..n - 1] + [a[n - 1]] && b[..n] == b[..n - 1] + [b[n - 1]];
      if a[..n] == b[..n] { assert a[..n][..n - 1] == b[..n][..n - 1] && a[..n][n - 1] == b[..n][n - 1]; }
    }
  }

  /** The lines of the result are the rewritten lines. */
  lemma LinesOfResult(text: Text, safe: nat -> bool)
    requires Normalise(text, safe).Some?
    ensures var r, lines := Normalise(text, safe).value, Split(text);
            Split(r.text) == Rewrite(lines, safe, r.style, r.width)
  {
    var r, lines := Normalise(text, safe).value, Split(text);
    RewriteHasNoLineFeeds(lines, safe, r.style, r.width);
    SplitOfJoin(Rewrite(lines, safe, r.style, r.width));
  }

  /** Normalising twice is normalising once, although the style and the width are voted on again. */
  lemma Idempotent(text: Text, safe: nat -> bool)
    ensures var once := Normalise(text, safe);
            once.Some? ==>
              var twice := Normalise(once.value.text, safe);
              twice.Some? ==> twice.value.text == once.value.text && twice.value.changed == 0
                              && twice.value.style == once.value.style
  {
    if Normalise(text, safe).Some? {
      var out := Split(Normalise(text, safe).value.text);
      LinesOfResult(text, safe);
      SecondPassChangesNothing(Split(text), safe);
      if Mixed(out, safe) { NoDifferences(out, |out|); }
    }
  }

  lemma LinesKeepContent(lines: seq<Text>, safe: nat -> bool, style: Style, width: nat)
    requires width > 0
    ensures var out := Rewrite(lines, safe, style, width);
            forall i: nat :: i < |lines| ==> Content(out[i]) == Content(lines[i])
                                             && (Indent(out[i]) == [] <==> Indent(lines[i]) == [])
  {
    forall i: nat | i < |lines|
      ensures var out := Rewrite(lines, safe, style, width);
              Content(out[i]) == Content(lines[i]) && (Indent(out[i]) == [] <==> Indent(lines[i]) == [])
    {
      RewriteLineKeepsContent(lines[i], style, width);
      IndentAfterIsIndent(lines[i], style, width);
    }
  }

  /** `changed` is zero exactly when the text is the same. */
  lemma ChangedIff(text: Text, safe: nat -> bool)
    requires Normalise(text, safe).Some?
    ensures Normalise(text, safe).value.changed == 0 <==> Normalise(text, safe).value.text == text
  {
    var r := Normalise(text, safe).value;
    var before, after := Split(text), Split(r.text);
    LinesOfResult(text, safe);
    JoinOfSplit(text);
    JoinOfSplit(r.text);
    DifferencesFound(before, after, |before|);
    assert before[..|before|] == before && after[..|before|] == after;
  }

  /** The number of lines, protected lines, and everything after each indentation stay. */
  lemma ContentPreserved(text: Text, safe: nat -> bool)
    requires Normalise(text, safe).Some?
    ensures var before, after := Split(text), Split(Normalise(text, safe).value.text);
            && |after| == |before|
            && (forall i: nat :: i < |before| && safe(i) ==> after[i] == before[i])
            && (forall i: nat :: i < |before| ==> Content(after[i]) == Content(before[i]))
            && (forall i: nat :: i < |before| ==> (Indent(after[i]) == [] <==> Indent(before[i]) == []))
  {
    var r := Normalise(text, safe).value;
    LinesOfResult(text, safe);
    LinesKeepContent(Split(text), safe, r.style, r.width);
    hide Split, Normalise, Content, Indent, RewriteLine;
  }

  lemma StubbornStay(lines: seq<Text>, safe: nat -> bool, style: Style, width: nat)
    requires width > 0
    ensures var out := Rewrite(lines, safe, style, width);
            forall i: nat :: i < |lines| ==>
              (!safe(i) && Stubborn(lines[i], style, width) <==>
               if style == Tabs then SpaceLine(out, safe, i) else TabLine(out, safe, i))
  {
    var out := Rewrite(lines, safe, style, width);
    forall i: nat | i < |lines|
      ensures !safe(i) && Stubborn(lines[i], style, width)
        <==> if style == Tabs then SpaceLine(out, safe, i) else TabLine(out, safe, i)
    {
      RewriteLineKeepsContent(lines[i], style, width);
      if Votes(lines[i]) { VoteAfter(lines[i], style, width); }
    }
  }

  lemma LinesStayMixedIff(lines: seq<Text>, safe: nat -> bool)
    requires Mixed(lines, safe)
    ensures var style, width := StyleOf(lines, safe), WidthOf(lines, safe);
            Mixed(Rewrite(lines, safe, style, width), safe) <==> exists i: nat :: i < |lines| && !safe(i)
                                                                                  && Stubborn(lines[i], style, width)
  {
    hide RewriteLine, Stubborn, SpaceLine, TabLine, SpaceLines, TabLines, WidthOf, StyleOf;
    var style, width := StyleOf(lines, safe), WidthOf(lines, safe);
    var out := Rewrite(lines, safe, style, width);
    CountsAfter(lines, safe, style, width, |lines|);
    StubbornStay(lines, safe, style, width);
    SpaceLinesPositive(out, safe, |out|);
    TabLinesPositive(out, safe, |out|);
  }

  /** A pass leaves the file mixed exactly when some unprotected line of the losing style is stubborn. */
  lemma StaysMixedIff(text: Text, safe: nat -> bool)
    requires Normalise(text, safe).Some?
    ensures var r, lines := Normalise(text, safe).value, Split(text);
            Mixed(Split(r.text), safe) <==> exists i: nat :: i < |lines| && !safe(i) && Stubborn(lines[i], r.style, r.width)
  {
    LinesOfResult(text, safe);
    LinesStayMixedIff(Split(text), safe);
    hide Split, Rewrite, Stubborn, Mixed, StyleOf, WidthOf, Join, Differences;
  }

  const CRLF_LINES: seq<Text> := [[TAB, 0x61, CR], [SPACE, SPACE, 0x62], [SPACE, SPACE, 0x63]]

  lemma CrlfLines()
    ensures forall i :: 0 <= i < 3 ==> Votes(CRLF_LINES[i]) && LF !in CRLF_LINES[i]
    ensures TAB in Indent(CRLF_LINES[0]) && TAB !in Indent(CRLF_LINES[1]) && TAB !in Indent(CRLF_LINES[2])
    ensures !Rewritable(CRLF_LINES[0])
  {
    IndentOfParts([TAB], [0x61, CR]);
    IndentOfParts([SPACE, SPACE], [0x62]);
    IndentOfParts([SPACE, SPACE], [0x63]);
    assert [TAB] + [0x61, CR] == CRLF_LINES[0] && [SPACE, SPACE] + [0x62] == CRLF_LINES[1]
      && [SPACE, SPACE] + [0x63] == CRLF_LINES[2];
    assert Content(CRLF_LINES[0])[1] == CR;
  }

  /** The text after `n` passes; one that is not mixed is left alone. */
  function Passes(text: Text, safe: nat -> bool, n: nat): Text {
    if n == 0 then text
    else
      var before := Passes(text, safe, n - 1);
      match Normalise(before, safe)
      case None => before
      case Some(r) => r.text
  }

  /** Passes after the first change nothing. */
  lemma {:induction false} OnePassIsEnough(text: Text, safe: nat -> bool, n: nat)
    requires n > 0
    ensures Passes(text, safe, n) == Passes(text, safe, 1)
  {
    assert Passes(text, safe, 0) == text;
    if n > 1 {
      OnePassIsEnough(text, safe, n - 1);
      Idempotent(text, safe);
      hide Normalise;
    }
  }

  /** A line that ends in CR LF votes but is never rewritten: this file stays mixed however often it is normalised. */
  lemma CrlfStaysMixed(safe: nat -> bool, n: nat)
    requires forall i :: 0 <= i < 3 ==> !safe(i)
    ensures Mixed(Split(Passes(Join(CRLF_LINES), safe, n)), safe)
  {
    CrlfAfterOnePass(safe);
    SplitOfJoin(CRLF_LINES);
    assert Passes(Join(CRLF_LINES), safe, 0) == Join(CRLF_LINES);
    hide Normalise, Mixed, Split, Join;
    if n > 0 { OnePassIsEnough(Join(CRLF_LINES), safe, n); }
  }

  lemma CrlfAfterOnePass(safe: nat -> bool)
    requires forall i :: 0 <= i < 3 ==> !safe(i)
    ensures var text := Join(CRLF_LINES);
            Normalise(text, safe).Some? && Mixed(Split(text), safe) && Mixed(Split(Normalise(text, safe).value.text), safe)
  {
    var lines := CRLF_LINES;
    CrlfLines();
    SplitOfJoin(lines);
    assert TabLine(lines, safe, 0) && SpaceLine(lines, safe, 1) && SpaceLine(lines, safe, 2);
    assert TabLines(lines, safe, 1) == 1 && SpaceLines(lines, safe, 1) == 0;
    assert TabLines(lines, safe, 2) == 1 && SpaceLines(lines, safe, 2) == 1;
    assert TabLines(lines, safe, 3) == 1 && SpaceLines(lines, safe, 3) == 2;
    assert Stubborn(lines[0], StyleOf(lines, safe), WidthOf(lines, safe));
    StaysMixedIff(Join(lines), safe);
  }

  /**
   * No rewritten line moves left, with tab stops at the file's width; it keeps its column exactly
   * when the style is tabs or its own tabs were aligned.
   */
  lemma LineKeepsColumnIff(line: Text, style: Style, width: nat)
    requires width > 0 && Rewritable(line)
    ensures var before, after := Column(Indent(line), width), Column(Indent(RewriteLine(line, style, width)), width);
            after >= before && (after == before <==> style == Tabs || Aligned(Indent(line), width))
  {
    var indent := Indent(line);
    RewriteLineKeepsContent(line, style, width);
    if style == Tabs {
      TabIndentKeepsColumn(Column(indent, width), width);
    } else {
      SpaceIndentKeepsColumnIff(indent, width);
      ColumnReaches(SpaceIndent(indent, width), width);
    }
  }

  /** A space and a tab, in a file indented by two spaces. */
  const MISALIGNED_LINES: seq<Text> := [[SPACE, TAB, 0x61], [SPACE, SPACE, 0x62], [SPACE, SPACE, 0x63]]

  lemma MisalignedParts()
    ensures forall i :: 0 <= i < 3 ==> Rewritable(MISALIGNED_LINES[i]) && LF !in MISALIGNED_LINES[i]
    ensures Indent(MISALIGNED_LINES[0]) == [SPACE, TAB] && Indent(MISALIGNED_LINES[1]) == Indent(MISALIGNED_LINES[2]) == [SPACE, SPACE]
  {
    IndentOfParts([SPACE, TAB], [0x61]);
    IndentOfParts([SPACE, SPACE], [0x62]);
    IndentOfParts([SPACE, SPACE], [0x63]);
    assert [SPACE, TAB] + [0x61] == MISALIGNED_LINES[0] && [SPACE, SPACE] + [0x62] == MISALIGNED_LINES[1]
        && [SPACE, SPACE] + [0x63] == MISALIGNED_LINES[2];
  }

  lemma MisalignedColumns()
    ensures Column([SPACE, TAB], 2) == 2 && SpaceIndent([SPACE, TAB], 2) == [SPACE, SPACE, SPACE]
    ensures Column([SPACE, SPACE, SPACE], 2) == 3
  {
    assert [SPACE, TAB][..1] == [SPACE] && [SPACE][..0] == [];
    assert Column([SPACE], 2) == 1;
    assert [SPACE, TAB][1..] == [TAB] && [TAB][1..] == [];
    assert SpaceIndent([TAB], 2) == Repeat(SPACE, 2) + SpaceIndent([], 2);
    ColumnReaches([SPACE, SPACE, SPACE], 2);
  }

  /** The first line of this file moves from column 2 to column 3. */
  lemma MisalignedTabMoves(safe: nat -> bool)
    requires forall i :: 0 <= i < 3 ==> !safe(i)
    ensures var once := Normalise(Join(MISALIGNED_LINES), safe);
            && once.Some? && once.value.style == Spaces && once.value.width == 2
            && Split(Join(MISALIGNED_LINES)) == MISALIGNED_LINES && |Split(once.value.text)| == 3
            && Column(Indent(MISALIGNED_LINES[0]), 2) == 2 && Column(Indent(Split(once.value.text)[0]), 2) == 3
  {
    var lines := MISALIGNED_LINES;
    MisalignedParts();
    SplitOfJoin(lines);
    assert TabLine(lines, safe, 0) && SpaceLine(lines, safe, 1) && SpaceLine(lines, safe, 2);
    assert TabLines(lines, safe, 1) == 1 && SpaceLines(lines, safe, 1) == 0;
    assert TabLines(lines, safe, 2) == 1 && SpaceLines(lines, safe, 2) == 1;
    assert TabLines(lines, safe, 3) == 1 && SpaceLines(lines, safe, 3) == 2;
    hide TabLines, SpaceLines, Split, Join, Column, SpaceIndent;
    LinesOfResult(Join(lines), safe);
    RewriteLineKeepsContent(lines[0], Spaces, 2);
    MisalignedColumns();
  }

  // ---- The loops ----

  /** Space-indented lines of one width among the first `n`. */
  function LinesOfWidth(lines: seq<Text>, safe: nat -> bool, width: nat, n: nat): nat
    requires n <= |lines|
  {
    if n == 0 then 0
    else LinesOfWidth(lines, safe, width, n - 1) + if SpaceLine(lines, safe, n - 1)
      && |Indent(lines[n - 1])| == width then 1 else 0
  }

  lemma {:induction false} LinesOfWidthPositive(lines: seq<Text>, safe: nat -> bool, width: nat, n: nat)
    requires n <= |lines|
    ensures LinesOfWidth(lines, safe, width, n) > 0 <==> exists i: nat :: i < n && SpaceLine(lines, safe, i)
                                                                          && |Indent(lines[i])| == width
  {
    if n > 0 { LinesOfWidthPositive(lines, safe, width, n - 1); }
  }

  method CountVotes(lines: seq<Text>, safe: nat -> bool) returns (tabLines: nat, spaceLines: nat, widths: map<nat, nat>)
    ensures tabLines == TabLines(lines, safe, |lines|) && spaceLines == SpaceLines(lines, safe, |lines|)
    ensures forall w: nat :: w in widths <==> LinesOfWidth(lines, safe, w, |lines|) > 0
    ensures forall w: nat :: w in widths ==> widths[w] == LinesOfWidth(lines, safe, w, |lines|)
  {
    tabLines, spaceLines, widths := 0, 0, map[];
    for i := 0 to |lines|
      invariant tabLines == TabLines(lines, safe, i) && spaceLines == SpaceLines(lines, safe, i)
      invariant forall w: nat :: w in widths <==> LinesOfWidth(lines, safe, w, i) > 0
      invariant forall w: nat :: w in widths ==> widths[w] == LinesOfWidth(lines, safe, w, i)
    {
      if !safe(i) && Votes(lines[i]) {
        var indent := Indent(lines[i]);
        if TAB in indent {
          tabLines := tabLines + 1;
        } else {
          spaceLines := spaceLines + 1;
          var before := if |indent| in widths then widths[|indent|] else 0;
          widths := widths[|indent| := before + 1];
        }
      }
    }
  }

  method IndentWidth(lines: seq<Text>, safe: nat -> bool, widths: map<nat, nat>) returns (width: nat)
    requires forall w: nat :: w in widths <==> LinesOfWidth(lines, safe, w, |lines|) > 0
    ensures width == WidthOf(lines, safe)
  {
    forall w: nat ensures w in widths <==> exists i: nat :: i < |lines| && SpaceLine(lines, safe, i)
                                                            && |Indent(lines[i])| == w {
      LinesOfWidthPositive(lines, safe, w, |lines|);
    }
    assert forall i: nat :: i < |lines| && SpaceLine(lines, safe, i) ==> |Indent(lines[i])| in widths;
    width := if exists w :: w in widths && w % 4 != 0 then 2 else 4;
  }

  lemma Regroup(tabs: nat, spaces: nat, width: nat)
    requires width > 0
    ensures (tabs * width + spaces) / width == tabs + spaces / width && (tabs * width + spaces) % width == spaces % width
  {
    var whole := spaces / width;
    assert spaces == whole * width + spaces % width;
    assert (tabs + whole) * width == tabs * width + whole * width;
    Quotient(tabs + whole, spaces % width, width);
  }

  /** One more character of the indentation, counted in tabs and the spaces after them. */
  lemma NextCharacter(indent: Text, i: nat, tabs: nat, spaces: nat, width: nat)
    requires width > 0 && i < |indent| && Column(indent[..i], width) == tabs * width + spaces
    ensures Column(indent[..i + 1], width) ==
              if indent[i] == TAB then (tabs + 1 + spaces / width) * width else tabs * width + (spaces + 1)
  {
    assert indent[..i + 1][..i] == indent[..i];
    Regroup(tabs, spaces, width);
    assert tabs + spaces / width + 1 == tabs + 1 + spaces / width;
  }

  /** The indentation of tabs, then fewer spaces than a tab is wide, that ends at the column the given one reaches. */
  method TabIndentOf(indent: Text, width: nat) returns (next: Text)
    requires width > 0 && forall i :: 0 <= i < |indent| ==> IsIndent(indent[i])
    ensures next == TabIndent(Column(indent, width), width)
  {
    var tabs: nat, spaces: nat := 0, 0;
    for i := 0 to |indent|
      invariant Column(indent[..i], width) == tabs * width + spaces
    {
      NextCharacter(indent, i, tabs, spaces, width);
      hide Column;
      if indent[i] == TAB {
        tabs, spaces := tabs + 1 + spaces / width, 0;
      } else {
        spaces := spaces + 1;
      }
    }
    assert indent[..|indent|] == indent;
    Regroup(tabs, spaces, width);
    tabs := tabs + spaces / width;
    var remainder := spaces % width;
    next := Repeat(TAB, tabs) + Repeat(SPACE, remainder);
  }

  method RewriteOne(line: Text, style: Style, width: nat) returns (next: Text)
    requires width > 0
    ensures next == RewriteLine(line, style, width)
  {
    if !Rewritable(line) { return line; }
    var indent, content := Indent(line), Content(line);
    if style == Tabs {
      if SPACE !in indent { return line; }
      var tabbed := TabIndentOf(indent, width);
      return tabbed + content;
    }
    if TAB !in indent { return line; }
    next := SpaceIndent(indent, width) + content;
  }

  method RewriteLines(lines: seq<Text>, safe: nat -> bool, style: Style, width: nat) returns (out: seq<Text>, changed: nat)
    requires width > 0
    ensures out == Rewrite(lines, safe, style, width) && changed == Differences(lines, out, |lines|)
  {
    hide RewriteLine;
    out, changed := [], 0;
    ghost var all := Rewrite(lines, safe, style, width);
    for i := 0 to |lines|
      invariant out == all[..i]
      invariant changed == Differences(lines, all, i)
    {
      var next := lines[i];
      if !safe(i) { next := RewriteOne(lines[i], style, width); }
      if next != lines[i] { changed := changed + 1; }
      out := out + [next];
    }
  }

  method NormaliseText(text: Text, safe: nat -> bool) returns (r: Option<Normalised>)
    ensures r == Normalise(text, safe)
  {
    var lines := Split(text);
    var tabLines, spaceLines, widths := CountVotes(lines, safe);
    if tabLines == 0 || spaceLines == 0 { return None; }
    var style := if tabLines >= spaceLines then Tabs else Spaces;
    var width := IndentWidth(lines, safe, widths);
    var out, changed := RewriteLines(lines, safe, style, width);
    r := Some(Normalised(Join(out), changed, style, width));
  }
}
