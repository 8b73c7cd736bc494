/** Rows of wmic output may contain newlines inside their fields; _patch_newlines puts every row
    back on one line and marks where the newlines were. */
module WmiRows {
  import opened Text

  const DELIMITER: char := '\U{0001}'
  const DELIMITER_NEWLINE: char := '\U{0002}'

  function Extend(cur: string, line: string): string {
    if cur != "" then cur + [DELIMITER_NEWLINE] + line else line
  }

  /** The lines that come out for the given lines, if cur is the row read so far. */
  function Patch(lines: seq<string>, cur: string, n: nat): seq<string> {
    if lines == [] then []
    else
      var next := Extend(cur, lines[0]);
      var k := Count(next, DELIMITER);
      if k == n then
        if |lines| == 1 || DELIMITER in lines[1] then [next] + Patch(lines[1..], "", n)
        else Patch(lines[1..], next, n)
      else if k > n then Patch(lines[1..], "", n)
      else Patch(lines[1..], next, n)
  }

  function Patched(section: string): string {
    var lines := Split(Remove(section, '\r'), '\n');
    Join([lines[0]] + Patch(lines[1..], "", Count(lines[0], DELIMITER)), '\n') + "\n"
  }

  function ReinsertNewlines(s: string): string { Replace(s, DELIMITER_NEWLINE, '\n') }

  // ----- the code -----

  method PatchNewlines(section: string) returns (r: string)
    ensures r == Patched(section)
  {
    var lines := Split(Remove(section, '\r'), '\n');
    var numDelimiters := Count(lines[0], DELIMITER);
    var fixedLines := [lines[0]];
    var curLine := "";
    var i := 1;
    ghost var all := [lines[0]] + Patch(lines[1..], "", numDelimiters);
    hide Patch, Count, Join, Split, Remove, Continues, Extend;
    ContinueFirst(lines, numDelimiters);
    while i < |lines|
      invariant 1 <= i <= |lines| && Continues(fixedLines, lines, i, curLine, numDelimiters, all)
    {
      var line := lines[i];
      var isLast := i + 1 == |lines|;
      ContinueStep(fixedLines, lines, i, curLine, numDelimiters, all);
      ExtendCases(curLine, line);
      if curLine != "" {
        curLine := curLine + [DELIMITER_NEWLINE];
      }
      curLine := curLine + line;
      if Count(curLine, DELIMITER) == numDelimiters {
        // the next line may still belong to the last field
        if isLast || DELIMITER in lines[i + 1] {
          fixedLines := fixedLines + [curLine];
          curLine := "";
        }
      } else if Count(curLine, DELIMITER) >= numDelimiters {
        curLine := "";
      }
      i := i + 1;
    }
    ContinueLast(fixedLines, lines, curLine, numDelimiters, all);
    r := Join(fixedLines, '\n') + "\n";
  }

  lemma ExtendCases(cur: string, line: string)
    ensures cur != "" ==> Extend(cur, line) == cur + [DELIMITER_NEWLINE] + line
    ensures cur == "" ==> Extend(cur, line) == cur + line
  {}

  /** With these lines put out, the rest leads to all. */
  ghost predicate Continues(fixed: seq<string>, lines: seq<string>, i: nat, cur: string, n: nat, all: seq<string>) {
    i <= |lines| && fixed + Patch(lines[i..], cur, n) == all
  }

  lemma ContinueFirst(lines: seq<string>, n: nat)
    requires lines != []
    ensures Continues([lines[0]], lines, 1, "", n, [lines[0]] + Patch(lines[1..], "", n))
  {}

  lemma ContinueStep(fixed: seq<string>, lines: seq<string>, i: nat, cur: string, n: nat, all: seq<string>)
    requires i < |lines| && Continues(fixed, lines, i, cur, n, all)
    ensures var next := Extend(cur, lines[i]);
            var k := Count(next, DELIMITER);
            if k == n && (i + 1 == |lines| || DELIMITER in lines[i + 1])
            then Continues(fixed + [next], lines, i + 1, "", n, all)
            else Continues(fixed, lines, i + 1, if k > n then "" else next, n, all)
  {
    PatchStep(lines, i, cur, n);
    var next := Extend(cur, lines[i]);
    Regroup(fixed, next, Patch(lines[i + 1..], "", n));
    hide Patch, Extend, Count;
  }

  lemma ContinueLast(fixed: seq<string>, lines: seq<string>, cur: string, n: nat, all: seq<string>)
    requires Continues(fixed, lines, |lines|, cur, n, all)
    ensures fixed == all
  {
    assert lines[|lines|..] == [] && fixed + [] == fixed;
  }

  lemma Regroup(a: seq<string>, x: string, b: seq<string>)
    ensures a + ([x] + b) == a + [x] + b
  {}

  lemma PatchStep(lines: seq<string>, i: nat, cur: string, n: nat)
    requires i < |lines|
    ensures var next := Extend(cur, lines[i]);
            var k := Count(next, DELIMITER);
            Patch(lines[i..], cur, n) ==
            if k == n && (i + 1 == |lines| || DELIMITER in lines[i + 1]) then [next] + Patch(lines[i + 1..], "", n)
            else Patch(lines[i + 1..], if k > n then "" else next, n)
  {
    hide Count, Extend;
    assert lines[i..][1..] == lines[i + 1..] && (i + 1 < |lines| ==> lines[i..][1] == lines[i + 1]);
  }

  /** A line with more delimiters than the header is dropped, and reading goes on behind it. */
  lemma LongLineDropped(line: string, rest: seq<string>, n: nat)
    requires Count(line, DELIMITER) > n
    ensures Patch([line] + rest, "", n) == Patch(rest, "", n)
  {
    PatchStep([line] + rest, 0, "", n);
    assert ([line] + rest)[0..] == [line] + rest && ([line] + rest)[1..] == rest;
  }

  lemma PatchNone(cur: string, n: nat)
    ensures Patch([], cur, n) == []
  {}

  // ----- round trip -----

  type Row = seq<string>

  function RowText(row: Row): string { Join(row, DELIMITER) }

  function RowTexts(rows: seq<Row>): seq<string> {
    seq(|rows|, i requires 0 <= i < |rows| => RowText(rows[i]))
  }

  /** What wmic prints: the header and the rows, one behind the other. */
  function SectionText(header: string, rows: seq<Row>): string {
    Join([header] + RowTexts(rows), '\n')
  }

  /** A row on one line. */
  function Encoded(row: Row): string { Replace(RowText(row), '\n', DELIMITER_NEWLINE) }

  function EncodedRows(rows: seq<Row>): seq<string> {
    seq(|rows|, i requires 0 <= i < |rows| => Encoded(rows[i]))
  }

  function Decoded(line: string): Row {
    var fields := Split(line, DELIMITER);
    seq(|fields|, i requires 0 <= i < |fields| => ReinsertNewlines(fields[i]))
  }

  /** n + 1 fields without delimiters. */
  ghost predicate Shaped(row: Row, n: nat) {
    |row| == n + 1 && forall f :: f in row ==> DELIMITER !in f
  }

  /** A newline in the first field is only harmless in the first row, and not at its beginning. */
  ghost predicate Separable(rows: seq<Row>, n: nat) {
    && (forall i :: 0 <= i < |rows| ==> Shaped(rows[i], n))
    && (forall i :: 1 <= i < |rows| ==> '\n' !in rows[i][0])
    && (rows != [] ==> rows[0][0] == "" || rows[0][0][0] != '\n')
  }

  lemma {:induction false} CountPrefix(lines: seq<string>, j: nat)
    requires 1 <= j <= |lines|
    ensures Count(Join(lines[..j], DELIMITER_NEWLINE), DELIMITER) +
            Count(Join(lines[j..], DELIMITER_NEWLINE), DELIMITER) == Count(Join(lines, DELIMITER_NEWLINE), DELIMITER)
  {
    JoinAppend(lines, j);
    var a, b := Join(lines[..j], DELIMITER_NEWLINE), Join(lines[j..], DELIMITER_NEWLINE);
    if j < |lines| {
      CountAppend(a + [DELIMITER_NEWLINE], b, DELIMITER);
      CountAppend(a, [DELIMITER_NEWLINE], DELIMITER);
    } else {
      CountAppend(a, b, DELIMITER);
    }
  }

  lemma {:induction false} JoinAppend(lines: seq<string>, j: nat)
    requires 1 <= j <= |lines|
    ensures var a, b := Join(lines[..j], DELIMITER_NEWLINE), Join(lines[j..], DELIMITER_NEWLINE);
            Join(lines, DELIMITER_NEWLINE) == if j == |lines| then a + b else a + [DELIMITER_NEWLINE] + b
  {
    if j == |lines| {
      assert lines[..j] == lines;
    } else if j == 1 {
    } else {
      assert lines[..j][1..] == lines[1..][..j - 1] && lines[j..] == lines[1..][j - 1..];
      JoinAppend(lines[1..], j - 1);
    }
  }

  lemma NoDelimiterAfter(lines: seq<string>, j: nat)
    requires 1 <= j < |lines|
    requires Count(Join(lines[..j], DELIMITER_NEWLINE), DELIMITER) == Count(Join(lines, DELIMITER_NEWLINE), DELIMITER)
    ensures DELIMITER !in lines[j]
  {
    CountPrefix(lines, j);
    var rest := lines[j..];
    if |rest| > 1 {
      CountAppend(rest[0] + [DELIMITER_NEWLINE], Join(rest[1..], DELIMITER_NEWLINE), DELIMITER);
      CountAppend(rest[0], [DELIMITER_NEWLINE], DELIMITER);
    }
    CountZero(lines[j], DELIMITER);
  }

  lemma JoinNonEmpty(lines: seq<string>, j: nat)
    requires 1 <= j <= |lines| && lines[0] != ""
    ensures Join(lines[..j], DELIMITER_NEWLINE) != ""
  {}

  lemma NextLine(lines: seq<string>, j: nat)
    requires j < |lines| && lines[0] != ""
    ensures var cur := if j == 0 then "" else Join(lines[..j], DELIMITER_NEWLINE);
            Extend(cur, lines[j]) == Join(lines[..j + 1], DELIMITER_NEWLINE)
  {
    if j > 0 {
      JoinNonEmpty(lines, j);
      JoinAppend(lines[..j + 1], j);
      assert lines[..j + 1][..j] == lines[..j] && lines[..j + 1][j..] == [lines[j]];
    }
  }

  /** Reading the lines of one row, j of them already read: the row comes out whole exactly when
      its last line was read. */
  lemma {:induction false} ReadRow(lines: seq<string>, j: nat, rest: seq<string>, n: nat)
    requires j < |lines| && lines[0] != "" && Count(Join(lines, DELIMITER_NEWLINE), DELIMITER) == n
    requires rest == [] || DELIMITER in rest[0]
    ensures var cur := if j == 0 then "" else Join(lines[..j], DELIMITER_NEWLINE);
            Patch(lines[j..] + rest, cur, n) == [Join(lines, DELIMITER_NEWLINE)] + Patch(rest, "", n)
    decreases |lines| - j
  {
    hide Join, Count;
    var cur := if j == 0 then "" else Join(lines[..j], DELIMITER_NEWLINE);
    var ahead := lines[j..] + rest;
    var next := Extend(cur, lines[j]);
    assert ahead[1..] == lines[j + 1..] + rest;
    NextLine(lines, j);
    CountPrefix(lines, j + 1);
    if j + 1 == |lines| {
      assert lines[..j + 1] == lines && lines[j + 1..] + rest == rest;
    } else {
      ReadRow(lines, j + 1, rest, n);
      assert ahead[1] == lines[j + 1];
      if Count(next, DELIMITER) == n {
        NoDelimiterAfter(lines, j + 1);
      }
    }
  }

  lemma RowLines(row: Row, n: nat)
    requires Shaped(row, n) && n >= 1
    ensures var lines := Split(RowText(row), '\n');
            && Count(Join(lines, DELIMITER_NEWLINE), DELIMITER) == n
            && Join(lines, DELIMITER_NEWLINE) == Encoded(row)
            && (row[0] == "" || row[0][0] != '\n' ==> lines[0] != "")
            && ('\n' !in row[0] ==> DELIMITER in lines[0])
  {
    var text := RowText(row);
    JoinSplit(text, '\n', DELIMITER_NEWLINE);
    CountJoin(row, DELIMITER);
    CountReplace(text);
    SplitHead(row[0] + [DELIMITER] + Join(row[1..], DELIMITER), |row[0]|);
    assert text == row[0] + [DELIMITER] + Join(row[1..], DELIMITER);
  }

  lemma {:induction false} CountReplace(s: string)
    ensures Count(Replace(s, '\n', DELIMITER_NEWLINE), DELIMITER) == Count(s, DELIMITER)
  {
    if s != [] {
      CountReplace(s[1..]);
      assert Replace(s, '\n', DELIMITER_NEWLINE)[1..] == Replace(s[1..], '\n', DELIMITER_NEWLINE);
    }
  }

  /** The first line of a text. */
  lemma {:induction false} SplitHead(s: string, k: nat)
    requires k < |s| && s[k] == DELIMITER
    ensures s[0] != '\n' ==> Split(s, '\n')[0] != ""
    ensures '\n' !in s[..k] ==> DELIMITER in Split(s, '\n')[0]
  {
    if k > 0 {
      SplitHead(s[1..], k - 1);
      assert s[1..][..k - 1] == s[..k][1..];
      assert s[..k][0] == s[0];
    }
  }

  lemma {:induction false} PatchRows(rows: seq<Row>, n: nat)
    requires n >= 1 && Separable(rows, n)
    ensures Patch(Concat(SplitAll(RowTexts(rows), '\n')), "", n) == EncodedRows(rows)
  {
    hide Patch, Split, Join, Count;
    if rows == [] {
      PatchNone("", n);
    } else {
      var lines := Split(RowText(rows[0]), '\n');
      var texts := RowTexts(rows);
      var rest := Concat(SplitAll(texts[1..], '\n'));
      assert texts[1..] == RowTexts(rows[1..]) && SplitAll(texts, '\n')[1..] == SplitAll(texts[1..], '\n');
      RowLines(rows[0], n);
      PatchRows(rows[1..], n);
      if |rows| > 1 {
        RowLines(rows[1], n);
        assert rest[0] == Split(RowText(rows[1]), '\n')[0];
      }
      ReadRow(lines, 0, rest, n);
      assert Concat(SplitAll(texts, '\n')) == lines[0..] + rest;
      assert EncodedRows(rows) == [Encoded(rows[0])] + EncodedRows(rows[1..]);
    }
  }

  function StripRow(row: Row): Row { RemoveAll(row, '\r') }

  function StripRows(rows: seq<Row>): seq<Row> {
    seq(|rows|, i requires 0 <= i < |rows| => StripRow(rows[i]))
  }

  lemma StripSection(header: string, rows: seq<Row>)
    ensures Remove(SectionText(header, rows), '\r') == SectionText(Remove(header, '\r'), StripRows(rows))
  {
    var parts := [header] + RowTexts(rows);
    RemoveJoin(parts, '\n', '\r');
    forall i | 0 <= i < |rows| ensures Remove(RowText(rows[i]), '\r') == RowText(StripRow(rows[i])) {
      RemoveJoin(rows[i], DELIMITER, '\r');
    }
    assert RemoveAll(parts, '\r') == [Remove(header, '\r')] + RowTexts(StripRows(rows));
  }

  /** What the decoder makes of a field: the mark stands for a newline. */
  function Unmarked(row: Row): Row { ReplaceAll(row, DELIMITER_NEWLINE, '\n') }

  /** Every field comes back, except that a mark comes back as a newline. */
  lemma DecodeEncode(row: Row)
    requires row != [] && forall f :: f in row ==> DELIMITER !in f
    ensures Decoded(Encoded(row)) == Unmarked(row)
  {
    var marked := ReplaceAll(row, '\n', DELIMITER_NEWLINE);
    ReplaceJoin(row, DELIMITER, '\n', DELIMITER_NEWLINE);
    forall f | f in marked ensures DELIMITER !in f {
      var i :| 0 <= i < |marked| && marked[i] == f;
      assert row[i] in row;
    }
    SplitJoinExact(marked, DELIMITER);
    forall i | 0 <= i < |row| ensures ReinsertNewlines(marked[i]) == Unmarked(row)[i] {}
  }

  lemma UnmarkedPlain(row: Row)
    ensures Unmarked(row) == row <==> forall f :: f in row ==> DELIMITER_NEWLINE !in f
  {
    if Unmarked(row) == row {
      forall f | f in row ensures DELIMITER_NEWLINE !in f {
        var i :| 0 <= i < |row| && row[i] == f;
        assert f == Replace(f, DELIMITER_NEWLINE, '\n');
      }
    } else {
      var i :| 0 <= i < |row| && Unmarked(row)[i] != row[i];
      assert row[i] in row;
    }
  }

  lemma LinesOfRows(header: string, rows: seq<Row>)
    requires '\n' !in header
    ensures Split(Join([header] + EncodedRows(rows), '\n') + "\n", '\n') == [header] + EncodedRows(rows) + [""]
  {
    hide Split, RowText, Join;
    var parts := [header] + EncodedRows(rows);
    forall p | p in parts ensures '\n' !in p {
      var i :| 0 <= i < |parts| && parts[i] == p;
      if i > 0 { assert p == Encoded(rows[i - 1]); }
    }
    SplitAppend(Join(parts, '\n'), "", '\n');
    SplitNone("", '\n');
    SplitJoinExact(parts, '\n');
    assert Join(parts, '\n') + "\n" == Join(parts, '\n') + ['\n'] + "";
  }

  lemma {:induction false} RemoveExact(s: string, c: char)
    ensures c !in Remove(s, c) && forall x :: x in Remove(s, c) ==> x in s
    ensures Remove(s, c) == s <==> c !in s
  {
    if s != [] {
      RemoveExact(s[1..], c);
      assert s == [s[0]] + s[1..];
    }
  }

  // ----- what comes back for all rows -----

  /** Everything before the last newline, and everything behind it. */
  function BeforeBreak(s: string): string
    requires '\n' in s
  {
    if s[|s| - 1] == '\n' then s[..|s| - 1]
    else assert s == s[..|s| - 1] + [s[|s| - 1]]; BeforeBreak(s[..|s| - 1])
  }

  function AfterBreak(s: string): string
    requires '\n' in s
  {
    if s[|s| - 1] == '\n' then ""
    else assert s == s[..|s| - 1] + [s[|s| - 1]]; AfterBreak(s[..|s| - 1]) + [s[|s| - 1]]
  }

  lemma {:induction false} BreakParts(s: string)
    requires '\n' in s
    ensures s == BeforeBreak(s) + "\n" + AfterBreak(s) && '\n' !in AfterBreak(s)
  {
    assert s == s[..|s| - 1] + [s[|s| - 1]];
    if s[|s| - 1] != '\n' { BreakParts(s[..|s| - 1]); }
  }

  function AppendLast(row: Row, t: string): Row
    requires row != []
  {
    row[..|row| - 1] + [row[|row| - 1] + t]
  }

  function WithFirst(row: Row, t: string): Row
    requires row != []
  {
    [t] + row[1..]
  }

  /** The rows as the code takes them: what stands before the last newline in the first field of a
      later row ends the row before. */
  function Moved(rows: seq<Row>): (r: seq<Row>)
    requires forall i :: 0 <= i < |rows| ==> |rows[i]| > 1
    ensures |r| == |rows| && forall i :: 0 <= i < |r| ==> |r[i]| == |rows[i]|
  {
    if |rows| <= 1 then rows
    else
      var rest := Moved(rows[1..]);
      var first := rest[0][0];
      if '\n' in first then
        [AppendLast(rows[0], "\n" + BeforeBreak(first)), WithFirst(rest[0], AfterBreak(first))] + rest[1..]
      else [rows[0]] + rest
  }

  function Stripped(s: string): string {
    if s != "" && s[0] == '\n' then Stripped(s[1..]) else s
  }

  /** ... and the newlines at the very beginning are lost. */
  function Received(rows: seq<Row>): (r: seq<Row>)
    requires forall i :: 0 <= i < |rows| ==> |rows[i]| > 1
    ensures |r| == |rows|
  {
    if rows == [] then [] else
      var m := Moved(rows);
      [WithFirst(m[0], Stripped(m[0][0]))] + m[1..]
  }

  ghost predicate AllShaped(rows: seq<Row>, n: nat) {
    forall i :: 0 <= i < |rows| ==> Shaped(rows[i], n)
  }

  ghost predicate Avoids(rows: seq<Row>, c: char) {
    forall i :: 0 <= i < |rows| ==> RowAvoids(rows[i], c)
  }

  ghost predicate RowAvoids(row: Row, c: char) { forall f :: f in row ==> c !in f }

  /** No character that the code drops or uses as a mark. */
  ghost predicate AllPlain(rows: seq<Row>) { Avoids(rows, '\r') && Avoids(rows, DELIMITER_NEWLINE) }

  lemma {:induction false} MovedText(rows: seq<Row>)
    requires forall i :: 0 <= i < |rows| ==> |rows[i]| > 1
    ensures Join(RowTexts(Moved(rows)), '\n') == Join(RowTexts(rows), '\n')
    ensures rows != [] ==> Moved(rows)[0][0] == rows[0][0]
  {
    if |rows| > 1 {
      var rest := Moved(rows[1..]);
      MovedText(rows[1..]);
      var first := rest[0][0];
      JoinCons(RowText(rows[0]), RowTexts(rows[1..]), '\n');
      JoinCons(RowText(rows[0]), RowTexts(rest), '\n');
      assert RowTexts(rows) == [RowText(rows[0])] + RowTexts(rows[1..]);
      if '\n' in first {
        BreakParts(first);
        MovedPair(rows[0], rest, BeforeBreak(first), AfterBreak(first));
      } else {
        assert RowTexts([rows[0]] + rest) == [RowText(rows[0])] + RowTexts(rest);
      }
    }
  }

  lemma JoinCons(x: string, rest: seq<string>, c: char)
    requires rest != []
    ensures Join([x] + rest, c) == x + [c] + Join(rest, c)
  {
    assert ([x] + rest)[1..] == rest;
  }

  lemma MovedPair(a: Row, rest: seq<Row>, u: string, v: string)
    requires |a| > 1 && rest != [] && |rest[0]| > 1 && rest[0][0] == u + "\n" + v
    ensures var pair := [AppendLast(a, "\n" + u), WithFirst(rest[0], v)] + rest[1..];
            && Join(RowTexts(pair), '\n') == Join([RowText(a)] + RowTexts(rest), '\n')
            && pair[0][0] == a[0]
  {
    var x, y := AppendLast(a, "\n" + u), WithFirst(rest[0], v);
    assert RowText(x) == RowText(a) + "\n" + u by {
      JoinLast(a, u);
      assert a[|a| - 1] + ("\n" + u) == a[|a| - 1] + "\n" + u;
    }
    FirstText(rest[0], u, v);
    hide RowText;
    var others := RowTexts(rest[1..]);
    assert RowTexts([x, y] + rest[1..]) == [RowText(x)] + ([RowText(y)] + others);
    assert RowTexts(rest) == [RowText(rest[0])] + others;
    JoinCons(RowText(x), [RowText(y)] + others, '\n');
    JoinCons(RowText(a), [RowText(rest[0])] + others, '\n');
    JoinPrefix(u, RowText(y), others);
  }

  lemma JoinPrefix(u: string, t: string, others: seq<string>)
    ensures Join([u + "\n" + t] + others, '\n') == u + "\n" + Join([t] + others, '\n')
  {
    if others == [] {
      assert [t] + others == [t] && [u + "\n" + t] + others == [u + "\n" + t];
    } else {
      JoinCons(t, others, '\n');
      JoinCons(u + "\n" + t, others, '\n');
    }
  }

  /** The text of a row, by its first field. */
  lemma FirstText(row: Row, u: string, v: string)
    requires |row| > 1 && row[0] == u + "\n" + v
    ensures RowText(row) == u + "\n" + RowText(WithFirst(row, v))
  {
    var w := WithFirst(row, v);
    assert w[1..] == row[1..];
    assert RowText(row) == (u + "\n" + v) + [DELIMITER] + Join(row[1..], DELIMITER);
  }

  /** Moving and stripping keep the shape and bring in no new characters but newlines; afterwards the
      rows can be separated. */
  lemma {:induction false} MovedShape(rows: seq<Row>, n: nat)
    requires n >= 1 && AllShaped(rows, n)
    ensures AllShaped(Moved(rows), n)
    ensures forall i :: 1 <= i < |rows| ==> '\n' !in Moved(rows)[i][0]
  {
    if |rows| > 1 {
      var rest := Moved(rows[1..]);
      MovedShape(rows[1..], n);
      var first := rest[0][0];
      assert Shaped(rest[0], n);
      if '\n' in first {
        BreakParts(first);
        PairShaped(rows[0], rest[0], n);
      }
    }
  }

  lemma PairShaped(a: Row, b: Row, n: nat)
    requires n >= 1 && Shaped(a, n) && Shaped(b, n) && '\n' in b[0]
    ensures Shaped(AppendLast(a, "\n" + BeforeBreak(b[0])), n) && Shaped(WithFirst(b, AfterBreak(b[0])), n)
  {
    BreakParts(b[0]);
    assert a[|a| - 1] in a && b[0] in b;
  }

  lemma {:induction false} MovedAvoids(rows: seq<Row>, c: char)
    requires (forall i :: 0 <= i < |rows| ==> |rows[i]| > 1) && Avoids(rows, c) && c != '\n'
    ensures Avoids(Moved(rows), c)
  {
    if |rows| > 1 {
      var rest := Moved(rows[1..]);
      MovedAvoids(rows[1..], c);
      assert RowAvoids(rest[0], c) && RowAvoids(rows[0], c);
      if '\n' in rest[0][0] { PairAvoids(rows[0], rest[0], c); }
    }
  }

  lemma PairAvoids(a: Row, b: Row, c: char)
    requires |a| > 1 && |b| > 1 && RowAvoids(a, c) && RowAvoids(b, c) && '\n' in b[0] && c != '\n'
    ensures RowAvoids(AppendLast(a, "\n" + BeforeBreak(b[0])), c) && RowAvoids(WithFirst(b, AfterBreak(b[0])), c)
  {
    BreakParts(b[0]);
    assert a[|a| - 1] in a && b[0] in b;
  }

  lemma {:induction false} StrippedPart(s: string)
    ensures Stripped(s) == "" || Stripped(s)[0] != '\n'
    ensures forall c :: c in Stripped(s) ==> c in s
    ensures Stripped(s) == s <==> s == "" || s[0] != '\n'
    ensures |Stripped(s)| <= |s|
  {
    if s != "" && s[0] == '\n' { StrippedPart(s[1..]); }
  }

  lemma ReceivedSeparable(rows: seq<Row>, n: nat)
    requires n >= 1 && AllShaped(rows, n)
    ensures Separable(Received(rows), n)
  {
    MovedShape(rows, n);
    if rows != [] {
      var m := Moved(rows);
      StrippedPart(m[0][0]);
      assert Shaped(m[0], n) && m[0][0] in m[0];
    }
  }

  lemma ReceivedAvoids(rows: seq<Row>, c: char)
    requires (forall i :: 0 <= i < |rows| ==> |rows[i]| > 1) && Avoids(rows, c) && c != '\n'
    ensures Avoids(Received(rows), c)
  {
    MovedAvoids(rows, c);
    if rows != [] {
      var m := Moved(rows);
      StrippedPart(m[0][0]);
      assert RowAvoids(m[0], c) && m[0][0] in m[0];
    }
  }

  /** Rows are received as they are exactly if they can be separated. */
  lemma {:induction false} MovedItself(rows: seq<Row>, n: nat)
    requires n >= 1 && AllShaped(rows, n)
    ensures Moved(rows) == rows <==> forall i :: 1 <= i < |rows| ==> '\n' !in rows[i][0]
  {
    MovedShape(rows, n);
    if |rows| > 1 && forall i :: 1 <= i < |rows| ==> '\n' !in rows[i][0] {
      MovedItself(rows[1..], n);
      assert [rows[0]] + rows[1..] == rows;
    }
  }

  lemma ReceivedItself(rows: seq<Row>, n: nat)
    requires n >= 1 && AllShaped(rows, n)
    ensures Received(rows) == rows <==> Separable(rows, n)
  {
    MovedItself(rows, n);
    MovedText(rows);
    ReceivedSeparable(rows, n);
    if rows != [] {
      var m := Moved(rows);
      StrippedPart(m[0][0]);
      if Separable(rows, n) {
        assert m == rows;
        assert WithFirst(m[0], m[0][0]) == m[0];
        assert [m[0]] + m[1..] == m;
      }
    }
  }

  /** Empty lines in front of the first row are skipped. */
  lemma {:induction false} LeadingLines(row: Row, rest: seq<string>, n: nat)
    requires n >= 1 && |row| > 1
    ensures Patch(Split(RowText(row), '\n') + rest, "", n)
         == Patch(Split(RowText(WithFirst(row, Stripped(row[0]))), '\n') + rest, "", n)
    decreases |row[0]|
  {
    hide Patch;
    if row[0] != "" && row[0][0] == '\n' {
      var next := WithFirst(row, row[0][1..]);
      FirstText(row, "", row[0][1..]);
      assert row[0] == "" + "\n" + row[0][1..];
      assert RowText(row) == "" + ['\n'] + RowText(next);
      SplitAppend("", RowText(next), '\n');
      SplitNone("", '\n');
      var lines := Split(RowText(next), '\n') + rest;
      assert Split(RowText(row), '\n') + rest == [""] + lines;
      EmptyLine(lines, n);
      LeadingLines(next, rest, n);
      assert WithFirst(next, Stripped(next[0])) == WithFirst(row, Stripped(row[0]));
    } else {
      assert WithFirst(row, row[0]) == row;
    }
  }

  lemma EmptyLine(lines: seq<string>, n: nat)
    requires n >= 1
    ensures Patch([""] + lines, "", n) == Patch(lines, "", n)
  {
    assert ([""] + lines)[1..] == lines;
  }

  lemma ConcatRows(rows: seq<Row>)
    requires rows != []
    ensures Concat(SplitAll(RowTexts(rows), '\n')) ==
            Split(RowText(rows[0]), '\n') + Concat(SplitAll(RowTexts(rows[1..]), '\n'))
  {
    assert SplitAll(RowTexts(rows), '\n')[1..] == SplitAll(RowTexts(rows[1..]), '\n');
  }

  lemma PatchReceived(rows: seq<Row>, n: nat)
    requires n >= 1 && AllShaped(rows, n)
    ensures Patch(Concat(SplitAll(RowTexts(rows), '\n')), "", n) == EncodedRows(Received(rows))
  {
    if rows == [] {
      PatchNone("", n);
    } else {
      var m, r := Moved(rows), Received(rows);
      MovedText(rows);
      SplitJoin(RowTexts(rows), '\n');
      SplitJoin(RowTexts(m), '\n');
      ConcatRows(m);
      ConcatRows(r);
      assert r[1..] == m[1..];
      LeadingLines(m[0], Concat(SplitAll(RowTexts(m[1..]), '\n')), n);
      ReceivedSeparable(rows, n);
      PatchRows(r, n);
    }
  }

  /** For all rows with the right number of fields: the patched section is the header and one line for
      each received row. */
  lemma PatchedExactly(header: string, rows: seq<Row>)
    requires '\n' !in Remove(header, '\r')
    requires var n := Count(Remove(header, '\r'), DELIMITER); n >= 1 && AllShaped(StripRows(rows), n)
    ensures Patched(SectionText(header, rows)) ==
            Join([Remove(header, '\r')] + EncodedRows(Received(StripRows(rows))), '\n') + "\n"
  {
    var h, rs := Remove(header, '\r'), StripRows(rows);
    StripSection(header, rows);
    SectionLines(h, rs);
    PatchReceived(rs, Count(h, DELIMITER));
    hide Patch, Received, Split, Join, Count, Remove, SectionText, StripRows, RowTexts, EncodedRows, SplitAll, Concat;
    var lines := Concat(SplitAll(RowTexts(rs), '\n'));
    assert ([h] + lines)[1..] == lines;
  }

  /** The lines of a section. */
  lemma SectionLines(header: string, rows: seq<Row>)
    requires '\n' !in header
    ensures Split(SectionText(header, rows), '\n') == [header] + Concat(SplitAll(RowTexts(rows), '\n'))
  {
    var texts := RowTexts(rows);
    SplitJoin([header] + texts, '\n');
    SplitNone(header, '\n');
    hide Split, Join;
    var rest := SplitAll(texts, '\n');
    assert SplitAll([header] + texts, '\n') == [[header]] + rest;
    assert ([[header]] + rest)[1..] == rest;
  }

  lemma StripExact(rows: seq<Row>)
    ensures Avoids(StripRows(rows), '\r') && (StripRows(rows) == rows <==> Avoids(rows, '\r'))
    ensures forall n: nat :: AllShaped(rows, n) ==> AllShaped(StripRows(rows), n)
  {
    var t := StripRows(rows);
    forall i, k | 0 <= i < |rows| && 0 <= k < |rows[i]|
      ensures '\r' !in t[i][k] && (t[i][k] == rows[i][k] <==> '\r' !in rows[i][k])
      ensures forall c :: c in t[i][k] ==> c in rows[i][k]
    {
      RemoveExact(rows[i][k], '\r');
    }
    forall n: nat | AllShaped(rows, n) ensures AllShaped(t, n) {
      forall i | 0 <= i < |rows| ensures Shaped(t[i], n) {
        assert Shaped(rows[i], n);
      }
    }
    if t == rows {
      forall i, f | 0 <= i < |rows| && f in rows[i] ensures '\r' !in f {
        var k :| 0 <= k < |rows[i]| && rows[i][k] == f;
      }
    }
    if Avoids(rows, '\r') {
      forall i | 0 <= i < |rows| ensures t[i] == rows[i] {}
    }
  }

  lemma HeaderExact(header: string)
    ensures Remove(header, '\r') == header <==> '\r' !in header
    ensures '\n' !in header ==> '\n' !in Remove(header, '\r')
    ensures Count(Remove(header, '\r'), DELIMITER) == Count(header, DELIMITER)
  {
    RemoveExact(header, '\r');
    CountRemove(header);
  }

  lemma {:induction false} CountRemove(s: string)
    ensures Count(Remove(s, '\r'), DELIMITER) == Count(s, DELIMITER)
  {
    if s != [] {
      CountRemove(s[1..]);
      if s[0] != '\r' { CountAppend([s[0]], Remove(s[1..], '\r'), DELIMITER); }
    }
  }

  /** The lines of the patched section, decoded: the received rows without their carriage returns and
      with newlines for the marks. */
  lemma DecodedReceived(header: string, rows: seq<Row>)
    requires '\n' !in header && Count(header, DELIMITER) >= 1 && AllShaped(rows, Count(header, DELIMITER))
    ensures AllShaped(StripRows(rows), Count(header, DELIMITER))
    ensures var lines := Split(Patched(SectionText(header, rows)), '\n');
            && |lines| == |rows| + 2 && lines[0] == Remove(header, '\r') && lines[|rows| + 1] == ""
            && forall i :: 0 <= i < |rows| ==> Decoded(lines[i + 1]) == Unmarked(Received(StripRows(rows))[i])
  {
    var n, h := Count(header, DELIMITER), Remove(header, '\r');
    HeaderExact(header);
    StripExact(rows);
    PatchedExactly(header, rows);
    var r := Received(StripRows(rows));
    LinesOfRows(h, r);
    ReceivedSeparable(StripRows(rows), n);
    hide Patched, Split, Decoded, Encoded, Received, Unmarked;
    var lines := [h] + EncodedRows(r) + [""];
    forall i | 0 <= i < |rows| ensures Decoded(lines[i + 1]) == Unmarked(r[i]) {
      assert Shaped(r[i], n);
      DecodeEncode(r[i]);
    }
  }

  /** Every row comes back as it was. */
  ghost predicate ComesBack(header: string, rows: seq<Row>) {
    BackIn(Split(Patched(SectionText(header, rows)), '\n'), header, rows)
  }

  ghost predicate BackIn(lines: seq<string>, header: string, rows: seq<Row>) {
    |lines| == |rows| + 2 && lines[0] == header && forall i :: 0 <= i < |rows| ==> Decoded(lines[i + 1]) == rows[i]
  }

  /** Without carriage returns and marks in the sent rows, there are none in the received ones. */
  lemma ReceivedExact(rows: seq<Row>, n: nat)
    requires n >= 1 && AllShaped(rows, n) && AllShaped(StripRows(rows), n)
    ensures (forall i :: 0 <= i < |rows| ==> Unmarked(Received(StripRows(rows))[i]) == rows[i])
            <==> AllPlain(rows) && Separable(rows, n)
  {
    var t := StripRows(rows);
    var r := Received(t);
    StripExact(rows);
    ReceivedAvoids(t, '\r');
    ReceivedItself(rows, n);
    hide Received, StripRows;
    if forall i :: 0 <= i < |rows| ==> Unmarked(r[i]) == rows[i] {
      UnmarkedAvoids(r, rows);
      ReceivedAvoids(t, DELIMITER_NEWLINE);
    }
    if AllPlain(rows) {
      ReceivedAvoids(t, DELIMITER_NEWLINE);
      forall i | 0 <= i < |rows| ensures Unmarked(r[i]) == r[i] {
        UnmarkedPlain(r[i]);
      }
      hide Unmarked;
      assert r == rows <==> forall i :: 0 <= i < |rows| ==> Unmarked(r[i]) == rows[i];
    }
  }

  lemma UnmarkedAvoids(r: seq<Row>, rows: seq<Row>)
    requires |r| == |rows| && Avoids(r, '\r') && forall i :: 0 <= i < |rows| ==> Unmarked(r[i]) == rows[i]
    ensures AllPlain(rows)
  {
    forall i, f | 0 <= i < |rows| && f in rows[i] ensures '\r' !in f && DELIMITER_NEWLINE !in f {
      var k :| 0 <= k < |rows[i]| && rows[i][k] == f;
      var g := r[i][k];
      assert RowAvoids(r[i], '\r') && g in r[i] && f == Replace(g, DELIMITER_NEWLINE, '\n');
      forall j | 0 <= j < |f| ensures f[j] != '\r' { assert g[j] in g; }
    }
  }

  lemma RoundTripColumns(header: string, rows: seq<Row>)
    requires '\n' !in header && Count(header, DELIMITER) >= 1 && AllShaped(rows, Count(header, DELIMITER))
    ensures ComesBack(header, rows) <==> '\r' !in header && AllPlain(rows) && Separable(rows, Count(header, DELIMITER))
  {
    DecodedReceived(header, rows);
    HeaderExact(header);
    ReceivedExact(rows, Count(header, DELIMITER));
    hide Received, Split, Patched, Decoded, Separable, Unmarked, AllPlain, AllShaped;
  }

  // ----- one column -----

  function ExtendAll(cur: string, lines: seq<string>): string
    decreases lines
  {
    if lines == [] then cur else ExtendAll(Extend(cur, lines[0]), lines[1..])
  }

  /** Without any delimiter no line ends a row, so everything comes out on one line. */
  lemma {:induction false} PatchColumn(lines: seq<string>, cur: string)
    requires lines != [] && DELIMITER !in cur && forall l :: l in lines ==> DELIMITER !in l
    ensures Patch(lines, cur, 0) == [ExtendAll(cur, lines)]
  {
    assert lines[0] in lines;
    var next := Extend(cur, lines[0]);
    assert DELIMITER !in next;
    CountZero(next, DELIMITER);
    if |lines| == 1 {
      assert lines[1..] == [] && Patch([], "", 0) == [] && ExtendAll(next, []) == next;
    } else {
      assert lines[1] in lines;
      PatchColumn(lines[1..], next);
    }
  }

  lemma {:induction false} ExtendJoin(cur: string, lines: seq<string>)
    requires cur != ""
    ensures ExtendAll(cur, lines) == Join([cur] + lines, DELIMITER_NEWLINE)
    decreases lines
  {
    assert ([cur] + lines)[1..] == lines;
    if lines != [] {
      var next := cur + [DELIMITER_NEWLINE] + lines[0];
      ExtendJoin(next, lines[1..]);
      assert ([next] + lines[1..])[1..] == lines[1..];
      if |lines| == 1 {
        assert [next] + lines[1..] == [next];
      } else {
        assert next + [DELIMITER_NEWLINE] + Join(lines[1..], DELIMITER_NEWLINE)
            == cur + [DELIMITER_NEWLINE] + (lines[0] + [DELIMITER_NEWLINE] + Join(lines[1..], DELIMITER_NEWLINE));
      }
    }
  }

  lemma {:induction false} ExtendSplit(s: string)
    ensures ExtendAll("", Split(s, '\n')) == Replace(Stripped(s), '\n', DELIMITER_NEWLINE)
  {
    var lines := Split(s, '\n');
    if s == "" {
      assert lines == [""] && lines[1..] == [] && ExtendAll("", []) == "";
    } else if s[0] == '\n' {
      ExtendSplit(s[1..]);
      assert lines == [""] + Split(s[1..], '\n') && lines[1..] == Split(s[1..], '\n');
    } else {
      ExtendJoin(lines[0], lines[1..]);
      assert [lines[0]] + lines[1..] == lines;
      JoinSplit(s, '\n', DELIMITER_NEWLINE);
    }
  }

  lemma {:induction false} SplitAvoids(s: string, c: char, d: char)
    requires d !in s
    ensures forall p :: p in Split(s, c) ==> d !in p
  {
    if s != [] {
      SplitAvoids(s[1..], c, d);
      assert s == [s[0]] + s[1..];
      assert Split(s[1..], c)[0] in Split(s[1..], c);
    }
  }

  lemma {:induction false} JoinAvoids(parts: seq<string>, c: char, d: char)
    requires c != d && forall p :: p in parts ==> d !in p
    ensures d !in Join(parts, c)
  {
    if parts != [] {
      assert parts[0] in parts;
      JoinAvoids(parts[1..], c, d);
    }
  }

  /** All the text of a section with one column, without its carriage returns. */
  function ColumnText(rows: seq<Row>): string { Remove(Join(RowTexts(rows), '\n'), '\r') }

  /** With one column all rows are received as one. */
  lemma OneColumn(header: string, rows: seq<Row>)
    requires '\n' !in header && DELIMITER !in header && AllShaped(rows, 0) && rows != []
    ensures var lines := Split(Patched(SectionText(header, rows)), '\n');
            && |lines| == 3 && lines[0] == Remove(header, '\r') && lines[2] == ""
            && Decoded(lines[1]) == Unmarked([Stripped(ColumnText(rows))])
  {
    var texts, h, t := RowTexts(rows), Remove(header, '\r'), ColumnText(rows);
    HeaderExact(header);
    CountZero(header, DELIMITER);
    forall x | x in texts ensures DELIMITER !in x {
      var i :| 0 <= i < |texts| && texts[i] == x;
      assert Shaped(rows[i], 0) && rows[i][0] in rows[i] && x == rows[i][0];
    }
    JoinAvoids(texts, '\n', DELIMITER);
    RemoveExact(Join(texts, '\n'), '\r');
    SplitAvoids(t, '\n', DELIMITER);
    StrippedPart(t);
    ColumnLines(header, rows);
    PatchColumn(Split(t, '\n'), "");
    ExtendSplit(t);
    var one := [Stripped(t)];
    assert Join(one, DELIMITER) == Stripped(t);
    assert EncodedRows([one]) == [Encoded(one)];
    LinesOfRows(h, [one]);
    DecodeEncode(one);
  }

  lemma ColumnLines(header: string, rows: seq<Row>)
    requires '\n' !in header && DELIMITER !in header && rows != []
    ensures Patched(SectionText(header, rows)) ==
            Join([Remove(header, '\r')] + Patch(Split(ColumnText(rows), '\n'), "", 0), '\n') + "\n"
  {
    hide Patch;
    var texts, h := RowTexts(rows), Remove(header, '\r');
    JoinCons(header, texts, '\n');
    RemoveAppend(header + ['\n'], Join(texts, '\n'), '\r');
    RemoveAppend(header, ['\n'], '\r');
    assert Remove(['\n'], '\r') == ['\n'];
    HeaderExact(header);
    CountZero(header, DELIMITER);
    SplitAppend(h, ColumnText(rows), '\n');
    SplitNone(h, '\n');
    var lines := [h] + Split(ColumnText(rows), '\n');
    assert lines[1..] == Split(ColumnText(rows), '\n');
  }

  lemma NoRows(header: string)
    requires '\n' !in header
    ensures Split(Patched(SectionText(header, [])), '\n') == [Remove(header, '\r'), ""]
  {
    var h := Remove(header, '\r');
    HeaderExact(header);
    assert [header] + RowTexts([]) == [header];
    SplitNone(h, '\n');
    assert [h][1..] == [];
    PatchNone("", Count(h, DELIMITER));
    assert [h] + [] == [h];
    SplitAppend(h, "", '\n');
    SplitNone("", '\n');
    assert h + "\n" == h + ['\n'] + "";
  }

  /** A single field comes back exactly if it has no reserved character and no newline in front. */
  lemma OneField(f: string)
    ensures Unmarked([Stripped(Remove(f, '\r'))]) == [f]
            <==> '\r' !in f && DELIMITER_NEWLINE !in f && (f == "" || f[0] != '\n')
  {
    RemoveExact(f, '\r');
    var g := Stripped(Remove(f, '\r'));
    StrippedPart(Remove(f, '\r'));
    if Unmarked([g]) == [f] {
      assert f == Unmarked([g])[0] == Replace(g, DELIMITER_NEWLINE, '\n');
      forall j | 0 <= j < |f| ensures f[j] != '\r' && f[j] != DELIMITER_NEWLINE { assert g[j] in g; }
      assert DELIMITER_NEWLINE !in g;
      assert g == f;
    }
    if '\r' !in f && DELIMITER_NEWLINE !in f && (f == "" || f[0] != '\n') {
      assert g == f && Replace(f, DELIMITER_NEWLINE, '\n') == f;
    }
  }

  lemma RoundTripColumn(header: string, rows: seq<Row>)
    requires '\n' !in header && DELIMITER !in header && AllShaped(rows, 0)
    ensures ComesBack(header, rows) <==> '\r' !in header && AllPlain(rows) && Separable(rows, 0) && |rows| <= 1
  {
    hide *;
    HeaderExact(header);
    if rows == [] {
      NothingBack(header);
    } else {
      OneColumnBack(header, rows);
      if |rows| == 1 { OneRow(rows); }
    }
  }

  lemma NothingBack(header: string)
    requires '\n' !in header
    ensures (ComesBack(header, []) <==> Remove(header, '\r') == header) && AllPlain([]) && Separable([], 0)
  {
    NoRows(header);
    hide Split, Patched;
  }

  lemma OneColumnBack(header: string, rows: seq<Row>)
    requires '\n' !in header && DELIMITER !in header && AllShaped(rows, 0) && rows != []
    ensures ComesBack(header, rows) <==> |rows| == 1 && Remove(header, '\r') == header &&
                                         Unmarked([Stripped(ColumnText(rows))]) == rows[0]
  {
    OneColumn(header, rows);
    var lines := Split(Patched(SectionText(header, rows)), '\n');
    ThreeLines(lines, header, rows, Unmarked([Stripped(ColumnText(rows))]));
    hide BackIn, Split, Patched, Decoded, Unmarked, Stripped, ColumnText, SectionText, Remove, AllShaped;
  }

  lemma ThreeLines(lines: seq<string>, header: string, rows: seq<Row>, one: Row)
    requires |lines| == 3 && rows != [] && Decoded(lines[1]) == one
    ensures BackIn(lines, header, rows) <==> |rows| == 1 && lines[0] == header && one == rows[0]
  {
    hide Decoded;
  }

  lemma OneRow(rows: seq<Row>)
    requires AllShaped(rows, 0) && |rows| == 1
    ensures Unmarked([Stripped(ColumnText(rows))]) == rows[0] <==> AllPlain(rows) && Separable(rows, 0)
  {
    var f := rows[0][0];
    assert Shaped(rows[0], 0) && rows[0] == [f] && RowTexts(rows) == [f];
    OneField(f);
    hide Unmarked, Stripped;
    assert f in rows[0];
    assert RowAvoids(rows[0], '\r') <==> '\r' !in f;
    assert RowAvoids(rows[0], DELIMITER_NEWLINE) <==> DELIMITER_NEWLINE !in f;
  }

  /** Round trip, exactly: for rows with the right number of fields, header and every field come back
      exactly if there is no carriage return and no mark in them, no later row has a newline in its
      first field, the first row does not begin with one, and a single column has at most one row. */
  lemma RoundTripExact(header: string, rows: seq<Row>)
    requires '\n' !in header && AllShaped(rows, Count(header, DELIMITER))
    ensures var n := Count(header, DELIMITER);
            ComesBack(header, rows) <==>
            '\r' !in header && AllPlain(rows) && Separable(rows, n) && (n == 0 ==> |rows| <= 1)
  {
    hide ComesBack, AllPlain, Separable, AllShaped;
    CountZero(header, DELIMITER);
    if Count(header, DELIMITER) == 0 {
      RoundTripColumn(header, rows);
    } else {
      RoundTripColumns(header, rows);
    }
  }

  const TWO_COLUMNS: string := "a" + [DELIMITER] + "b"

  /** A newline at the beginning of the first field of the first row is lost. */
  lemma LeadingNewlineLost()
    ensures var rows := [["\nx", "y"]];
            Received(rows) == [["x", "y"]] && !ComesBack(TWO_COLUMNS, rows)
  {
    var rows := [["\nx", "y"]];
    assert "\nx"[1..] == "x" && Stripped("x") == "x" && Stripped("\nx") == "x";
    assert rows[0][1..] == ["y"] && WithFirst(rows[0], "x") == ["x", "y"];
    assert Received(rows) == [["x", "y"]];
    TwoFields();
    RoundTripExact(TWO_COLUMNS, rows);
  }

  /** A carriage return is lost, although the rows can be separated. */
  lemma CarriageReturnLost()
    ensures var rows := [["x\ry", "z"]];
            Separable(rows, 1) && !ComesBack(TWO_COLUMNS, rows)
  {
    var rows := [["x\ry", "z"]];
    TwoFields();
    RoundTripExact(TWO_COLUMNS, rows);
    assert !RowAvoids(rows[0], '\r') by { assert rows[0][0] in rows[0] && rows[0][0][1] == '\r'; }
  }

  /** A newline in the first field of the second row: what stands before it goes to the first row. */
  lemma LaterNewlineMoves()
    ensures var rows := [["p", "q"], ["x\ny", "z"]];
            Received(rows) == [["p", "q\nx"], ["y", "z"]] && !ComesBack(TWO_COLUMNS, rows)
  {
    var a, b, f := ["p", "q"], ["x\ny", "z"], "x\ny";
    var rows := [a, b];
    assert BeforeBreak(f) == "x" && AfterBreak(f) == "y" by {
      assert f[..2] == "x\n" && "x\n"[..1] == "x";
    }
    assert AppendLast(a, "\n" + "x") == ["p", "q\nx"] by { assert a[..1] == ["p"] && "q" + ("\n" + "x") == "q\nx"; }
    assert WithFirst(b, "y") == ["y", "z"] by { assert b[1..] == ["z"]; }
    assert rows[1..] == [b] && Moved([b]) == [b];
    assert Moved(rows) == [["p", "q\nx"], ["y", "z"]];
    hide Moved;
    assert WithFirst(["p", "q\nx"], "p") == ["p", "q\nx"] && Stripped("p") == "p";
    TwoFields();
    RoundTripExact(TWO_COLUMNS, rows);
    assert !Separable(rows, 1) by { assert '\n' in rows[1][0]; }
  }

  lemma TwoFields()
    ensures Count(TWO_COLUMNS, DELIMITER) == 1 && '\n' !in TWO_COLUMNS && '\r' !in TWO_COLUMNS
  {
    CountAppend("a" + [DELIMITER], "b", DELIMITER);
    CountAppend("a", [DELIMITER], DELIMITER);
  }

  lemma {:induction false} JoinLast(a: Row, u: string)
    requires a != []
    ensures RowText(a[..|a| - 1] + [a[|a| - 1] + "\n" + u]) == RowText(a) + "\n" + u
  {
    var a' := a[..|a| - 1] + [a[|a| - 1] + "\n" + u];
    if |a| > 1 {
      assert a'[1..] == a[1..][..|a[1..]| - 1] + [a[1..][|a[1..]| - 1] + "\n" + u];
      JoinLast(a[1..], u);
    }
  }
}
