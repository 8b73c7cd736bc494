/** Reading the reply of rrdcached to a BATCH: a go-ahead line, "N errors", N numbered error
    lines. It arrives in chunks that are cut anywhere. */
module RrdReply {
  import opened Text

  predicate IsSpace(c: char) {
    c == ' ' || c == '\t' || c == '\n' || c == '\r' || c == '\U{000B}' || c == '\U{000C}'
  }

  predicate Blank(s: string) { forall i :: 0 <= i < |s| ==> IsSpace(s[i]) }

  function Word(s: string): string {
    if s == [] || IsSpace(s[0]) then [] else [s[0]] + Word(s[1..])
  }

  /** line.split()[0] */
  function FirstToken(s: string): string {
    if s == [] then [] else if IsSpace(s[0]) then FirstToken(s[1..]) else Word(s)
  }

  datatype Parsed<T> = Ok(value: T) | Raised

  predicate IsDigit(c: char) { '0' <= c <= '9' }

  function Digits(s: string): Parsed<nat> {
    if s == [] then Ok(0)
    else if !IsDigit(s[|s| - 1]) then Raised
    else
      match Digits(s[..|s| - 1])
      case Raised => Raised
      case Ok(n) => Ok(10 * n + (s[|s| - 1] as int - '0' as int))
  }

  /** int(s) */
  function ToInt(s: string): Parsed<int> {
    var signed := s != [] && (s[0] == '-' || s[0] == '+');
    var body := if signed then s[1..] else s;
    if body == [] then Raised
    else
      match Digits(body)
      case Raised => Raised
      case Ok(n) =>
        var i: int := n;
        Ok(if signed && s[0] == '-' then -i else i)
  }

  /** Indexing a list; negative indices count from the end. */
  function At(lines: seq<string>, i: int): Parsed<string> {
    if 0 <= i < |lines| then Ok(lines[i])
    else if -|lines| <= i < 0 then Ok(lines[|lines| + i])
    else Raised
  }

  /** An error line and the cache line it is about. */
  datatype Report = Report(line: string, cacheLine: string)

  datatype Reader = Reader(skip: int, read: bool, errcount: int, reports: seq<Report>, raised: bool)

  function Start(): Reader { Reader(0, true, 0, [], false) }

  predicate StartsWith(s: string, p: string) { |p| <= |s| && s[..|p|] == p }
  predicate EndsWith(s: string, p: string) { |p| <= |s| && s[|s| - |p|..] == p }

  function ErrorLine(r: Reader, line: string, cache: seq<string>): Reader {
    var n := r.skip - 1;
    match ToInt(FirstToken(line))
    case Raised => r.(skip := n, raised := true)
    case Ok(idx) =>
      match At(cache, idx - 1)
      case Raised => r.(skip := n, raised := true)
      case Ok(c) => r.(skip := n, reports := r.reports + [Report(line, c)], read := r.read && n != 0)
  }

  function OtherLine(r: Reader, line: string): Reader {
    if StartsWith(line, "0 Go") then r
    else if EndsWith(line, "errors") then
      match ToInt(FirstToken(line))
      case Raised => r.(raised := true)
      case Ok(n) => r.(errcount := n, skip := n, read := r.read && n != 0)
    else r
  }

  function Line(r: Reader, line: string, cache: seq<string>): Reader {
    if r.raised || Blank(line) then r
    else if r.skip != 0 then ErrorLine(r, line, cache)
    else OtherLine(r, line)
  }

  function Lines(r: Reader, lines: seq<string>, cache: seq<string>): Reader {
    if lines == [] then r else Line(Lines(r, lines[..|lines| - 1], cache), lines[|lines| - 1], cache)
  }

  /** The state of the loop: what was understood, what is still incomplete. */
  datatype Loop = Loop(reader: Reader, content: string, comError: bool)

  datatype Received = Data(bytes: string) | IoError

  function Receive(l: Loop, m: Received, cache: seq<string>): Loop {
    match m
    case IoError => l.(comError := true, reader := l.reader.(read := false))
    case Data(bytes) =>
      var content := l.content + bytes;
      if EndsWith(content, "\n") then Loop(Lines(l.reader, Split(content, '\n'), cache), "", l.comError)
      else l.(content := content)
  }

  predicate Going(l: Loop) { l.reader.read && !l.reader.raised }

  /** Messages are received while the loop is going. */
  function Receives(l: Loop, ms: seq<Received>, cache: seq<string>): Loop
    decreases |ms|
  {
    if ms == [] || !Going(l) then l else Receives(Receive(l, ms[0], cache), ms[1..], cache)
  }

  // ----- the code -----

  method HandleLine(r: Reader, line: string, cache: seq<string>) returns (r': Reader)
    ensures r' == Line(r, line, cache)
  {
    r' := r;
    if r.raised || Blank(line) {
      return;
    }
    if r.skip != 0 {
      r' := r'.(skip := r'.skip - 1);
      var idx := ToInt(FirstToken(line));
      if idx.Raised? {
        r' := r'.(raised := true);
        return;
      }
      var about := At(cache, idx.value - 1);
      if about.Raised? {
        r' := r'.(raised := true);
        return;
      }
      r' := r'.(reports := r'.reports + [Report(line, about.value)]);
      if r'.skip == 0 {
        r' := r'.(read := false);
      }
    } else if StartsWith(line, "0 Go") {
      // the greeting counts for nothing
    } else if EndsWith(line, "errors") {
      var n := ToInt(FirstToken(line));
      if n.Raised? {
        r' := r'.(raised := true);
        return;
      }
      r' := r'.(errcount := n.value, skip := n.value);
      if n.value == 0 {
        r' := r'.(read := false);
      }
    }
  }

  method ReadReply(ms: seq<Received>, cache: seq<string>) returns (l: Loop, used: nat)
    ensures l == Receives(Loop(Start(), "", false), ms, cache)
    ensures used <= |ms| && (used < |ms| ==> !Going(l))
  {
    l, used := Loop(Start(), "", false), 0;
    while l.reader.read && !l.reader.raised && used < |ms|
      invariant used <= |ms|
      invariant Receives(l, ms[used..], cache) == Receives(Loop(Start(), "", false), ms, cache)
      decreases |ms| - used
    {
      ghost var before := l;
      assert ms[used..][1..] == ms[used + 1..];
      match ms[used] {
        case IoError =>
          l := l.(comError := true, reader := l.reader.(read := false));
        case Data(bytes) =>
          l := l.(content := l.content + bytes);
          if EndsWith(l.content, "\n") {
            var lines := Split(l.content, '\n');
            var r := l.reader;
            for i := 0 to |lines|
              invariant r == Lines(l.reader, lines[..i], cache)
            {
              assert lines[..i + 1][..i] == lines[..i];
              r := HandleLine(r, lines[i], cache);
            }
            assert lines[..|lines|] == lines;
            l := l.(reader := r, content := "");
          }
      }
      assert l == Receive(before, ms[used], cache);
      used := used + 1;
    }
  }

  // ----- well-formed replies -----

  function Decimal(n: nat): string {
    if n < 10 then [('0' as int + n) as char] else Decimal(n / 10) + [('0' as int + n % 10) as char]
  }

  lemma {:induction false} DecimalDigits(n: nat)
    ensures Decimal(n) != [] && (forall i :: 0 <= i < |Decimal(n)| ==> IsDigit(Decimal(n)[i]))
    ensures Digits(Decimal(n)) == Ok(n)
  {
    if n < 10 {
      assert Decimal(n)[..0] == [];
    } else {
      DecimalDigits(n / 10);
      var d := Decimal(n);
      assert d[..|d| - 1] == Decimal(n / 10) && d[|d| - 1] as int - '0' as int == n % 10;
    }
  }

  lemma {:induction false} WordOf(w: string, rest: string)
    requires forall i :: 0 <= i < |w| ==> IsDigit(w[i])
    ensures Word(w + " " + rest) == w
  {
    if w == [] {
      assert (w + " " + rest)[0] == ' ';
    } else {
      assert (w + " " + rest)[1..] == w[1..] + " " + rest;
      WordOf(w[1..], rest);
    }
  }

  /** A number at the beginning of a line is read back. */
  lemma NumberRead(n: nat, rest: string)
    ensures var s := Decimal(n) + " " + rest;
            ToInt(FirstToken(s)) == Ok(n) && !Blank(s)
  {
    var s := Decimal(n) + " " + rest;
    DecimalDigits(n);
    WordOf(Decimal(n), rest);
    assert s[0] == Decimal(n)[0] && IsDigit(s[0]);
  }

  /** An error line: the number of a cache line and a message. */
  datatype Failure = Failure(idx: nat, message: string)

  function FailureLine(f: Failure): string { Decimal(f.idx) + " " + f.message }

  function FailureLines(fs: seq<Failure>): seq<string> {
    seq(|fs|, i requires 0 <= i < |fs| => FailureLine(fs[i]))
  }

  function ReplyLines(goAhead: string, fs: seq<Failure>): seq<string> {
    [goAhead, Decimal(|fs|) + " errors"] + FailureLines(fs)
  }

  /** Every line ends with a newline. */
  function Unlines(lines: seq<string>): string {
    if lines == [] then [] else lines[0] + "\n" + Unlines(lines[1..])
  }

  function Reports(fs: seq<Failure>, cache: seq<string>): seq<Report>
    requires forall f :: f in fs ==> 1 <= f.idx <= |cache|
  {
    if fs == [] then []
    else
      var f := fs[|fs| - 1];
      Reports(fs[..|fs| - 1], cache) + [Report(FailureLine(f), cache[f.idx - 1])]
  }

  ghost predicate WellFormed(goAhead: string, fs: seq<Failure>, cache: seq<string>) {
    && StartsWith(goAhead, "0 Go") && '\n' !in goAhead
    && (forall f :: f in fs ==> 1 <= f.idx <= |cache| && '\n' !in f.message)
  }

  /** The reader after the go-ahead line, the error count and k error lines. */
  function Expected(fs: seq<Failure>, k: nat, cache: seq<string>): Reader
    requires k <= |fs| && forall f :: f in fs ==> 1 <= f.idx <= |cache|
  {
    Reader(|fs| - k, k < |fs|, |fs|, Reports(fs[..k], cache), false)
  }

  lemma {:induction false} ReadFailures(goAhead: string, fs: seq<Failure>, cache: seq<string>, k: nat)
    requires WellFormed(goAhead, fs, cache) && k <= |fs|
    ensures Lines(Start(), ReplyLines(goAhead, fs)[..k + 2], cache) == Expected(fs, k, cache)
  {
    var lines := ReplyLines(goAhead, fs);
    if k == 0 {
      HeaderRead(goAhead, |fs|, cache);
      assert lines[..2] == [goAhead, Decimal(|fs|) + " errors"];
    } else {
      ReadFailures(goAhead, fs, cache, k - 1);
      var f := fs[k - 1];
      assert lines[..k + 2][..k + 1] == lines[..k + 1] && lines[..k + 2][k + 1] == FailureLine(f);
      assert f in fs;
      hide Expected, Line, ReplyLines, FailureLine, WellFormed;
      FailureRead(fs, k, cache);
    }
  }

  /** One more error line. */
  lemma FailureRead(fs: seq<Failure>, k: nat, cache: seq<string>)
    requires 0 < k <= |fs| && forall f :: f in fs ==> 1 <= f.idx <= |cache|
    ensures Line(Expected(fs, k - 1, cache), FailureLine(fs[k - 1]), cache) == Expected(fs, k, cache)
  {
    var f := fs[k - 1];
    assert fs[..k][..k - 1] == fs[..k - 1] && f in fs;
    NumberRead(f.idx, f.message);
    hide ToInt, FirstToken, Blank, Decimal;
  }

  /** Any error line: its number leads to the cache line with that number; 0 leads to the last one,
      since the list is indexed from the end then; a number that is too large raises an exception. */
  lemma ErrorLineExact(r: Reader, f: Failure, cache: seq<string>)
    requires !r.raised && r.skip != 0
    ensures var t := Line(r, FailureLine(f), cache);
            && t.skip == r.skip - 1 && t.errcount == r.errcount
            && (t.raised <==> f.idx > |cache| || cache == [])
            && (!t.raised ==>
                  var about := cache[if f.idx == 0 then |cache| - 1 else f.idx - 1];
                  t.reports == r.reports + [Report(FailureLine(f), about)] && t.read == (r.read && t.skip != 0))
            && (t.raised ==> t.reports == r.reports && t.read == r.read)
  {
    NumberRead(f.idx, f.message);
    hide ToInt, FirstToken, Blank, Decimal;
  }

  lemma HeaderRead(goAhead: string, n: nat, cache: seq<string>)
    requires StartsWith(goAhead, "0 Go")
    ensures Lines(Start(), [goAhead], cache) == Start()
    ensures Lines(Start(), [goAhead, Decimal(n) + " errors"], cache) == Reader(n, n > 0, n, [], false)
  {
    var count := Decimal(n) + " " + "errors";
    assert count == Decimal(n) + " errors";
    NumberRead(n, "errors");
    DecimalDigits(n);
    assert count[|count| - 6..] == "errors";
    assert !StartsWith(count, "0 Go") by {
      if |Decimal(n)| == 1 {
        assert count[2] == 'e';
      } else {
        assert IsDigit(count[1]);
      }
      assert "0 Go"[1] == ' ' && "0 Go"[2] == 'G';
      assert |count| >= 4 ==> count[..4][1] == count[1] && count[..4][2] == count[2];
    }
    var two := [goAhead, Decimal(n) + " errors"];
    assert two[..1] == [goAhead] && [goAhead][..0] == [];
    assert goAhead[..4][1] == goAhead[1];
    assert !Blank(goAhead) by { assert goAhead[0] == goAhead[..4][0] == '0'; }
  }

  /** As long as a line is missing, the loop goes on. */
  lemma StillReading(goAhead: string, fs: seq<Failure>, cache: seq<string>, k: nat)
    requires WellFormed(goAhead, fs, cache) && k < |fs| + 2
    ensures var r := Lines(Start(), ReplyLines(goAhead, fs)[..k], cache); r.read && !r.raised
  {
    var lines := ReplyLines(goAhead, fs);
    if k >= 2 {
      ReadFailures(goAhead, fs, cache, k - 2);
    } else if k == 1 {
      HeaderRead(goAhead, |fs|, cache);
      assert lines[..1] == [goAhead];
    }
  }

  // ----- chunks -----

  lemma {:induction false} LinesAppend(r: Reader, a: seq<string>, b: seq<string>, cache: seq<string>)
    ensures Lines(r, a + b, cache) == Lines(Lines(r, a, cache), b, cache)
  {
    if b == [] {
      assert a + b == a;
    } else {
      assert (a + b)[..|a + b| - 1] == a + b[..|b| - 1];
      LinesAppend(r, a, b[..|b| - 1], cache);
    }
  }

  lemma {:induction false} SplitUnlines(lines: seq<string>)
    requires forall l :: l in lines ==> '\n' !in l
    ensures Split(Unlines(lines), '\n') == lines + [""]
  {
    if lines == [] {
    } else {
      SplitUnlines(lines[1..]);
      SplitNone(lines[0], '\n');
      SplitAppend(lines[0], Unlines(lines[1..]), '\n');
      assert lines == [lines[0]] + lines[1..];
    }
  }

  lemma {:induction false} UnlinesAppend(a: seq<string>, b: seq<string>)
    ensures Unlines(a + b) == Unlines(a) + Unlines(b)
  {
    if a == [] {
      assert a + b == b;
    } else {
      assert (a + b)[1..] == a[1..] + b;
      UnlinesAppend(a[1..], b);
    }
  }

  /** A beginning of the text that ends with a newline consists of whole lines. */
  lemma {:induction false} WholeLines(lines: seq<string>, p: string, rest: string) returns (k: nat)
    requires forall l :: l in lines ==> '\n' !in l
    requires p + rest == Unlines(lines) && EndsWith(p, "\n")
    ensures k <= |lines| && p == Unlines(lines[..k]) && rest == Unlines(lines[k..])
  {
    var first := lines[0] + "\n";
    FirstLine(lines, p, rest);
    var p' := p[|first|..];
    assert p == first + p';
    if p' == "" {
      k := 1;
      assert lines[..1][1..] == [];
    } else {
      var j := WholeLines(lines[1..], p', rest);
      k := j + 1;
      assert lines[..k][1..] == lines[1..][..j] && lines[k..] == lines[1..][j..];
    }
  }

  /** It begins with the first line, and goes on with a beginning of the others. */
  lemma FirstLine(lines: seq<string>, p: string, rest: string)
    requires forall l :: l in lines ==> '\n' !in l
    requires p + rest == Unlines(lines) && EndsWith(p, "\n")
    ensures lines != []
    ensures var first := lines[0] + "\n";
            && |p| >= |first| && p[..|first|] == first && p[|first|..] + rest == Unlines(lines[1..])
            && (p[|first|..] != "" ==> EndsWith(p[|first|..], "\n"))
  {
    var first := lines[0] + "\n";
    var text := Unlines(lines);
    assert forall i :: 0 <= i < |lines[0]| ==> text[i] == lines[0][i] && lines[0][i] in lines[0];
    assert p[|p| - 1] == p[|p| - 1..][0] && text[|p| - 1] == p[|p| - 1];
    assert |p| >= |first|;
    assert text[..|first|] == first && p[..|first|] == first;
    var p' := p[|first|..];
    if p' != "" { assert p'[|p'| - 1..] == p[|p| - 1..]; }
  }

  function Bytes(ms: seq<Received>): string {
    if ms == [] then [] else (if ms[0].Data? then ms[0].bytes else []) + Bytes(ms[1..])
  }

  ghost predicate NonEmptyData(ms: seq<Received>) {
    forall m :: m in ms ==> m.Data? && m.bytes != []
  }

  /** Lines that are complete at the end of a chunk are handled then and only then. */
  lemma HandleWhole(r: Reader, lines: seq<string>, k: nat, cache: seq<string>)
    requires forall l :: l in lines ==> '\n' !in l
    requires k <= |lines|
    ensures Lines(r, Split(Unlines(lines[..k]), '\n'), cache) == Lines(r, lines[..k], cache)
  {
    SplitUnlines(lines[..k]);
    assert (lines[..k] + [""])[..k] == lines[..k];
    assert Blank("");
  }

  ghost predicate Clean(lines: seq<string>) {
    lines != [] && forall l :: l in lines ==> '\n' !in l
  }

  /** No beginning of the lines ends the loop. */
  ghost predicate NeedsAll(lines: seq<string>, cache: seq<string>) {
    forall k :: 0 <= k < |lines| ==> var r := Lines(Start(), lines[..k], cache); r.read && !r.raised
  }

  /** The loop with n lines handled and some content pending. */
  function Pending(lines: seq<string>, n: nat, content: string, cache: seq<string>): Loop
    requires n <= |lines|
  {
    Loop(Lines(Start(), lines[..n], cache), content, false)
  }

  lemma OneChunk(lines: seq<string>, n: nat, content: string, bytes: string, rest: string, cache: seq<string>)
    returns (n': nat, content': string)
    requires Clean(lines) && n <= |lines| && bytes != [] && !EndsWith(content, "\n")
    requires content + (bytes + rest) == Unlines(lines[n..])
    ensures n < |lines| && n' <= |lines| && !EndsWith(content', "\n") && content' + rest == Unlines(lines[n'..])
    ensures Receive(Pending(lines, n, content, cache), Data(bytes), cache) == Pending(lines, n', content', cache)
  {
    hide Lines, Split;
    assert n < |lines|;
    var next := content + bytes;
    assert next + rest == content + (bytes + rest);
    if EndsWith(next, "\n") {
      var k := WholeLines(lines[n..], next, rest);
      HandleWhole(Lines(Start(), lines[..n], cache), lines[n..], k, cache);
      LinesAppend(Start(), lines[..n], lines[n..][..k], cache);
      assert lines[..n] + lines[n..][..k] == lines[..n + k] && lines[n..][k..] == lines[n + k..];
      n', content' := n + k, "";
    } else {
      n', content' := n, next;
    }
  }

  /** Whatever comes in which chunks: with all of them every line is handled, with one missing the
      loop is still going. */
  lemma {:induction false} AnyChunks(lines: seq<string>, n: nat, content: string, ms: seq<Received>, j: nat,
                                     cache: seq<string>)
    requires Clean(lines) && NeedsAll(lines, cache) && n <= |lines| && j <= |ms|
    requires NonEmptyData(ms) && content + Bytes(ms) == Unlines(lines[n..]) && !EndsWith(content, "\n")
    ensures var l := Receives(Pending(lines, n, content, cache), ms[..j], cache);
            if j == |ms| then l == Pending(lines, |lines|, "", cache) else Going(l)
    decreases |ms|
  {
    hide Receive, Lines, Unlines, EndsWith;
    if ms == [] {
      NoIncompleteLine(lines[n..], content);
    } else {
      assert ms[0] in ms && forall m :: m in ms[1..] ==> m in ms;
      var n', content' := OneChunk(lines, n, content, ms[0].bytes, Bytes(ms[1..]), cache);
      if j > 0 {
        assert ms[..j][0] == ms[0] && ms[..j][1..] == ms[1..][..j - 1];
        AnyChunks(lines, n', content', ms[1..], j - 1, cache);
      }
    }
  }

  lemma NoIncompleteLine(lines: seq<string>, content: string)
    requires content == Unlines(lines) && !EndsWith(content, "\n")
    ensures lines == [] && content == ""
  {
    if lines != [] { UnlinesEnd(lines); }
  }

  lemma {:induction false} UnlinesEnd(lines: seq<string>)
    requires lines != []
    ensures EndsWith(Unlines(lines), "\n")
  {
    if |lines| > 1 {
      UnlinesEnd(lines[1..]);
      var u, v := Unlines(lines), Unlines(lines[1..]);
      assert u[|u| - 1..] == v[|v| - 1..];
    } else {
      assert Unlines(lines[1..]) == [];
    }
  }

  /** Chunk independence: however a well-formed reply is cut into non-empty chunks, the loop ends
      after the last chunk and not before, with the number of errors and every error line paired
      with the cache line it numbers. */
  lemma ChunkIndependence(goAhead: string, fs: seq<Failure>, cache: seq<string>, ms: seq<Received>)
    requires WellFormed(goAhead, fs, cache) && NonEmptyData(ms)
    requires Bytes(ms) == Unlines(ReplyLines(goAhead, fs))
    ensures Receives(Loop(Start(), "", false), ms, cache)
         == Loop(Reader(0, false, |fs|, Reports(fs, cache), false), "", false)
    ensures forall k :: 0 <= k < |ms| ==> Going(Receives(Loop(Start(), "", false), ms[..k], cache))
  {
    var lines := ReplyLines(goAhead, fs);
    ReplyLinesClean(goAhead, fs, cache);
    assert NeedsAll(lines, cache) by {
      forall k | 0 <= k < |lines| ensures var r := Lines(Start(), lines[..k], cache); r.read && !r.raised {
        StillReading(goAhead, fs, cache, k);
      }
    }
    assert lines[0..] == lines && lines[..0] == [] && ms[..|ms|] == ms;
    assert Pending(lines, 0, "", cache) == Loop(Start(), "", false);
    AnyChunks(lines, 0, "", ms, |ms|, cache);
    ReadFailures(goAhead, fs, cache, |fs|);
    assert fs[..|fs|] == fs;
    forall k | 0 <= k < |ms| ensures Going(Receives(Loop(Start(), "", false), ms[..k], cache)) {
      AnyChunks(lines, 0, "", ms, k, cache);
    }
  }

  // ----- when the loop ends -----

  ghost predicate OnlyData(ms: seq<Received>) { forall m :: m in ms ==> m.Data? }

  /** The chunks that are not empty. */
  function Filled(ms: seq<Received>): seq<Received> {
    if ms == [] then []
    else if ms[0] == Data("") then Filled(ms[1..]) else [ms[0]] + Filled(ms[1..])
  }

  lemma {:induction false} FilledBytes(ms: seq<Received>)
    requires OnlyData(ms)
    ensures NonEmptyData(Filled(ms)) && Bytes(Filled(ms)) == Bytes(ms)
  {
    if ms != [] {
      assert ms[0] in ms && forall m :: m in ms[1..] ==> m in ms;
      FilledBytes(ms[1..]);
      if ms[0] != Data("") { assert Filled(ms)[1..] == Filled(ms[1..]); }
    }
  }

  /** An empty chunk, as a closed connection gives without end, changes nothing. */
  lemma EmptyChunk(l: Loop, cache: seq<string>)
    requires !EndsWith(l.content, "\n")
    ensures Receive(l, Data(""), cache) == l
  {
    assert l.content + "" == l.content;
  }

  lemma ContentOpen(l: Loop, m: Received, cache: seq<string>)
    requires !EndsWith(l.content, "\n")
    ensures !EndsWith(Receive(l, m, cache).content, "\n")
  {}

  lemma {:induction false} EmptyChunks(l: Loop, ms: seq<Received>, cache: seq<string>)
    requires !EndsWith(l.content, "\n")
    ensures Receives(l, ms, cache) == Receives(l, Filled(ms), cache)
    decreases |ms|
  {
    hide Receive, EndsWith;
    if ms != [] && Going(l) {
      if ms[0] == Data("") {
        EmptyChunk(l, cache);
        EmptyChunks(l, ms[1..], cache);
      } else {
        assert Filled(ms)[1..] == Filled(ms[1..]);
        ContentOpen(l, ms[0], cache);
        EmptyChunks(Receive(l, ms[0], cache), ms[1..], cache);
      }
    }
  }

  /** A communication error is noted exactly if one was met while the loop was going, and it ends the
      loop. */
  lemma {:induction false} ComErrorExact(l: Loop, ms: seq<Received>, cache: seq<string>)
    requires !l.comError
    ensures var r := Receives(l, ms, cache);
            && (r.comError <==> exists i :: 0 <= i < |ms| && ms[i].IoError? && Going(Receives(l, ms[..i], cache)))
            && (r.comError ==> !Going(r))
    decreases |ms|
  {
    if ms != [] && Going(l) {
      var next := Receive(l, ms[0], cache);
      if ms[0].IoError? {
        assert ms[..0] == [] && Receives(next, ms[1..], cache) == next;
      } else {
        hide Receive;
        assert !next.comError by { DataNoError(l, ms[0], cache); }
        ComErrorExact(next, ms[1..], cache);
        forall i | 0 < i <= |ms| ensures Receives(l, ms[..i], cache) == Receives(next, ms[1..][..i - 1], cache) {
          assert ms[..i][0] == ms[0] && ms[..i][1..] == ms[1..][..i - 1];
        }
        if i :| 0 <= i < |ms[1..]| && ms[1..][i].IoError? && Going(Receives(next, ms[1..][..i], cache)) {
          assert ms[i + 1].IoError? && Going(Receives(l, ms[..i + 1], cache));
        }
        if i :| 0 <= i < |ms| && ms[i].IoError? && Going(Receives(l, ms[..i], cache)) {
          assert i > 0 && ms[1..][i - 1].IoError? && Going(Receives(next, ms[1..][..i - 1], cache));
        }
      }
    } else {
      forall i | 0 <= i < |ms| ensures !Going(Receives(l, ms[..i], cache)) {}
    }
  }

  lemma DataNoError(l: Loop, m: Received, cache: seq<string>)
    requires m.Data?
    ensures Receive(l, m, cache).comError == l.comError
  {}

  lemma BytesSnoc(ms: seq<Received>, rest: string)
    ensures Bytes(ms + [Data(rest)]) == Bytes(ms) + rest
    decreases |ms|
  {
    if ms == [] {
      assert [Data(rest)][1..] == [];
    } else {
      assert (ms + [Data(rest)])[1..] == ms[1..] + [Data(rest)];
      BytesSnoc(ms[1..], rest);
    }
  }

  /** When the loop ends: for chunks of any size, also empty ones, of the beginning of a well-formed
      reply, it is still waiting exactly if something of the reply is missing. So if the connection
      is closed before the whole reply has come, no number of empty chunks ends it. */
  lemma EndsExactly(goAhead: string, fs: seq<Failure>, cache: seq<string>, ms: seq<Received>, rest: string)
    requires WellFormed(goAhead, fs, cache) && OnlyData(ms)
    requires Bytes(ms) + rest == Unlines(ReplyLines(goAhead, fs))
    ensures var l := Receives(Loop(Start(), "", false), ms, cache);
            if rest == "" then l == Loop(Reader(0, false, |fs|, Reports(fs, cache), false), "", false) else Going(l)
  {
    var start, filled := Loop(Start(), "", false), Filled(ms);
    EmptyChunks(start, ms, cache);
    FilledBytes(ms);
    hide Receives, Unlines, ReplyLines, WellFormed, Bytes, Reports, Start;
    if rest == "" {
      ChunkIndependence(goAhead, fs, cache, filled);
    } else {
      var all := filled + [Data(rest)];
      BytesSnoc(filled, rest);
      ChunkIndependence(goAhead, fs, cache, all);
      assert all[..|filled|] == filled;
    }
  }

  lemma ReplyLinesClean(goAhead: string, fs: seq<Failure>, cache: seq<string>)
    requires WellFormed(goAhead, fs, cache)
    ensures forall l :: l in ReplyLines(goAhead, fs) ==> '\n' !in l
  {
    var lines := ReplyLines(goAhead, fs);
    DecimalDigits(|fs|);
    forall i | 0 <= i < |lines| ensures '\n' !in lines[i] {
      if i >= 2 {
        DecimalDigits(fs[i - 2].idx);
        assert fs[i - 2] in fs;
      }
    }
  }
}
