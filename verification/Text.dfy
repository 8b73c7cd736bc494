/** Splitting, joining and replacing in strings, as Python does. */
module Text {

  function Split(s: string, c: char): (r: seq<string>)
    ensures r != []
  {
    if s == [] then [[]]
    else
      var rest := Split(s[1..], c);
      if s[0] == c then [[]] + rest else [[s[0]] + rest[0]] + rest[1..]
  }

  function Join(parts: seq<string>, c: char): string {
    if parts == [] then []
    else if |parts| == 1 then parts[0]
    else parts[0] + [c] + Join(parts[1..], c)
  }

  function Count(s: string, c: char): nat {
    if s == [] then 0 else (if s[0] == c then 1 else 0) + Count(s[1..], c)
  }

  function Replace(s: string, a: char, b: char): (r: string)
    ensures |r| == |s| && forall i :: 0 <= i < |s| ==> r[i] == if s[i] == a then b else s[i]
  {
    seq(|s|, i requires 0 <= i < |s| => if s[i] == a then b else s[i])
  }

  function Remove(s: string, c: char): string {
    if s == [] then [] else if s[0] == c then Remove(s[1..], c) else [s[0]] + Remove(s[1..], c)
  }

  lemma {:induction false} CountAppend(s: string, t: string, c: char)
    ensures Count(s + t, c) == Count(s, c) + Count(t, c)
  {
    if s == [] {
      assert s + t == t;
    } else {
      assert (s + t)[1..] == s[1..] + t;
      CountAppend(s[1..], t, c);
    }
  }

  lemma {:induction false} CountZero(s: string, c: char)
    ensures Count(s, c) == 0 <==> c !in s
  {
    if s != [] {
      CountZero(s[1..], c);
      assert s == [s[0]] + s[1..];
    }
  }

  lemma {:induction false} SplitNone(s: string, c: char)
    requires c !in s
    ensures Split(s, c) == [s]
  {
    if s != [] {
      SplitNone(s[1..], c);
      assert s == [s[0]] + s[1..];
    }
  }

  lemma {:induction false} SplitAppend(s: string, t: string, c: char)
    ensures Split(s + [c] + t, c) == Split(s, c) + Split(t, c)
  {
    if s == [] {
      assert s + [c] + t == [c] + t;
    } else {
      assert (s + [c] + t)[1..] == s[1..] + [c] + t;
      SplitAppend(s[1..], t, c);
    }
  }

  function Concat<T>(parts: seq<seq<T>>): seq<T> {
    if parts == [] then [] else parts[0] + Concat(parts[1..])
  }

  function SplitAll(parts: seq<string>, c: char): seq<seq<string>> {
    seq(|parts|, i requires 0 <= i < |parts| => Split(parts[i], c))
  }

  /** Splitting a joined text gives the pieces of all parts. */
  lemma {:induction false} SplitJoin(parts: seq<string>, c: char)
    requires parts != []
    ensures Split(Join(parts, c), c) == Concat(SplitAll(parts, c))
  {
    assert SplitAll(parts, c)[1..] == SplitAll(parts[1..], c);
    if |parts| == 1 {
      assert Concat(SplitAll(parts, c)[1..]) == [];
    } else {
      SplitJoin(parts[1..], c);
      SplitAppend(parts[0], Join(parts[1..], c), c);
    }
  }

  /** Splitting undoes joining when no part contains the separator. */
  lemma {:induction false} SplitJoinExact(parts: seq<string>, c: char)
    requires parts != [] && forall p :: p in parts ==> c !in p
    ensures Split(Join(parts, c), c) == parts
  {
    SplitNone(parts[0], c);
    if |parts| > 1 {
      SplitJoinExact(parts[1..], c);
      SplitAppend(parts[0], Join(parts[1..], c), c);
    }
  }

  lemma ReplaceAppend(s: string, t: string, a: char, b: char)
    ensures Replace(s + t, a, b) == Replace(s, a, b) + Replace(t, a, b)
  {}

  lemma JoinHead(x: char, rest: seq<string>, d: char)
    requires rest != []
    ensures Join([[x] + rest[0]] + rest[1..], d) == [x] + Join(rest, d)
  {
    var t := [[x] + rest[0]] + rest[1..];
    assert t[1..] == rest[1..];
    if |rest| > 1 {
      assert ([x] + rest[0]) + [d] + Join(rest[1..], d) == [x] + (rest[0] + [d] + Join(rest[1..], d));
    }
  }

  lemma JoinEmptyHead(rest: seq<string>, d: char)
    requires rest != []
    ensures Join([[]] + rest, d) == [d] + Join(rest, d)
  {
    assert ([[]] + rest)[1..] == rest;
  }

  /** Joining the pieces with another character replaces the separator. */
  lemma {:induction false} JoinSplit(s: string, c: char, d: char)
    ensures Join(Split(s, c), d) == Replace(s, c, d)
  {
    if s != [] {
      var rest := Split(s[1..], c);
      JoinSplit(s[1..], c, d);
      ReplaceAppend([s[0]], s[1..], c, d);
      assert s == [s[0]] + s[1..];
      hide Join, Replace;
      if s[0] == c {
        JoinEmptyHead(rest, d);
      } else {
        JoinHead(s[0], rest, d);
      }
    }
  }

  function ReplaceAll(parts: seq<string>, a: char, b: char): seq<string> {
    seq(|parts|, i requires 0 <= i < |parts| => Replace(parts[i], a, b))
  }

  lemma {:induction false} ReplaceJoin(parts: seq<string>, c: char, a: char, b: char)
    requires c != a
    ensures Replace(Join(parts, c), a, b) == Join(ReplaceAll(parts, a, b), c)
  {
    assert parts != [] ==> ReplaceAll(parts, a, b)[1..] == ReplaceAll(parts[1..], a, b);
    if |parts| > 1 {
      ReplaceJoin(parts[1..], c, a, b);
      ReplaceAppend(parts[0] + [c], Join(parts[1..], c), a, b);
      ReplaceAppend(parts[0], [c], a, b);
      assert Replace([c], a, b) == [c];
    }
  }

  lemma {:induction false} CountJoin(parts: seq<string>, c: char)
    requires parts != [] && forall p :: p in parts ==> c !in p
    ensures Count(Join(parts, c), c) == |parts| - 1
  {
    CountZero(parts[0], c);
    if |parts| > 1 {
      CountJoin(parts[1..], c);
      CountAppend(parts[0] + [c], Join(parts[1..], c), c);
      CountAppend(parts[0], [c], c);
    }
  }

  function RemoveAll(parts: seq<string>, c: char): seq<string> {
    seq(|parts|, i requires 0 <= i < |parts| => Remove(parts[i], c))
  }

  lemma {:induction false} RemoveAppend(s: string, t: string, c: char)
    ensures Remove(s + t, c) == Remove(s, c) + Remove(t, c)
  {
    if s == [] {
      assert s + t == t;
    } else {
      assert (s + t)[1..] == s[1..] + t;
      RemoveAppend(s[1..], t, c);
    }
  }

  lemma {:induction false} RemoveJoin(parts: seq<string>, c: char, x: char)
    requires c != x
    ensures Remove(Join(parts, c), x) == Join(RemoveAll(parts, x), c)
  {
    assert parts != [] ==> RemoveAll(parts, x)[1..] == RemoveAll(parts[1..], x);
    if |parts| > 1 {
      RemoveJoin(parts[1..], c, x);
      RemoveAppend(parts[0] + [c], Join(parts[1..], c), x);
      RemoveAppend(parts[0], [c], x);
      assert Remove([c], x) == [c];
    }
  }
}
