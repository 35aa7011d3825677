/**
 * Text handling on the serial read path: the .NET String.Split(char) that
 * breaks a status line into tokens, its inverse Join, and String.Trim as
 * applied to every line read from the port.
 */
module Tokens {

  /** Split on one separator character, as .NET String.Split(char) does with
      default options: every separator ends a piece, empty pieces are kept,
      so "a,,b" gives ["a", "", "b"] and "" gives [""]. */
  function Split(s: string, sep: char): (r: seq<string>)
    ensures |r| >= 1
    ensures SepFree(r, sep)
    decreases |s|
  {
    if s == [] then [""]
    else
      var rest := Split(s[1..], sep);
      if s[0] == sep then [""] + rest
      else [[s[0]] + rest[0]] + rest[1..]
  }

  /** No piece contains the separator. */
  predicate SepFree(ts: seq<string>, sep: char) {
    forall x :: x in ts ==> sep !in x
  }

  /** String.Join with one separator character. */
  function Join(ts: seq<string>, sep: char): string
    requires |ts| >= 1
    decreases |ts|
  {
    if |ts| == 1 then ts[0] else ts[0] + [sep] + Join(ts[1..], sep)
  }

  /** Joining the pieces of a split gives back the line. */
  lemma {:induction false} JoinSplit(s: string, sep: char)
    ensures Join(Split(s, sep), sep) == s
    decreases |s|
  {
    if s != [] {
      var rest := Split(s[1..], sep);
      JoinSplit(s[1..], sep);
      if s[0] == sep {
        assert ([""] + rest)[1..] == rest;
      } else {
        var t := [[s[0]] + rest[0]] + rest[1..];
        assert t[1..] == rest[1..];
        assert s == [s[0]] + s[1..];
      }
    }
  }

  /** A separator-free prefix glues onto the first piece of what follows. */
  lemma {:induction false} SplitGlue(t: string, s: string, sep: char)
    requires sep !in t
    ensures Split(t + s, sep) == [t + Split(s, sep)[0]] + Split(s, sep)[1..]
    decreases |t|
  {
    var r := Split(s, sep);
    if t == [] {
      assert t + s == s;
      assert t + r[0] == r[0];
      assert [r[0]] + r[1..] == r;
    } else {
      assert (t + s)[1..] == t[1..] + s;
      SplitGlue(t[1..], s, sep);
      assert [t[0]] + (t[1..] + Split(s, sep)[0]) == t + Split(s, sep)[0];
    }
  }

  /** A line without the separator is a single piece. */
  lemma SplitSingle(s: string, sep: char)
    requires sep !in s
    ensures Split(s, sep) == [s]
  {
    SplitGlue(s, [], sep);
    assert s + [] == s;
  }

  /** Splitting a join of separator-free pieces gives back the pieces. */
  lemma {:induction false} SplitJoin(ts: seq<string>, sep: char)
    requires |ts| >= 1
    requires SepFree(ts, sep)
    ensures Split(Join(ts, sep), sep) == ts
    decreases |ts|
  {
    if |ts| == 1 {
      SplitGlue(ts[0], [], sep);
      assert ts[0] + [] == ts[0];
    } else {
      var j := Join(ts[1..], sep);
      assert SepFree(ts[1..], sep) by {
        forall x | x in ts[1..] ensures sep !in x { assert x in ts; }
      }
      SplitJoin(ts[1..], sep);
      assert ([sep] + j)[1..] == j;
      assert ([sep] + j)[0] == sep;
      assert Split([sep] + j, sep) == [""] + ts[1..];
      assert sep !in ts[0] by { assert ts[0] in ts; }
      SplitGlue(ts[0], [sep] + j, sep);
      assert Join(ts, sep) == ts[0] + ([sep] + j);
      assert ts[0] + "" == ts[0];
      assert ts == [ts[0]] + ts[1..];
    }
  }

  /** A separator-free token appears among the pieces of any line built by
      joining it with other separator-free tokens, wherever it stands. */
  lemma TokenFound(before: seq<string>, t: string, after: seq<string>, sep: char)
    requires sep !in t
    requires SepFree(before, sep) && SepFree(after, sep)
    ensures t in Split(Join(before + [t] + after, sep), sep)
  {
    var ts := before + [t] + after;
    assert ts[|before|] == t;
    SplitJoin(ts, sep);
  }

  /** The characters .NET Char.IsWhiteSpace accepts: U+0009 to U+000D, the
      space separators (Zs), U+0085, and the line and paragraph separators. */
  predicate IsWhiteSpace(c: char) {
    ('\U{0009}' <= c <= '\U{000D}') || c == ' ' || c == '\U{0085}' || c == '\U{00A0}'
    || c == '\U{1680}' || ('\U{2000}' <= c <= '\U{200A}') || c == '\U{2028}'
    || c == '\U{2029}' || c == '\U{202F}' || c == '\U{205F}' || c == '\U{3000}'
  }

  /** String.TrimStart(): drop the leading white space. */
  function TrimStart(s: string): (r: string)
    ensures |r| <= |s| && r == s[|s| - |r|..]
    ensures r == [] || !IsWhiteSpace(r[0])
    ensures forall i :: 0 <= i < |s| - |r| ==> IsWhiteSpace(s[i])
    decreases |s|
  {
    if s != [] && IsWhiteSpace(s[0]) then TrimStart(s[1..]) else s
  }

  /** String.TrimEnd(): drop the trailing white space. */
  function TrimEnd(s: string): (r: string)
    ensures |r| <= |s| && r == s[..|r|]
    ensures r == [] || !IsWhiteSpace(r[|r| - 1])
    ensures forall i :: |r| <= i < |s| ==> IsWhiteSpace(s[i])
    decreases |s|
  {
    if s != [] && IsWhiteSpace(s[|s| - 1]) then TrimEnd(s[..|s| - 1]) else s
  }

  /** String.Trim(): the line without leading and trailing white space. */
  function Trim(s: string): (r: string)
    ensures |r| <= |s|
    ensures r == [] || (!IsWhiteSpace(r[0]) && !IsWhiteSpace(r[|r| - 1]))
  {
    TrimEnd(TrimStart(s))
  }

  /** Trim removes exactly the white-space margins: whatever the margins,
      the trimmed core comes back unchanged, case and inner spaces kept. */
  lemma TrimExact(w1: string, m: string, w2: string)
    requires forall i :: 0 <= i < |w1| ==> IsWhiteSpace(w1[i])
    requires forall i :: 0 <= i < |w2| ==> IsWhiteSpace(w2[i])
    requires m == [] || (!IsWhiteSpace(m[0]) && !IsWhiteSpace(m[|m| - 1]))
    ensures Trim(w1 + m + w2) == m
  {
    var s := w1 + m + w2;
    var a := TrimStart(s);
    if m == [] {
      assert a == [];
    } else {
      var k := |s| - |a|;
      assert !IsWhiteSpace(s[|w1|]);
      assert k <= |w1|;
      assert a[0] == s[k];
      assert k == |w1|;
      assert a == m + w2;
      var b := TrimEnd(a);
      var n := |b|;
      assert !IsWhiteSpace(a[|m| - 1]);
      assert n >= |m|;
      assert b[n - 1] == a[n - 1];
      assert n == |m|;
      assert b == m;
    }
  }

  /** Trimming twice is trimming once. */
  lemma TrimIdempotent(s: string)
    ensures Trim(Trim(s)) == Trim(s)
  {
    var t := Trim(s);
    TrimExact([], t, []);
    assert [] + t + [] == t;
  }
}
