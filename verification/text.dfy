/** The JavaScript string operations the generator relies on, over
    `string` = `seq<char>`: `split` on one character, `join`, `trim`,
    `' '.repeat(n)`, and the `indent` helper built from them. */
module Text {
  import opened Seqs

  predicate StartsWith(s: string, prefix: string) {
    |prefix| <= |s| && s[..|prefix|] == prefix
  }

  /** A line cannot start with a prefix it disagrees with at some position. */
  lemma DiffersAt(s: string, prefix: string, i: nat)
    requires i < |s| && i < |prefix| && s[i] != prefix[i]
    ensures !StartsWith(s, prefix)
  {
  }

  lemma StartsWithConcat(p: string, x: string)
    ensures StartsWith(p + x, p)
  {
    assert (p + x)[..|p|] == p;
  }

  /** `' '.repeat(n)` */
  function Spaces(n: nat): (r: string)
    ensures |r| == n
    ensures forall i :: 0 <= i < n ==> r[i] == ' '
  {
    if n == 0 then "" else " " + Spaces(n - 1)
  }

  /** `parts.join(sep)`: the empty list joins to the empty string. */
  function Join(parts: seq<string>, sep: string): string
  {
    if |parts| == 0 then ""
    else if |parts| == 1 then parts[0]
    else parts[0] + sep + Join(parts[1..], sep)
  }

  /** The text the source accumulates with `yaml += "\n" + line`, one line at
      a time. */
  function PrefixEach(sep: string, lines: seq<string>): string
  {
    if |lines| == 0 then "" else sep + lines[0] + PrefixEach(sep, lines[1..])
  }

  /** Joining is the same as taking the first line and appending `sep + line`
      for every further line, which is how the source builds its output. */
  lemma {:induction false} JoinIsAccumulation(lines: seq<string>, sep: string)
    requires |lines| > 0
    ensures Join(lines, sep) == lines[0] + PrefixEach(sep, lines[1..])
  {
    if |lines| == 1 {
    } else {
      JoinIsAccumulation(lines[1..], sep);
      assert lines[1..][1..] == lines[2..];
    }
  }

  lemma {:induction false} PrefixEachConcat(sep: string, a: seq<string>, b: seq<string>)
    ensures PrefixEach(sep, a + b) == PrefixEach(sep, a) + PrefixEach(sep, b)
  {
    if |a| == 0 {
      assert a + b == b;
    } else {
      assert (a + b)[1..] == a[1..] + b;
      PrefixEachConcat(sep, a[1..], b);
    }
  }

  /** `s.split(sep)` for a one-character separator: the pieces between
      separators, always at least one (`"".split(",")` is `[""]`). Each
      character either closes the current piece or extends it. */
  function Split(s: string, sep: char): (parts: seq<string>)
    ensures |parts| > 0
    ensures forall i :: 0 <= i < |parts| ==> sep !in parts[i]
    decreases |s|
  {
    if |s| == 0 then [""]
    else
      var rest := Split(s[1..], sep);
      if s[0] == sep then [""] + rest
      else
        assert forall i :: 1 <= i < |rest| ==> rest[i] == rest[1..][i - 1];
        [[s[0]] + rest[0]] + rest[1..]
  }

  /** A piece without the separator is split into itself. */
  lemma {:induction false} SplitNone(s: string, sep: char)
    requires sep !in s
    ensures Split(s, sep) == [s]
    decreases |s|
  {
    if |s| > 0 {
      assert sep !in s[1..];
      SplitNone(s[1..], sep);
      assert [s[0]] + s[1..] == s;
    }
  }

  /** Joining the pieces back with the separator restores the text. */
  lemma {:induction false} JoinSplit(s: string, sep: char)
    ensures Join(Split(s, sep), [sep]) == s
    decreases |s|
  {
    if |s| > 0 {
      var rest := Split(s[1..], sep);
      JoinSplit(s[1..], sep);
      if s[0] == sep {
        assert s == [sep] + s[1..];
      } else {
        JoinCons(s[0], rest, [sep]);
        assert s == [s[0]] + s[1..];
      }
    }
  }

  /** Extending the first piece extends the joined text. */
  lemma JoinCons(c: char, parts: seq<string>, sep: string)
    requires |parts| > 0
    ensures Join([[c] + parts[0]] + parts[1..], sep) == [c] + Join(parts, sep)
  {
    var q := [[c] + parts[0]] + parts[1..];
    assert q[1..] == parts[1..];
  }

  /** Splitting a join of separator-free pieces gives the pieces back. */
  lemma {:induction false} SplitJoin(parts: seq<string>, sep: char)
    requires |parts| > 0
    requires forall i :: 0 <= i < |parts| ==> sep !in parts[i]
    ensures Split(Join(parts, [sep]), sep) == parts
  {
    if |parts| == 1 {
      SplitNone(parts[0], sep);
    } else {
      SplitJoin(parts[1..], sep);
      SplitNone(parts[0], sep);
      SplitConcat(parts[0], Join(parts[1..], [sep]), sep);
      assert parts == [parts[0]] + parts[1..];
    }
  }

  /** A separator splits the pieces on either side independently. */
  lemma {:induction false} SplitConcat(a: string, b: string, sep: char)
    ensures Split(a + [sep] + b, sep) == Split(a, sep) + Split(b, sep)
    decreases |a|
  {
    var s := a + [sep] + b;
    if |a| == 0 {
      assert s[1..] == b;
    } else {
      assert s[0] == a[0];
      assert s[1..] == a[1..] + [sep] + b;
      SplitConcat(a[1..], b, sep);
      var x := Split(a[1..], sep);
      var y := Split(b, sep);
      if a[0] != sep {
        ConsFirst(a[0], x, y);
      }
    }
  }

  /** Extending the first piece commutes with appending further pieces. */
  lemma ConsFirst(c: char, x: seq<string>, y: seq<string>)
    requires |x| > 0
    ensures [[c] + (x + y)[0]] + (x + y)[1..] == [[c] + x[0]] + x[1..] + y
  {
    assert (x + y)[1..] == x[1..] + y;
  }

  /** The white-space characters `String.prototype.trim` and `parseInt`
      skip: ECMAScript's WhiteSpace (tab, vertical tab, form feed, the byte
      order mark and the Unicode space separators) and its LineTerminators. */
  predicate IsJsSpace(c: char) {
    || c == '\t' || c == '\U{000B}' || c == '\U{000C}' || c == ' ' || c == '\U{00A0}'
    || c == '\U{FEFF}' || c == '\U{1680}' || ('\U{2000}' <= c <= '\U{200A}')
    || c == '\U{202F}' || c == '\U{205F}' || c == '\U{3000}'
    || c == '\n' || c == '\r' || c == '\U{2028}' || c == '\U{2029}'
  }

  /** No white space at either end. */
  predicate IsTrimmed(s: string) {
    |s| == 0 || (!IsJsSpace(s[0]) && !IsJsSpace(s[|s| - 1]))
  }

  /** Drops the leading white space: the result is a suffix of `s` and
      everything dropped is white space. */
  function TrimStart(s: string): (r: string)
    ensures |r| <= |s| && r == s[|s| - |r|..]
    ensures forall i :: 0 <= i < |s| - |r| ==> IsJsSpace(s[i])
    ensures |r| > 0 ==> !IsJsSpace(r[0])
  {
    if |s| > 0 && IsJsSpace(s[0]) then TrimStart(s[1..]) else s
  }

  /** Drops the trailing white space: the result is a prefix of `s` and
      everything dropped is white space. */
  function TrimEnd(s: string): (r: string)
    ensures |r| <= |s| && r == s[..|r|]
    ensures forall i :: |r| <= i < |s| ==> IsJsSpace(s[i])
    ensures |r| > 0 ==> !IsJsSpace(r[|r| - 1])
  {
    if |s| > 0 && IsJsSpace(s[|s| - 1]) then TrimEnd(s[..|s| - 1]) else s
  }

  /** `r` is the slice of `s` starting at `i`, and everything of `s` before
      and after that slice is white space. */
  predicate SpaceAround(s: string, r: string, i: nat) {
    Around(s, r, i, IsJsSpace)
  }

  /** `r` is the slice of `s` starting at `i`, and `p` holds of everything
      before and after it. */
  predicate Around<T(==)>(s: seq<T>, r: seq<T>, i: nat, p: T -> bool) {
    && i + |r| <= |s| && r == s[i..i + |r|]
    && (forall k :: 0 <= k < i ==> p(s[k]))
    && (forall k :: i + |r| <= k < |s| ==> p(s[k]))
  }

  /** `s.trim()`: the slice of `s` left after dropping white space from both
      ends; it has none at either end itself, and is `s` when `s` has none. */
  function Trim(s: string): (r: string)
    ensures IsTrimmed(r)
    ensures exists i :: SpaceAround(s, r, i)
    ensures IsTrimmed(s) ==> r == s
  {
    TrimEnds(s);
    TrimAround(s);
    TrimEnd(TrimStart(s))
  }

  lemma TrimEnds(s: string)
    ensures IsTrimmed(TrimEnd(TrimStart(s)))
    ensures IsTrimmed(s) ==> TrimEnd(TrimStart(s)) == s
  {
    var t := TrimStart(s);
    var r := TrimEnd(t);
    assert |r| > 0 ==> r[0] == t[0];
  }

  /** Trimming keeps the slice between the leading and the trailing white
      space. */
  lemma TrimAround(s: string)
    ensures SpaceAround(s, TrimEnd(TrimStart(s)), |s| - |TrimStart(s)|)
  {
    SliceBetween(s, TrimStart(s), TrimEnd(TrimStart(s)), IsJsSpace);
  }

  /** A prefix `r` of a suffix `t` of `s` is a slice of `s`; what lies
      outside it is what the suffix and the prefix dropped. */
  lemma SliceBetween<T>(s: seq<T>, t: seq<T>, r: seq<T>, p: T -> bool)
    requires |t| <= |s| && t == s[|s| - |t|..] && |r| <= |t| && r == t[..|r|]
    requires forall k :: 0 <= k < |s| - |t| ==> p(s[k])
    requires forall k :: |r| <= k < |t| ==> p(t[k])
    ensures Around(s, r, |s| - |t|, p)
  {
    var i := |s| - |t|;
    forall k | i + |r| <= k < |s|
      ensures p(s[k])
    {
      assert s[k] == t[k - i];
    }
  }

  /** Only one slice of `s` has white space all around it and none at its
      own ends, so `Trim` is determined by its contract. */
  lemma TrimUnique(s: string, r: string, i: nat)
    requires SpaceAround(s, r, i) && IsTrimmed(r)
    ensures Trim(s) == r
  {
    var t := Trim(s);
    var j: nat :| SpaceAround(s, t, j);
    if |r| > 0 && |t| > 0 {
      assert s[i] == r[0] && s[j] == t[0];
      assert i == j;
      assert s[i + |r| - 1] == r[|r| - 1] && s[j + |t| - 1] == t[|t| - 1];
      assert |r| == |t|;
    }
  }

  /** `indent(str, count)`: every line of `str` gains `count` leading spaces. */
  function Indent(str: string, count: nat): (r: string)
    ensures |Split(r, '\n')| == |Split(str, '\n')|
    ensures forall i :: 0 <= i < |Split(r, '\n')| ==>
              Split(r, '\n')[i] == Spaces(count) + Split(str, '\n')[i]
  {
    var lines := Map(line => Spaces(count) + line, Split(str, '\n'));
    assert forall i :: 0 <= i < |lines| ==> '\n' !in lines[i] by {
      forall i | 0 <= i < |lines|
        ensures '\n' !in lines[i]
      {
        assert '\n' !in Split(str, '\n')[i];
      }
    }
    SplitJoin(lines, '\n');
    Join(lines, "\n")
  }
}
