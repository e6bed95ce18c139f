/**
 * Value-level semantics of the few Java library operations the modelled code relies on:
 * nullable references as Option, exceptions as Result, 32-bit int arithmetic,
 * and String.trim / startsWith / contains / split / replaceAll on single characters.
 */
module JavaLang {

  /** A reference that may be null. */
  datatype Option<T> = None | Some(value: T) {
    function GetOr(default: T): T {
      match this
      case Some(v) => v
      case None => default
    }
  }

  /** A call that returns a value or throws (or returns) an exception with a message. */
  datatype Result<T> = Ok(value: T) | Err(message: string)

  /** A call with no result that either completes or throws. */
  datatype Outcome = Pass | Fail(message: string)

  const INT_MIN: int := -0x8000_0000
  const INT_MAX: int := 0x7fff_ffff
  const LONG_MAX: int := 0x7fff_ffff_ffff_ffff

  predicate IsInt32(x: int) { INT_MIN <= x <= INT_MAX }

  /** Two's-complement wrap-around of a Java `int` operation's mathematical result. */
  function Wrap32(x: int): (r: int)
    ensures IsInt32(r)
    ensures (r - x) % 0x1_0000_0000 == 0
    ensures IsInt32(x) ==> r == x
  {
    (x - INT_MIN) % 0x1_0000_0000 + INT_MIN
  }

  /** String.trim(): strips every leading and trailing character whose code is at most U+0020. */
  predicate IsTrimmed(c: char) { c as int <= 0x20 }

  function TrimStart(s: string): (r: string)
    ensures |r| <= |s| && r == s[|s| - |r|..]
    ensures r == [] || !IsTrimmed(r[0])
  {
    if s != [] && IsTrimmed(s[0]) then TrimStart(s[1..]) else s
  }

  function TrimEnd(s: string): (r: string)
    ensures |r| <= |s| && r == s[..|r|]
    ensures r == [] || !IsTrimmed(r[|r| - 1])
  {
    if s != [] && IsTrimmed(s[|s| - 1]) then TrimEnd(s[..|s| - 1]) else s
  }

  function Trim(s: string): string {
    TrimEnd(TrimStart(s))
  }

  predicate StartsWith(s: string, prefix: string) {
    |prefix| <= |s| && s[..|prefix|] == prefix
  }

  predicate EndsWith(s: string, suffix: string) {
    |suffix| <= |s| && s[|s| - |suffix|..] == suffix
  }

  /** String.contains(sub). */
  predicate Contains(s: string, sub: string) {
    StartsWith(s, sub) || (s != [] && Contains(s[1..], sub))
  }

  /** s.replaceAll("c", ""): every occurrence of the character c removed. */
  function RemoveChar(s: string, c: char): (r: string)
    ensures c !in r
    ensures forall d :: d != c ==> (d in r <==> d in s)
  {
    if s == [] then []
    else if s[0] == c then RemoveChar(s[1..], c)
    else [s[0]] + RemoveChar(s[1..], c)
  }

  lemma {:induction false} RemoveCharAppend(a: string, b: string, c: char)
    ensures RemoveChar(a + b, c) == RemoveChar(a, c) + RemoveChar(b, c)
    decreases |a|
  {
    if a == [] {
      assert a + b == b;
    } else {
      assert (a + b)[1..] == a[1..] + b;
      RemoveCharAppend(a[1..], b, c);
    }
  }

  lemma {:induction false} RemoveCharAbsent(s: string, c: char)
    requires c !in s
    ensures RemoveChar(s, c) == s
    decreases |s|
  {
    if s != [] {
      RemoveCharAbsent(s[1..], c);
      assert [s[0]] + s[1..] == s;
    }
  }

  /** Every segment of s between occurrences of sep, empty segments included (split with limit -1). */
  function SplitAll(s: string, sep: char): (parts: seq<string>)
    ensures |parts| >= 1
    decreases |s|
  {
    if s == [] then [[]]
    else
      var rest := SplitAll(s[1..], sep);
      if s[0] == sep then [[]] + rest
      else [[s[0]] + rest[0]] + rest[1..]
  }

  /** A string without the separator is a single segment. */
  lemma {:induction false} SplitAllNoSeparator(s: string, sep: char)
    requires sep !in s
    ensures SplitAll(s, sep) == [s]
    decreases |s|
  {
    if s != [] {
      SplitAllNoSeparator(s[1..], sep);
      assert [s[0]] + s[1..] == s;
    }
  }

  /** One step of SplitAll: a leading separator starts a new segment, any other character extends the first. */
  lemma SplitAllCons(c: char, t: string, sep: char)
    ensures SplitAll([c] + t, sep) ==
      if c == sep then [[]] + SplitAll(t, sep) else [[c] + SplitAll(t, sep)[0]] + SplitAll(t, sep)[1..]
  {
    assert ([c] + t)[0] == c && ([c] + t)[1..] == t;
  }

  /** Extending the first segment commutes with appending further segments. */
  lemma ExtendFirstSegment(c: char, r: seq<string>, more: seq<string>)
    requires |r| >= 1
    ensures [[c] + (r + more)[0]] + (r + more)[1..] == [[c] + r[0]] + r[1..] + more
  {
    assert (r + more)[1..] == r[1..] + more;
  }

  lemma ConsSeparated(a: string, b: string, sep: char)
    requires a != []
    ensures a + [sep] + b == [a[0]] + (a[1..] + [sep] + b)
  {
  }

  /** Splitting at one occurrence of the separator splits the two sides independently. */
  lemma {:induction false} SplitAllAt(a: string, b: string, sep: char)
    ensures SplitAll(a + [sep] + b, sep) == SplitAll(a, sep) + SplitAll(b, sep)
    decreases |a|, 1
  {
    if a == [] {
      assert a + [sep] + b == [sep] + b;
      SplitAllCons(sep, b, sep);
    } else {
      SplitAllAtStep(a, b, sep);
    }
  }

  /** The inductive step of SplitAllAt: the first character of a is split off on both sides. */
  lemma {:induction false} SplitAllAtStep(a: string, b: string, sep: char)
    requires a != []
    ensures SplitAll(a + [sep] + b, sep) == SplitAll(a, sep) + SplitAll(b, sep)
    decreases |a|, 0
  {
    var tail := a[1..] + [sep] + b;
    ConsSeparated(a, b, sep);
    SplitAllCons(a[0], tail, sep);
    SplitAllCons(a[0], a[1..], sep);
    SplitAllAt(a[1..], b, sep);
    if a[0] != sep {
      ExtendFirstSegment(a[0], SplitAll(a[1..], sep), SplitAll(b, sep));
    }
  }

  /** Two separator-free segments joined by the separator split back into both. */
  lemma SplitAllTwo(a: string, b: string, sep: char)
    requires sep !in a && sep !in b
    ensures SplitAll(a + [sep] + b, sep) == [a, b]
  {
    SplitAllAt(a, b, sep);
    SplitAllNoSeparator(a, sep);
    SplitAllNoSeparator(b, sep);
  }

  /** Trailing empty strings removed, as String.split(regex) with limit 0 does. */
  function DropTrailingEmpty(parts: seq<string>): (r: seq<string>)
    ensures |r| <= |parts| && r == parts[..|r|]
    ensures r == [] || r[|r| - 1] != []
    ensures forall k :: |r| <= k < |parts| ==> parts[k] == []
  {
    if parts == [] || parts[|parts| - 1] != [] then parts
    else DropTrailingEmpty(parts[..|parts| - 1])
  }

  /**
   * String.split(sep) for a one-character separator that is not a regex
   * metacharacter: when sep does not occur the result is the whole string
   * (even when it is empty); otherwise the segments with trailing empty ones removed.
   */
  function JavaSplit(s: string, sep: char): seq<string> {
    if sep !in s then [s] else DropTrailingEmpty(SplitAll(s, sep))
  }

  /** split on a string with one separator: both sides, or only the first when the second is empty. */
  lemma JavaSplitTwo(a: string, b: string, sep: char)
    requires sep !in a && sep !in b && (a != [] || b != [])
    ensures JavaSplit(a + [sep] + b, sep) == if b == [] then [a] else [a, b]
  {
    var s := a + [sep] + b;
    assert s[|a|] == sep;
    SplitAllTwo(a, b, sep);
    if b == [] {
      assert DropTrailingEmpty([a, b]) == DropTrailingEmpty([a]);
    }
  }

  /** split on a string with two separators and a non-empty last segment: the three segments. */
  lemma JavaSplitThree(a: string, b: string, c: string, sep: char)
    requires sep !in a && sep !in b && sep !in c && c != []
    ensures JavaSplit(a + [sep] + b + [sep] + c, sep) == [a, b, c]
  {
    var s := a + [sep] + b + [sep] + c;
    var bc := b + [sep] + c;
    assert s == a + [sep] + bc;
    assert s[|a|] == sep;
    SplitAllAt(a, bc, sep);
    SplitAllNoSeparator(a, sep);
    SplitAllTwo(b, c, sep);
    var parts := SplitAll(s, sep);
    assert parts == [a] + [b, c] == [a, b, c];
    assert parts[|parts| - 1] == c;
    assert DropTrailingEmpty(parts) == parts;
  }

  /** Decimal rendering of a non-negative integer, as Integer.toString. */
  function NatToString(n: nat): (r: string)
    ensures |r| >= 1
    ensures forall k :: 0 <= k < |r| ==> '0' <= r[k] <= '9'
  {
    if n < 10 then [Digit(n)] else NatToString(n / 10) + [Digit(n % 10)]
  }

  function Digit(d: nat): (c: char)
    requires d < 10
    ensures '0' <= c <= '9'
  {
    "0123456789"[d]
  }

  /** Integer.toString / string concatenation of an int. */
  function IntToString(n: int): string {
    if n < 0 then "-" + NatToString(-n) else NatToString(n)
  }
}
