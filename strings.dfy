/**
 * The parts of Kotlin's string library the app relies on: `Char.isWhitespace`,
 * `isBlank`, `trim` and `split` on a single-character delimiter with no limit.
 */
module Strings {

  /**
   * The code points above ASCII that Kotlin/JVM `Char.isWhitespace` accepts:
   * the Unicode space separators (the no-break spaces U+00A0, U+2007 and
   * U+202F among them) and the line and paragraph separators.
   */
  const WideWhitespaceCodes: set<int> :=
    {0xA0, 0x1680, 0x2000, 0x2001, 0x2002, 0x2003, 0x2004, 0x2005, 0x2006, 0x2007, 0x2008, 0x2009, 0x200A,
     0x2028, 0x2029, 0x202F, 0x205F, 0x3000}

  /**
   * Kotlin/JVM `Char.isWhitespace`: in ASCII, tab through carriage return,
   * the four information separators U+001C..U+001F and space.
   */
  predicate IsWhitespace(c: char)
    ensures c == ' ' || c == '\t' || c == '\n' || c == '\r' ==> IsWhitespace(c)
    ensures 'a' <= c <= 'z' || 'A' <= c <= 'Z' || '0' <= c <= '9' || c == '.' ==> !IsWhitespace(c)
  {
    var n := c as int;
    if n < 0x80 then 0x09 <= n <= 0x0D || 0x1C <= n <= 0x20 else n in WideWhitespaceCodes
  }

  /** `CharSequence.isBlank`: empty or only whitespace. */
  predicate IsBlank(s: string)
    ensures s == [] ==> IsBlank(s)
    ensures s != [] && !IsWhitespace(s[0]) ==> !IsBlank(s)
  {
    forall i :: 0 <= i < |s| ==> IsWhitespace(s[i])
  }

  /** Drops the leading whitespace. */
  function TrimStart(s: string): (r: string)
  {
    if s != [] && IsWhitespace(s[0]) then TrimStart(s[1..]) else s
  }

  /** Drops the trailing whitespace. */
  function TrimEnd(s: string): (r: string)
  {
    if s != [] && IsWhitespace(s[|s| - 1]) then TrimEnd(s[..|s| - 1]) else s
  }

  /** TrimStart keeps the longest suffix that does not start with whitespace. */
  lemma {:induction false} TrimStartSpec(s: string)
    ensures var r := TrimStart(s);
      && |r| <= |s| && r == s[|s| - |r|..]
      && (forall i :: 0 <= i < |s| - |r| ==> IsWhitespace(s[i]))
      && (r != [] ==> !IsWhitespace(r[0]))
  {
    if s != [] && IsWhitespace(s[0]) {
      TrimStartSpec(s[1..]);
    }
  }

  /** TrimEnd keeps the longest prefix that does not end with whitespace. */
  lemma {:induction false} TrimEndSpec(s: string)
    ensures var r := TrimEnd(s);
      && |r| <= |s| && r == s[..|r|]
      && (forall i :: |r| <= i < |s| ==> IsWhitespace(s[i]))
      && (r != [] ==> !IsWhitespace(r[|r| - 1]))
  {
    if s != [] && IsWhitespace(s[|s| - 1]) {
      TrimEndSpec(s[..|s| - 1]);
    }
  }

  /** `String.trim()`: whitespace removed from both ends. */
  function Trim(s: string): (r: string)
    ensures |r| <= |s|
  {
    TrimStartSpec(s);
    TrimEndSpec(TrimStart(s));
    TrimEnd(TrimStart(s))
  }

  /** What `trim` keeps: a piece of the input, bounded by non-whitespace, empty exactly for blank input. */
  lemma TrimProperties(s: string)
    ensures |Trim(s)| <= |s|
    ensures forall c :: c in Trim(s) ==> c in s
    ensures Trim(s) == [] <==> IsBlank(s)
    ensures Trim(s) != [] ==> !IsWhitespace(Trim(s)[0]) && !IsWhitespace(Trim(s)[|Trim(s)| - 1])
  {
    var t := TrimStart(s);
    var r := TrimEnd(t);
    TrimStartSpec(s);
    TrimEndSpec(t);
    assert forall c :: c in r ==> c in t;
    assert forall c :: c in t ==> c in s;
    if r == [] {
      assert t == [];
    } else {
      assert !IsWhitespace(r[0]) && r[0] == t[0];
      assert t[0] == s[|s| - |t|];
    }
  }

  /** A trimmed string is its own trim, and blankness does not depend on trimming. */
  lemma TrimIdempotent(s: string)
    ensures Trim(Trim(s)) == Trim(s)
    ensures IsBlank(Trim(s)) <==> IsBlank(s)
  {
    TrimProperties(s);
    var r := Trim(s);
    TrimStartSpec(r);
    TrimEndSpec(TrimStart(r));
    assert TrimStart(r) == r;
    assert TrimEnd(r) == r;
    if r != [] {
      assert !IsWhitespace(r[0]);
    }
  }

  /**
   * `s.split(d)` with limit 0: the pieces between occurrences of `d`, empty
   * pieces included (Kotlin keeps trailing empty pieces, unlike Java).
   */
  function Split(s: string, d: char): (r: seq<string>)
    ensures |r| >= 1
    ensures forall k :: 0 <= k < |r| ==> d !in r[k]
  {
    if s == [] then [[]]
    else
      var rest := Split(s[1..], d);
      if s[0] == d then [[]] + rest else [[s[0]] + rest[0]] + rest[1..]
  }

  /** `parts.joinToString(d)`. */
  function Join(parts: seq<string>, d: char): (r: string)
    requires |parts| >= 1
  {
    if |parts| == 1 then parts[0] else parts[0] + [d] + Join(parts[1..], d)
  }

  /** Number of occurrences of `d` in `s`. */
  function Count(s: string, d: char): nat {
    if s == [] then 0 else (if s[0] == d then 1 else 0) + Count(s[1..], d)
  }

  /** Splitting loses nothing: joining the pieces back gives the input, and there is one piece more than delimiters. */
  lemma {:induction false} SplitJoin(s: string, d: char)
    ensures Join(Split(s, d), d) == s
    ensures |Split(s, d)| == Count(s, d) + 1
  {
    if s != [] {
      SplitJoin(s[1..], d);
      var rest := Split(s[1..], d);
      if s[0] == d {
        assert Split(s, d)[1..] == rest;
      } else {
        var r := Split(s, d);
        if |rest| == 1 {
          assert r == [[s[0]] + rest[0]];
        } else {
          assert r[1..] == rest[1..];
          assert Join(r, d) == [s[0]] + rest[0] + [d] + Join(rest[1..], d);
        }
      }
    }
  }

  /** A character other than the delimiter starts the first piece. */
  lemma SplitCons(c: char, s: string, d: char)
    requires c != d
    ensures var r := Split(s, d); Split([c] + s, d) == [[c] + r[0]] + r[1..]
  {
    var cs := [c] + s;
    assert cs[0] == c && cs[1..] == s;
  }

  /** A delimiter-free prefix joins the first piece of what follows it. */
  lemma {:induction false} SplitPrefix(p: string, rest: string, d: char)
    requires d !in p
    ensures var r := Split(rest, d); Split(p + rest, d) == [p + r[0]] + r[1..]
  {
    var r := Split(rest, d);
    if p == [] {
      assert p + rest == rest;
      assert p + r[0] == r[0];
      assert r == [r[0]] + r[1..];
    } else {
      var q := p[1..] + rest;
      assert p + rest == [p[0]] + q;
      assert d !in p[1..];
      SplitPrefix(p[1..], rest, d);
      SplitCons(p[0], q, d);
      assert [p[0]] + (p[1..] + r[0]) == p + r[0];
    }
  }

  /** Splitting undoes joining when no piece holds the delimiter. */
  lemma {:induction false} SplitOfJoin(parts: seq<string>, d: char)
    requires |parts| >= 1
    requires forall k :: 0 <= k < |parts| ==> d !in parts[k]
    ensures Split(Join(parts, d), d) == parts
    decreases |parts|
  {
    if |parts| == 1 {
      SplitPrefix(parts[0], [], d);
      assert parts[0] + [] == parts[0];
    } else {
      var rest := Join(parts[1..], d);
      assert d !in parts[0];
      SplitOfJoin(parts[1..], d);
      SplitPrefix(parts[0], [d] + rest, d);
      assert Join(parts, d) == parts[0] + ([d] + rest);
      assert ([d] + rest)[1..] == rest && ([d] + rest)[0] == d;
      var u := Split([d] + rest, d);
      assert u == [[]] + parts[1..];
      assert u[0] == [] && u[1..] == parts[1..];
      assert parts[0] + [] == parts[0];
      assert parts == [parts[0]] + parts[1..];
    }
  }
}
