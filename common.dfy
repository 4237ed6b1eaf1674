/** Shared building blocks of the storefront model: optional values, the
    sequence operations the screens use (JavaScript's `filter` and `slice`),
    and the string operations they apply to user input (`trim`,
    `toLowerCase`, `includes`). */
module Common {

  /** A value that may be absent: JavaScript's `undefined`/`null`. */
  datatype Option<T> = None | Some(value: T) {
    /** `x || fallback` for a present-or-absent value. */
    function GetOr(fallback: T): T {
      match this
      case Some(v) => v
      case None => fallback
    }
  }

  /** `message || fallback` for an optional string: an absent or empty
      message is falsy and gives way to the fallback. */
  function MessageOr(message: Option<string>, fallback: string): (r: string)
    ensures r == fallback || (message == Some(r) && r != "")
    ensures message.Some? && message.value != "" ==> r == message.value
  {
    if message.Some? && message.value != "" then message.value else fallback
  }

  // ---------------------------------------------------------------------
  // Sequences
  // ---------------------------------------------------------------------

  /** `s.filter(keep)`: the elements satisfying `keep`, in their order. */
  function Filter<T(==)>(s: seq<T>, keep: T -> bool): (r: seq<T>)
    ensures |r| <= |s|
    ensures forall i :: 0 <= i < |r| ==> r[i] in s && keep(r[i])
    ensures forall i :: 0 <= i < |s| && keep(s[i]) ==> s[i] in r
  {
    if s == [] then []
    else if keep(s[0]) then [s[0]] + Filter(s[1..], keep)
    else Filter(s[1..], keep)
  }

  /** `s.slice(0, n)`: the first `n` elements, or all of them. */
  function Take<T>(s: seq<T>, n: nat): (r: seq<T>)
    ensures |r| == if |s| <= n then |s| else n
    ensures r == s[..|r|]
  {
    if |s| <= n then s else s[..n]
  }

  /** `a` is obtained from `b` by deleting elements: the relative order of
      the kept elements is that of `b`. */
  ghost predicate IsSubsequence<T>(a: seq<T>, b: seq<T>)
    decreases |b|
  {
    if a == [] then true
    else if b == [] then false
    else (a[0] == b[0] && IsSubsequence(a[1..], b[1..])) || IsSubsequence(a, b[1..])
  }

  /** Filtering keeps the relative order of the kept elements. */
  lemma {:induction false} FilterIsSubsequence<T>(s: seq<T>, keep: T -> bool)
    ensures IsSubsequence(Filter(s, keep), s)
  {
    if s != [] {
      FilterIsSubsequence(s[1..], keep);
      if !keep(s[0]) {
        SubsequenceOfTail(Filter(s[1..], keep), s);
      }
    }
  }

  /** A subsequence of a tail is a subsequence of the whole. */
  lemma {:induction false} SubsequenceOfTail<T>(a: seq<T>, b: seq<T>)
    requires b != [] && IsSubsequence(a, b[1..])
    ensures IsSubsequence(a, b)
  {
  }

  /** Every sequence is a subsequence of itself. */
  lemma {:induction false} SubsequenceReflexive<T>(s: seq<T>)
    ensures IsSubsequence(s, s)
  {
    if s != [] {
      SubsequenceReflexive(s[1..]);
    }
  }

  /** Deleting from a subsequence gives a subsequence. */
  lemma {:induction false} SubsequenceTransitive<T>(a: seq<T>, b: seq<T>, c: seq<T>)
    requires IsSubsequence(a, b) && IsSubsequence(b, c)
    ensures IsSubsequence(a, c)
    decreases |c|
  {
    if a != [] {
      if b[0] == c[0] && IsSubsequence(b[1..], c[1..]) {
        if a[0] == b[0] && IsSubsequence(a[1..], b[1..]) {
          SubsequenceTransitive(a[1..], b[1..], c[1..]);
        } else {
          SubsequenceTransitive(a, b[1..], c[1..]);
        }
      } else {
        SubsequenceTransitive(a, b, c[1..]);
      }
    }
  }

  /** A prefix of a subsequence is a subsequence. */
  lemma {:induction false} SubsequencePrefix<T>(a: seq<T>, b: seq<T>, k: nat)
    requires k <= |a| && IsSubsequence(a, b)
    ensures IsSubsequence(a[..k], b)
    decreases |b|
  {
    if k == 0 {
    } else if a[0] == b[0] && IsSubsequence(a[1..], b[1..]) {
      SubsequencePrefix(a[1..], b[1..], k - 1);
      assert a[..k][1..] == a[1..][..k - 1];
    } else {
      SubsequencePrefix(a, b[1..], k);
    }
  }

  /** A taken prefix of a filtered sequence keeps the original order. */
  lemma TakeFilterIsSubsequence<T>(s: seq<T>, keep: T -> bool, n: nat)
    ensures IsSubsequence(Take(Filter(s, keep), n), s)
  {
    FilterIsSubsequence(s, keep);
    SubsequencePrefix(Filter(s, keep), s, |Take(Filter(s, keep), n)|);
  }

  /** `r` is every element of some prefix of `s` that satisfies `keep`: the
      first matches of `s`, in their order. */
  ghost predicate MatchesOfPrefix<T>(r: seq<T>, s: seq<T>, keep: T -> bool) {
    exists k :: 0 <= k <= |s| && r == Filter(s[..k], keep)
  }

  /** `s.filter(keep).slice(0, n)` is the first `n` matches of `s` (or all
      of them when there are fewer). */
  lemma {:induction false} TakeFilterIsFirstMatches<T>(s: seq<T>, keep: T -> bool, n: nat)
    ensures MatchesOfPrefix(Take(Filter(s, keep), n), s, keep)
  {
    if s == [] || n == 0 {
      assert Take(Filter(s, keep), n) == Filter(s[..0], keep);
    } else {
      var tail := s[1..];
      var m := if keep(s[0]) then n - 1 else n;
      TakeFilterIsFirstMatches(tail, keep, m);
      var k :| 0 <= k <= |tail| && Take(Filter(tail, keep), m) == Filter(tail[..k], keep);
      var pre := s[..k + 1];
      assert pre[0] == s[0] && pre[1..] == tail[..k];
      if keep(s[0]) {
        var f := Filter(s, keep);
        assert f == [s[0]] + Filter(tail, keep);
        assert Take(f, n) == [s[0]] + Take(Filter(tail, keep), m);
      }
      assert Take(Filter(s, keep), n) == Filter(pre, keep);
    }
  }

  /** Filtering with a predicate that every element satisfies changes nothing. */
  lemma {:induction false} FilterAll<T>(s: seq<T>, keep: T -> bool)
    requires forall i :: 0 <= i < |s| ==> keep(s[i])
    ensures Filter(s, keep) == s
  {
    if s != [] {
      FilterAll(s[1..], keep);
    }
  }

  /** Filtering a concatenation filters each part. */
  lemma {:induction false} FilterAppend<T>(a: seq<T>, b: seq<T>, keep: T -> bool)
    ensures Filter(a + b, keep) == Filter(a, keep) + Filter(b, keep)
  {
    if a == [] {
      assert a + b == b;
    } else {
      assert (a + b)[0] == a[0] && (a + b)[1..] == a[1..] + b;
      FilterAppend(a[1..], b, keep);
    }
  }

  /** The matches in a prefix of `s` are a prefix of the matches in `s`. */
  lemma FilterOfPrefix<T>(s: seq<T>, keep: T -> bool, k: nat)
    requires k <= |s|
    ensures Filter(s[..k], keep) <= Filter(s, keep)
  {
    assert s == s[..k] + s[k..];
    FilterAppend(s[..k], s[k..], keep);
  }

  // ---------------------------------------------------------------------
  // Strings
  // ---------------------------------------------------------------------

  /** The characters JavaScript's `String.prototype.trim` removes, restricted
      to the ASCII and Latin-1 ones plus the byte-order mark. */
  predicate IsSpace(c: char) {
    c == ' ' || c == '\t' || c == '\n' || c == '\r' ||
    c == '\U{000B}' || c == '\U{000C}' || c == '\U{00A0}' || c == '\U{FEFF}'
  }

  /** Leading white space removed: a suffix of `s` that does not start with space. */
  function TrimStart(s: string): (r: string)
    ensures |r| <= |s| && r == s[|s| - |r|..]
    ensures r == [] || !IsSpace(r[0])
    ensures forall i :: 0 <= i < |s| - |r| ==> IsSpace(s[i])
  {
    if s != [] && IsSpace(s[0]) then TrimStart(s[1..]) else s
  }

  /** Trailing white space removed: a prefix of `s` that does not end with space. */
  function TrimEnd(s: string): (r: string)
    ensures |r| <= |s| && r == s[..|r|]
    ensures r == [] || !IsSpace(r[|r| - 1])
    ensures forall i :: |r| <= i < |s| ==> IsSpace(s[i])
  {
    if s != [] && IsSpace(s[|s| - 1]) then TrimEnd(s[..|s| - 1]) else s
  }

  /** `s.trim()`. */
  function Trim(s: string): (r: string)
    ensures r == [] || (!IsSpace(r[0]) && !IsSpace(r[|r| - 1]))
    ensures var lead := |s| - |TrimStart(s)|;
            lead + |r| <= |s| && r == s[lead..lead + |r|] &&
            (forall i :: 0 <= i < lead ==> IsSpace(s[i])) &&
            (forall i :: lead + |r| <= i < |s| ==> IsSpace(s[i]))
  {
    var t := TrimStart(s);
    var r := TrimEnd(t);
    var lead := |s| - |t|;
    assert r == s[lead..lead + |r|];
    forall i | lead + |r| <= i < |s| ensures IsSpace(s[i]) {
      assert s[i] == t[i - lead];
    }
    r
  }

  /** A string is blank when it is empty after trimming, that is, when it
      consists of white space only. */
  predicate IsBlank(s: string) {
    Trim(s) == ""
  }

  /** A query parameter taken from a text box: the trimmed text, absent when
      the text is blank. */
  function TrimmedParam(text: string): (r: Option<string>)
    ensures r.None? <==> IsBlank(text)
    ensures r.Some? ==> r.value == Trim(text) && r.value != ""
  {
    if IsBlank(text) then None else Some(Trim(text))
  }

  lemma BlankIffAllSpace(s: string)
    ensures IsBlank(s) <==> forall i :: 0 <= i < |s| ==> IsSpace(s[i])
  {
    var t := TrimStart(s);
    if !(forall i :: 0 <= i < |s| ==> IsSpace(s[i])) && t != [] {
      assert TrimEnd(t) != [];
    }
  }

  /** The Latin-1 capitals: A to Z and U+00C0 to U+00DE except the
      multiplication sign U+00D7. */
  predicate IsUpperLatin1(c: char) {
    'A' <= c <= 'Z' || ('\U{00C0}' <= c <= '\U{00DE}' && c != '\U{00D7}')
  }

  /** The Latin-1 small letters: a to z and U+00DF to U+00FF except the
      division sign U+00F7, plus the micro sign U+00B5. */
  predicate IsLowerLatin1(c: char) {
    'a' <= c <= 'z' || ('\U{00DF}' <= c <= '\U{00FF}' && c != '\U{00F7}') || c == '\U{00B5}'
  }

  /** `toLowerCase` on one Latin-1 character: each capital goes 32 code
      points up; every other character is left as it is. */
  function LowerChar(c: char): (r: char)
    ensures IsUpperLatin1(c) ==> r as int == c as int + 32 && IsLowerLatin1(r)
    ensures !IsUpperLatin1(c) ==> r == c
  {
    if IsUpperLatin1(c) then (c as int + 32) as char else c
  }

  /** `toUpperCase` on one Latin-1 character: `ÿ` becomes U+0178, the micro
      sign becomes Greek capital mu U+039C, `ß` (whose upper case is the two
      letters "SS") is left as it is, and every other small letter goes 32
      code points down. */
  function UpperChar(c: char): (r: char)
    ensures IsLowerLatin1(c) && c != '\U{00DF}' && c != '\U{00FF}' && c != '\U{00B5}' ==>
              r as int == c as int - 32 && IsUpperLatin1(r)
    ensures !IsLowerLatin1(c) || c == '\U{00DF}' ==> r == c
    ensures c == '\U{00FF}' ==> r == '\U{0178}'
    ensures c == '\U{00B5}' ==> r == '\U{039C}'
  {
    if c == '\U{00FF}' then '\U{0178}'
    else if c == '\U{00B5}' then '\U{039C}'
    else if IsLowerLatin1(c) && c != '\U{00DF}' then (c as int - 32) as char
    else c
  }

  /** Lower-casing an upper-cased capital gives back its small letter, and
      upper-casing a lower-cased capital gives back the capital. */
  lemma CaseRoundTrip(c: char)
    ensures IsUpperLatin1(c) ==> UpperChar(LowerChar(c)) == c
    ensures IsLowerLatin1(c) && c != '\U{00DF}' && c != '\U{00FF}' && c != '\U{00B5}' ==>
              LowerChar(UpperChar(c)) == c
  {
  }

  /** `s.toLowerCase()` on Latin-1 text. */
  function Lower(s: string): (r: string)
    ensures |r| == |s|
    ensures forall i :: 0 <= i < |s| ==> r[i] == LowerChar(s[i])
  {
    seq(|s|, i requires 0 <= i < |s| => LowerChar(s[i]))
  }

  /** `s.toUpperCase()` on Latin-1 text, but for `ß` (see `UpperChar`). */
  function Upper(s: string): (r: string)
    ensures |r| == |s|
    ensures forall i :: 0 <= i < |s| ==> r[i] == UpperChar(s[i])
  {
    seq(|s|, i requires 0 <= i < |s| => UpperChar(s[i]))
  }

  /** `hay.includes(needle)`. */
  predicate Contains(hay: string, needle: string) {
    exists i :: 0 <= i <= |hay| - |needle| && OccursAt(hay, needle, i)
  }

  /** `needle` occurs in `hay` starting at index `i`. */
  predicate OccursAt(hay: string, needle: string, i: int)
    requires 0 <= i <= |hay| - |needle|
  {
    hay[i..i + |needle|] == needle
  }

  /** `s.slice(-n)`: the last `n` characters, or all of them. */
  function LastChars(s: string, n: nat): (r: string)
    ensures |r| == if |s| <= n then |s| else n
    ensures r == s[|s| - |r|..]
  {
    if |s| <= n then s else s[|s| - n..]
  }
}
