/** The string primitives of Python the core relies on: whitespace, `strip`,
    `lower`, `startswith`/`endswith`, substring tests and `split(" ")`. */
module Text {

  /** Python's whitespace (`str.isspace`), which is also what `\s` in a `str`
      regular expression and what `str.strip()` use. */
  predicate IsSpace(c: char) {
    var n := c as int;
    (9 <= n <= 13) || (28 <= n <= 32) || n == 0x85 || n == 0xA0 || n == 0x1680 ||
    (0x2000 <= n <= 0x200A) || n == 0x2028 || n == 0x2029 || n == 0x202F ||
    n == 0x205F || n == 0x3000
  }

  /** ASCII lower-casing; every other character is left as it is. */
  function Lower(c: char): (r: char)
    ensures 'A' <= c <= 'Z' ==> r as int == c as int + 32
    ensures !('A' <= c <= 'Z') ==> r == c
  {
    if 'A' <= c <= 'Z' then (c as int + 32) as char else c
  }

  /** Python's `str.lower()` restricted to ASCII: only the letters A to Z change,
      and none of them is left in the result. */
  function LowerStr(s: string): (r: string)
    ensures |r| == |s|
    ensures forall k :: 0 <= k < |s| ==> r[k] == Lower(s[k])
    ensures forall k :: 0 <= k < |s| && !('A' <= s[k] <= 'Z') ==> r[k] == s[k]
    ensures forall k :: 0 <= k < |r| ==> !('A' <= r[k] <= 'Z')
  {
    seq(|s|, k requires 0 <= k < |s| => Lower(s[k]))
  }

  /** Lower-casing twice is lower-casing once. */
  lemma LowerStrIdempotent(s: string)
    ensures LowerStr(LowerStr(s)) == LowerStr(s)
  {
    assert forall k :: 0 <= k < |s| ==> LowerStr(LowerStr(s))[k] == LowerStr(s)[k];
  }

  /** Lower-casing only changes upper-case ASCII letters, so a character that is
      not a letter keeps its identity through it. */
  lemma LowerOfNonLetter(c: char, d: char)
    requires !('a' <= d <= 'z') && !('A' <= d <= 'Z')
    ensures Lower(c) == d <==> c == d
  {
  }

  predicate StartsWith(s: string, prefix: string) {
    |prefix| <= |s| && s[..|prefix|] == prefix
  }

  predicate EndsWith(s: string, suffix: string) {
    |suffix| <= |s| && s[|s| - |suffix|..] == suffix
  }

  /** Python's `sub in s` for strings. */
  predicate Contains(s: string, sub: string) {
    exists p :: 0 <= p <= |s| - |sub| && OccursAt(s, p, sub)
  }

  /** `sub` occurs in `s` starting at index `p`. */
  predicate OccursAt(s: string, p: int, sub: string) {
    0 <= p && p + |sub| <= |s| && s[p..p + |sub|] == sub
  }

  predicate AllSpace(s: string) {
    forall k :: 0 <= k < |s| ==> IsSpace(s[k])
  }

  /** The end of the run of whitespace that starts at `i`. */
  function SkipSpace(s: string, i: nat): (e: nat)
    requires i <= |s|
    ensures i <= e <= |s|
    ensures forall k :: i <= k < e ==> IsSpace(s[k])
    ensures e < |s| ==> !IsSpace(s[e])
    decreases |s| - i
  {
    if i < |s| && IsSpace(s[i]) then SkipSpace(s, i + 1) else i
  }

  /** A run of whitespace from `i` to `j` lies inside the run `SkipSpace` finds. */
  lemma {:induction false} SpaceRunWithin(s: string, i: nat, j: nat)
    requires i <= j <= |s|
    requires forall k :: i <= k < j ==> IsSpace(s[k])
    ensures j <= SkipSpace(s, i)
    decreases j - i
  {
    if i < j {
      SpaceRunWithin(s, i + 1, j);
    }
  }

  /** The start of the run of whitespace that ends at `hi`, not going below `lo`. */
  function TrimEnd(s: string, lo: nat, hi: nat): (b: nat)
    requires lo <= hi <= |s|
    ensures lo <= b <= hi
    ensures forall k :: b <= k < hi ==> IsSpace(s[k])
    ensures b > lo ==> !IsSpace(s[b - 1])
    decreases hi - lo
  {
    if lo < hi && IsSpace(s[hi - 1]) then TrimEnd(s, lo, hi - 1) else hi
  }

  /** Python's `s.strip()`: the slice of `s` left after removing the leading and
      the trailing whitespace. */
  function Strip(s: string): (r: string)
    ensures exists a, b :: 0 <= a <= b <= |s| && r == s[a..b] && AllSpace(s[..a]) && AllSpace(s[b..])
    ensures r == [] || (!IsSpace(r[0]) && !IsSpace(r[|r| - 1]))
  {
    var a := SkipSpace(s, 0);
    var b := TrimEnd(s, a, |s|);
    assert AllSpace(s[..a]) && AllSpace(s[b..]);
    assert a < b ==> s[a..b][0] == s[a] && s[a..b][b - a - 1] == s[b - 1];
    s[a..b]
  }

  /** A run of whitespace that ends at `hi` and starts at `b` lies inside the run
      `TrimEnd` finds. */
  lemma {:induction false} TrimEndWithin(s: string, lo: nat, b: nat, hi: nat)
    requires lo <= b <= hi <= |s|
    requires forall k :: b <= k < hi ==> IsSpace(s[k])
    ensures TrimEnd(s, lo, hi) <= b
    decreases hi - b
  {
    if b < hi {
      TrimEndWithin(s, lo, b, hi - 1);
    }
  }

  /** `Strip` is the only slice with whitespace on both sides that neither starts
      nor ends with whitespace. */
  lemma StripUnique(s: string, a: nat, b: nat)
    requires a <= b <= |s| && AllSpace(s[..a]) && AllSpace(s[b..])
    requires a < b ==> !IsSpace(s[a]) && !IsSpace(s[b - 1])
    ensures Strip(s) == s[a..b]
  {
    assert forall k :: 0 <= k < a ==> IsSpace(s[k]) by {
      forall k | 0 <= k < a ensures IsSpace(s[k]) { assert s[..a][k] == s[k]; }
    }
    assert forall k :: b <= k < |s| ==> IsSpace(s[k]) by {
      forall k | b <= k < |s| ensures IsSpace(s[k]) { assert s[b..][k - b] == s[k]; }
    }
    var a' := SkipSpace(s, 0);
    SpaceRunWithin(s, 0, a);
    if a < b {
      assert a' == a;
      TrimEndWithin(s, a, b, |s|);
    } else {
      SpaceRunWithin(s, 0, |s|);
    }
  }

  /** A run of whitespace from `i` to `j` is skipped the same from either end. */
  lemma {:induction false} SkipSpaceFrom(s: string, i: nat, j: nat)
    requires i <= j <= |s|
    requires forall k :: i <= k < j ==> IsSpace(s[k])
    ensures SkipSpace(s, i) == SkipSpace(s, j)
    decreases j - i
  {
    if i < j {
      SkipSpaceFrom(s, i + 1, j);
    }
  }

  /** `SkipSpace` on a suffix is `SkipSpace` on the whole, shifted by the
      suffix's start. */
  lemma {:induction false} SkipSpaceShift(u: string, d: nat, i: nat)
    requires d <= |u| && i <= |u| - d
    ensures SkipSpace(u, d + i) == d + SkipSpace(u[d..], i)
    decreases |u| - d - i
  {
    if d + i < |u| {
      assert u[d..][i] == u[d + i];
      if IsSpace(u[d + i]) {
        SkipSpaceShift(u, d, i + 1);
      }
    }
  }

  /** `TrimEnd` on a suffix is `TrimEnd` on the whole, shifted likewise. */
  lemma {:induction false} TrimEndShift(u: string, d: nat, lo: nat, hi: nat)
    requires d <= |u| && lo <= hi <= |u| - d
    ensures TrimEnd(u, d + lo, d + hi) == d + TrimEnd(u[d..], lo, hi)
    decreases hi - lo
  {
    if lo < hi {
      assert u[d..][hi - 1] == u[d + hi - 1];
      if IsSpace(u[d + hi - 1]) {
        TrimEndShift(u, d, lo, hi - 1);
      }
    }
  }

  /** Leading whitespace makes no difference to `Strip`. */
  lemma StripDropSpace(u: string, d: nat)
    requires d <= |u| && AllSpace(u[..d])
    ensures Strip(u) == Strip(u[d..])
  {
    assert forall k :: 0 <= k < d ==> IsSpace(u[k]) by {
      forall k | 0 <= k < d ensures IsSpace(u[k]) { assert u[..d][k] == u[k]; }
    }
    var t := u[d..];
    SkipSpaceFrom(u, 0, d);
    SkipSpaceShift(u, d, 0);
    TrimEndShift(u, d, SkipSpace(t, 0), |t|);
    StripShifted(u, d);
  }

  /** The step of `StripDropSpace` once both ends are known to shift by `d`. */
  lemma StripShifted(u: string, d: nat)
    requires d <= |u|
    requires SkipSpace(u, 0) == d + SkipSpace(u[d..], 0)
    requires TrimEnd(u, SkipSpace(u, 0), |u|) == d + TrimEnd(u[d..], SkipSpace(u[d..], 0), |u| - d)
    ensures Strip(u) == Strip(u[d..])
  {
    var t := u[d..];
    var a, b := StripBounds(t);
    var a', b' := StripBounds(u);
    SliceOfSuffix(u, d, a, b, a', b');
  }

  /** The slice `[a, b)` of the suffix from `d` is the slice `[a', b')` of the
      whole, for `a'` and `b'` shifted by `d`. */
  lemma SliceOfSuffix(u: string, d: nat, a: nat, b: nat, a': nat, b': nat)
    requires d <= |u| && a <= b <= |u| - d && a' == d + a && b' == d + b
    ensures u[a'..b'] == u[d..][a..b]
  {
  }

  /** The two ends `Strip` cuts at. */
  lemma StripBounds(s: string) returns (a: nat, b: nat)
    ensures a == SkipSpace(s, 0) && b == TrimEnd(s, a, |s|)
    ensures a <= b <= |s| && Strip(s) == s[a..b]
  {
    a := SkipSpace(s, 0);
    b := TrimEnd(s, a, |s|);
  }

  /** Whatever `Strip` keeps is taken from its argument. */
  lemma StripKeeps(s: string, c: char)
    requires c in Strip(s)
    ensures c in s
  {
    var a, b :| 0 <= a <= b <= |s| && Strip(s) == s[a..b];
    var k :| 0 <= k < b - a && s[a..b][k] == c;
    assert s[a + k] == c;
  }

  /** Python's `s.split(sep)` with an explicit one-character separator: every
      occurrence separates two fields, so there is always one field more than
      there are separators. */
  function Split(s: string, sep: char): (r: seq<string>)
    ensures |r| >= 1
  {
    if s == [] then [""]
    else if s[0] == sep then [""] + Split(s[1..], sep)
    else
      var rest := Split(s[1..], sep);
      [[s[0]] + rest[0]] + rest[1..]
  }

  /** The first occurrence of `sep` at or after `i`, or `|s|`. */
  function NextSep(s: string, sep: char, i: nat): (e: nat)
    requires i <= |s|
    ensures i <= e <= |s|
    ensures forall k :: i <= k < e ==> s[k] != sep
    ensures e < |s| ==> s[e] == sep
    decreases |s| - i
  {
    if i < |s| && s[i] != sep then NextSep(s, sep, i + 1) else i
  }

  /** The first field of a split is everything before the first separator, and
      the remaining fields are the split of what follows it. */
  lemma {:induction false} SplitFirst(s: string, sep: char)
    ensures Split(s, sep)[0] == s[..NextSep(s, sep, 0)]
    ensures NextSep(s, sep, 0) < |s| ==> Split(s, sep)[1..] == Split(s[NextSep(s, sep, 0) + 1..], sep)
    ensures NextSep(s, sep, 0) == |s| ==> |Split(s, sep)| == 1
    decreases |s|
  {
    if s != [] && s[0] != sep {
      SplitFirst(s[1..], sep);
      NextSepTail(s, sep);
      if NextSep(s, sep, 0) < |s| {
        assert s[1..][NextSep(s[1..], sep, 0) + 1..] == s[NextSep(s, sep, 0) + 1..];
      }
      assert [s[0]] + s[1..][..NextSep(s[1..], sep, 0)] == s[..NextSep(s, sep, 0)];
    }
  }

  /** Dropping a leading non-separator moves the next separator one place left. */
  lemma NextSepTail(s: string, sep: char)
    requires s != [] && s[0] != sep
    ensures NextSep(s, sep, 0) == NextSep(s[1..], sep, 0) + 1
  {
  }
}
