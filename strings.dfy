/** JavaScript string primitives used by the application, restated over `seq<char>`:
    `includes`, ASCII `toLowerCase`, `indexOf`, `replace` with a string pattern,
    `split` on a one-character separator and `trim`. */
module Strings {

  /** `k` occurs in `s` starting at position `i`. */
  predicate OccursAt(s: string, k: string, i: int)
  {
    0 <= i && i + |k| <= |s| && s[i..i + |k|] == k
  }

  /** `s.includes(k)`: an unanchored substring test. */
  predicate Contains(s: string, k: string)
  {
    exists i :: 0 <= i <= |s| - |k| && OccursAt(s, k, i)
  }

  /** Substring containment is transitive: whatever occurs inside "this" occurs wherever "this" does. */
  lemma ContainsTransitive(a: string, b: string, c: string)
    requires Contains(a, b) && Contains(b, c)
    ensures Contains(a, c)
  {
    var i :| 0 <= i <= |a| - |b| && OccursAt(a, b, i);
    var j :| 0 <= j <= |b| - |c| && OccursAt(b, c, j);
    forall t | 0 <= t < |c| ensures a[i + j + t] == c[t] {
      assert a[i..i + |b|][j + t] == b[j + t];
      assert b[j..j + |c|][t] == c[t];
    }
    assert a[i + j..i + j + |c|] == c;
    assert OccursAt(a, c, i + j);
  }

  /** A string lacking the character `c` does not contain a word that has `c` in it. */
  lemma LacksChar(s: string, k: string, c: char)
    requires c in k && c !in s
    ensures !Contains(s, k)
  {
    var j :| 0 <= j < |k| && k[j] == c;
    forall i | 0 <= i <= |s| - |k| ensures !OccursAt(s, k, i) {
      assert s[i..i + |k|][j] == s[i + j];
    }
  }

  /** A string in which `x` is never directly followed by `y` does not contain a word in
      which it is. */
  lemma LacksPair(s: string, k: string, x: char, y: char)
    requires Contains(k, [x, y])
    requires forall i :: 0 <= i < |s| - 1 ==> s[i] != x || s[i + 1] != y
    ensures !Contains(s, k)
  {
    forall i | 0 <= i <= |s| - 2 ensures !OccursAt(s, [x, y], i) {
      assert s[i..i + 2][0] == s[i] && s[i..i + 2][1] == s[i + 1];
    }
    if Contains(s, k) {
      ContainsTransitive(s, k, [x, y]);
      assert false;
    }
  }

  /** ASCII case folding of one character (`toLowerCase` restricted to A-Z). */
  function LowerChar(c: char): (d: char)
    ensures !('A' <= d <= 'Z')
    ensures 'A' <= c <= 'Z' ==> d as int == c as int + 32
    ensures !('A' <= c <= 'Z') ==> d == c
  {
    if 'A' <= c <= 'Z' then (c as int + 32) as char else c
  }

  /** `s.toLowerCase()` restricted to ASCII letters; every other character is kept. */
  function ToLower(s: string): (r: string)
    ensures |r| == |s|
    ensures forall i :: 0 <= i < |s| ==> r[i] == LowerChar(s[i])
  {
    seq(|s|, i requires 0 <= i < |s| => LowerChar(s[i]))
  }

  predicate HasNoUpper(s: string)
  {
    forall c :: c in s ==> !('A' <= c <= 'Z')
  }

  /** Lowercasing leaves a string without capitals as it is, and so is idempotent. */
  lemma ToLowerOfLower(s: string)
    requires HasNoUpper(s)
    ensures ToLower(s) == s
  {
    assert forall i :: 0 <= i < |s| ==> s[i] in s;
  }

  lemma ToLowerIdempotent(s: string)
    ensures ToLower(ToLower(s)) == ToLower(s)
  {
    assert forall c :: c in ToLower(s) ==> !('A' <= c <= 'Z');
    ToLowerOfLower(ToLower(s));
  }

  lemma ToLowerConcat(a: string, b: string)
    ensures ToLower(a + b) == ToLower(a) + ToLower(b)
  {
  }

  /** Two strings that differ only in the case of ASCII letters. */
  predicate EqualIgnoringCase(a: string, b: string)
  {
    |a| == |b| && forall i :: 0 <= i < |a| ==> LowerChar(a[i]) == LowerChar(b[i])
  }

  lemma ToLowerCaseInsensitive(a: string, b: string)
    requires EqualIgnoringCase(a, b)
    ensures ToLower(a) == ToLower(b)
  {
  }

  /** Search for `k` from position `from` on. */
  function IndexFrom(s: string, k: string, from: nat): (r: int)
    requires from <= |s|
    ensures r == -1 || (from <= r <= |s| - |k| && OccursAt(s, k, r))
    ensures r == -1 ==> forall i :: from <= i <= |s| - |k| ==> !OccursAt(s, k, i)
    ensures r != -1 ==> forall i :: from <= i < r ==> !OccursAt(s, k, i)
    decreases |s| - from
  {
    if from + |k| > |s| then -1
    else if s[from..from + |k|] == k then from
    else if from == |s| then -1
    else IndexFrom(s, k, from + 1)
  }

  /** `s.indexOf(k)`: the first position of `k` in `s`, or -1 when it does not occur. */
  function IndexOf(s: string, k: string): (r: int)
    ensures r == -1 <==> !Contains(s, k)
    ensures r != -1 ==> 0 <= r <= |s| - |k| && OccursAt(s, k, r)
    ensures forall i :: 0 <= i < r ==> !OccursAt(s, k, i)
  {
    IndexFrom(s, k, 0)
  }

  /** An occurrence preceded by no character equal to the first character of `k` is the first one. */
  lemma FirstOccurrence(s: string, k: string, p: nat)
    requires OccursAt(s, k, p) && |k| > 0 && k[0] !in s[..p]
    ensures IndexOf(s, k) == p
  {
    forall i | 0 <= i < p ensures !OccursAt(s, k, i) {
      assert s[..p][i] == s[i];
      assert s[i..i + |k|][0] == s[i];
    }
  }

  /** `s.replace(pat, rep)` for a string pattern: only the first occurrence is replaced. */
  function ReplaceFirst(s: string, pat: string, rep: string): (r: string)
    ensures !Contains(s, pat) ==> r == s
    ensures Contains(s, pat) ==>
      var p := IndexOf(s, pat);
      |r| == |s| - |pat| + |rep| && r[..p] == s[..p] && r[p..p + |rep|] == rep && r[p + |rep|..] == s[p + |pat|..]
  {
    var p := IndexOf(s, pat);
    if p == -1 then s else s[..p] + rep + s[p + |pat|..]
  }

  /** Replacing an occurrence that has no earlier start character. */
  lemma ReplaceAt(a: string, pat: string, b: string, rep: string)
    requires |pat| > 0 && pat[0] !in a
    ensures ReplaceFirst(a + pat + b, pat, rep) == a + rep + b
  {
    var s := a + pat + b;
    assert s[..|a|] == a;
    assert s[|a|..|a| + |pat|] == pat;
    FirstOccurrence(s, pat, |a|);
    assert s[|a| + |pat|..] == b;
  }

  /** Joins parts with the separator between consecutive parts (`parts.join(sep)`). */
  function Join(parts: seq<string>, sep: char): string
  {
    if |parts| == 0 then []
    else if |parts| == 1 then parts[0]
    else parts[0] + [sep] + Join(parts[1..], sep)
  }

  /** The first position of `c` in `s`, or `|s|` when `c` does not occur. */
  function CharIndex(s: string, c: char): (p: nat)
    ensures p <= |s| && c !in s[..p]
    ensures p < |s| ==> s[p] == c
    ensures p == |s| <==> c !in s
  {
    if s == [] then 0
    else if s[0] == c then 0
    else
      var p := 1 + CharIndex(s[1..], c);
      assert s[..p] == [s[0]] + s[1..][..p - 1];
      p
  }

  /** A character preceded only by different characters is found at its position. */
  lemma {:induction false} CharIndexAt(s: string, c: char, p: nat)
    requires p < |s| && s[p] == c && c !in s[..p]
    ensures CharIndex(s, c) == p
  {
    if p > 0 {
      assert s[0] in s[..p];
      assert s[1..][..p - 1] == s[1..p];
      assert forall x :: x in s[1..p] ==> x in s[..p];
      CharIndexAt(s[1..], c, p - 1);
    }
  }

  /** `s.split(sep)` for a one-character separator: the maximal separator-free pieces, in order. */
  function Split(s: string, sep: char): (parts: seq<string>)
    ensures |parts| >= 1
    ensures forall i :: 0 <= i < |parts| ==> sep !in parts[i]
    ensures Join(parts, sep) == s
    ensures parts[0] == s[..CharIndex(s, sep)]
    decreases |s|
  {
    var p := CharIndex(s, sep);
    if p == |s| then
      assert s[..p] == s;
      [s]
    else
      var rest := Split(s[p + 1..], sep);
      var parts := [s[..p]] + rest;
      assert parts[1..] == rest;
      assert Join(parts, sep) == s[..p] + [sep] + s[p + 1..];
      assert s == s[..p] + [sep] + s[p + 1..];
      parts
  }

  /** Splitting undoes joining when no part contains the separator. */
  lemma {:induction false} SplitJoin(parts: seq<string>, sep: char)
    requires |parts| >= 1
    requires forall i :: 0 <= i < |parts| ==> sep !in parts[i]
    ensures Split(Join(parts, sep), sep) == parts
    decreases |parts|
  {
    if |parts| == 1 {
    } else {
      var s := Join(parts, sep);
      var a := parts[0];
      var tail := Join(parts[1..], sep);
      assert s == a + [sep] + tail;
      assert s[|a|] == sep;
      assert s[..|a|] == a;
      CharIndexAt(s, sep, |a|);
      assert s[|a| + 1..] == tail;
      SplitJoin(parts[1..], sep);
    }
  }

  /** The whitespace and line terminators that JavaScript's `trim` removes. */
  predicate IsJsSpace(c: char)
  {
    c as int in JsSpaceCodes
  }

  const JsSpaceCodes: set<int> := {
    0x09, 0x0A, 0x0B, 0x0C, 0x0D, 0x20, 0xA0, 0x1680,
    0x2000, 0x2001, 0x2002, 0x2003, 0x2004, 0x2005, 0x2006, 0x2007, 0x2008, 0x2009, 0x200A,
    0x2028, 0x2029, 0x202F, 0x205F, 0x3000, 0xFEFF
  }

  predicate AllSpace(s: string)
  {
    forall i :: 0 <= i < |s| ==> IsJsSpace(s[i])
  }

  /** The first position at or after `i` that is not whitespace (or `|s|`). */
  function SkipSpaceFrom(s: string, i: nat): (r: nat)
    requires i <= |s|
    ensures i <= r <= |s|
    ensures forall k :: i <= k < r ==> IsJsSpace(s[k])
    ensures r < |s| ==> !IsJsSpace(s[r])
    decreases |s| - i
  {
    if i < |s| && IsJsSpace(s[i]) then SkipSpaceFrom(s, i + 1) else i
  }

  /** The end of `s[lo..j]` once its trailing whitespace is dropped. */
  function DropSpaceBack(s: string, lo: nat, j: nat): (r: nat)
    requires lo <= j <= |s|
    ensures lo <= r <= j
    ensures forall k :: r <= k < j ==> IsJsSpace(s[k])
    ensures r > lo ==> !IsJsSpace(s[r - 1])
    decreases j
  {
    if j > lo && IsJsSpace(s[j - 1]) then DropSpaceBack(s, lo, j - 1) else j
  }

  /** `s.trim()`: the result is the slice of `s` between its leading and its trailing
      whitespace; no whitespace is left at either end, and it is empty exactly when `s` is blank. */
  function Trim(s: string): (r: string)
    ensures var i := SkipSpaceFrom(s, 0); i + |r| <= |s| && r == s[i..i + |r|]
    ensures AllSpace(s[..SkipSpaceFrom(s, 0)]) && AllSpace(s[SkipSpaceFrom(s, 0) + |r|..])
    ensures r != [] ==> !IsJsSpace(r[0]) && !IsJsSpace(r[|r| - 1])
    ensures r == [] <==> AllSpace(s)
  {
    var i := SkipSpaceFrom(s, 0);
    var j := DropSpaceBack(s, i, |s|);
    assert i < |s| ==> j > i;
    s[i..j]
  }

  /** Trimming twice is trimming once. */
  lemma TrimIdempotent(s: string)
    ensures Trim(Trim(s)) == Trim(s)
  {
    var t := Trim(s);
    if t != [] {
      assert SkipSpaceFrom(t, 0) == 0;
      assert DropSpaceBack(t, 0, |t|) == |t|;
      assert t[0..|t|] == t;
    }
  }
}
