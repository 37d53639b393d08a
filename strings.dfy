/** The few Python `str` operations the backend relies on, on `seq<char>`:
    `strip()`, `split()`, `split(sep)`, `sep.join(...)`, `find`, `in`,
    `startswith`, `endswith`, `lower()`, `replace` of one character, slicing,
    and the decimal rendering of integers used by f-strings. */
module Strings {

  /** The characters Python's `str.isspace()` accepts; `strip()` and `split()`
      without arguments remove exactly these. */
  predicate IsSpace(c: char) {
    c == ' ' || ('\t' <= c <= '\r') || ('\U{1C}' <= c <= '\U{1F}') ||
    c == '\U{85}' || c == '\U{A0}' || c == '\U{1680}' ||
    ('\U{2000}' <= c <= '\U{200A}') || c == '\U{2028}' || c == '\U{2029}' ||
    c == '\U{202F}' || c == '\U{205F}' || c == '\U{3000}'
  }

  predicate IsBlank(s: string) {
    forall i :: 0 <= i < |s| ==> IsSpace(s[i])
  }

  predicate NoSpace(s: string) {
    forall i :: 0 <= i < |s| ==> !IsSpace(s[i])
  }

  /** Number of whitespace characters that start `s`. */
  function LeadingSpaces(s: string): (n: nat)
    ensures n <= |s|
    ensures forall i :: 0 <= i < n ==> IsSpace(s[i])
    ensures n < |s| ==> !IsSpace(s[n])
  {
    if s == [] || !IsSpace(s[0]) then 0 else 1 + LeadingSpaces(s[1..])
  }

  /** Number of whitespace characters that end `s`. */
  function TrailingSpaces(s: string): (n: nat)
    ensures n <= |s|
    ensures forall i :: |s| - n <= i < |s| ==> IsSpace(s[i])
    ensures n < |s| ==> !IsSpace(s[|s| - n - 1])
  {
    if s == [] || !IsSpace(s[|s| - 1]) then 0 else 1 + TrailingSpaces(s[..|s| - 1])
  }

  /** `s.strip()`: the slice of `s` left once leading and trailing whitespace
      is removed; everything outside that slice is whitespace and the slice
      neither starts nor ends with whitespace. */
  function Strip(s: string): (r: string)
    ensures LeadingSpaces(s) + |r| <= |s|
    ensures r == s[LeadingSpaces(s)..LeadingSpaces(s) + |r|]
    ensures forall i :: 0 <= i < |s| && !(LeadingSpaces(s) <= i < LeadingSpaces(s) + |r|) ==> IsSpace(s[i])
    ensures r == [] || (!IsSpace(r[0]) && !IsSpace(r[|r| - 1]))
  {
    var n := LeadingSpaces(s);
    var m := TrailingSpaces(s[n..]);
    StripBounds(s, n, m);
    s[n..|s| - m]
  }

  /** The whitespace that `strip()` removes from the end of `s[n..]` lies at
      the end of `s`. */
  lemma {:induction false} StripBounds(s: string, n: nat, m: nat)
    requires n == LeadingSpaces(s) && m == TrailingSpaces(s[n..])
    ensures n + m <= |s|
    ensures forall i :: |s| - m <= i < |s| ==> IsSpace(s[i])
    ensures n + m < |s| ==> !IsSpace(s[|s| - m - 1])
  {
    var t := s[n..];
    forall i | |s| - m <= i < |s|
      ensures IsSpace(s[i])
    {
      assert s[i] == t[i - n];
    }
    if n + m < |s| {
      assert s[|s| - m - 1] == t[|t| - m - 1];
    }
  }

  /** A string strips to nothing exactly when it is all whitespace. */
  lemma {:induction false} StripEmptyIffBlank(s: string)
    ensures Strip(s) == [] <==> IsBlank(s)
  {
  }

  /** Stripping twice strips nothing more. */
  lemma {:induction false} StripIdempotent(s: string)
    ensures Strip(Strip(s)) == Strip(s)
  {
    var r := Strip(s);
    if r != [] {
      assert LeadingSpaces(r) == 0;
      assert r[0..] == r;
      assert TrailingSpaces(r) == 0;
    }
  }

  /** `s.split()`: the maximal runs of non-whitespace characters, in order. */
  function Words(s: string): (ws: seq<string>)
    ensures forall k :: 0 <= k < |ws| ==> ws[k] != [] && NoSpace(ws[k])
    decreases |s|
  {
    if s == [] then []
    else if IsSpace(s[0]) then Words(s[1..])
    else
      var m := WordLength(s);
      var rest := Words(s[m..]);
      assert NoSpace(s[..m]) by {
        forall i | 0 <= i < m ensures !IsSpace(s[..m][i]) {
          assert s[..m][i] == s[i];
        }
      }
      [s[..m]] + rest
  }

  /** A string splits into no words exactly when it is all whitespace. */
  lemma {:induction false} WordsEmptyIffBlank(s: string)
    ensures Words(s) == [] <==> IsBlank(s)
    decreases |s|
  {
    if s != [] && IsSpace(s[0]) {
      WordsEmptyIffBlank(s[1..]);
      assert IsBlank(s) <==> IsBlank(s[1..]) by {
        if IsBlank(s[1..]) {
          forall i | 1 <= i < |s| ensures IsSpace(s[i]) {
            assert s[i] == s[1..][i - 1];
          }
        }
      }
    }
  }

  /** Length of the run of non-whitespace characters that starts `s`. */
  function WordLength(s: string): (n: nat)
    ensures n <= |s|
    ensures forall i :: 0 <= i < n ==> !IsSpace(s[i])
    ensures n == |s| || IsSpace(s[n])
    ensures s != [] && !IsSpace(s[0]) ==> n > 0
  {
    if s == [] || IsSpace(s[0]) then 0 else 1 + WordLength(s[1..])
  }

  /** `sep.join(parts)` */
  function Join(parts: seq<string>, sep: string): string {
    if parts == [] then ""
    else if |parts| == 1 then parts[0]
    else parts[0] + sep + Join(parts[1..], sep)
  }

  predicate StartsWith(s: string, prefix: string) {
    |prefix| <= |s| && s[..|prefix|] == prefix
  }

  /** A string that starts with `a + b` starts with `a`. */
  lemma {:induction false} StartsWithConcat(s: string, a: string, b: string)
    requires StartsWith(s, a + b)
    ensures StartsWith(s, a)
  {
    assert s[..|a|] == (a + b)[..|a|];
  }

  /** `prefix + s`, known to start with `prefix` and to continue with `s`. */
  function PrefixWith(prefix: string, s: string): (r: string)
    ensures StartsWith(r, prefix) && r[|prefix|..] == s
  {
    assert (prefix + s)[..|prefix|] == prefix;
    prefix + s
  }

  predicate EndsWith(s: string, suffix: string) {
    |suffix| <= |s| && s[|s| - |suffix|..] == suffix
  }

  /** `sub` occurs in `s` starting at index `i`. */
  predicate OccursAt(s: string, sub: string, i: int) {
    0 <= i && i + |sub| <= |s| && forall k :: i <= k < i + |sub| ==> s[k] == sub[k - i]
  }

  /** `s.find(sub)`: the first index where `sub` occurs, or -1. */
  function Find(s: string, sub: string): (r: int)
    ensures r == -1 || OccursAt(s, sub, r)
    ensures forall i :: 0 <= i && (r == -1 || i < r) ==> !OccursAt(s, sub, i)
    decreases |s|
  {
    if |sub| > |s| then -1
    else if OccursAt(s, sub, 0) then 0
    else
      var r := Find(s[1..], sub);
      forall i | 1 <= i ensures OccursAt(s, sub, i) <==> OccursAt(s[1..], sub, i - 1) {
        if i + |sub| <= |s| {
          assert forall k :: i - 1 <= k < i - 1 + |sub| ==> s[1..][k] == s[k + 1];
        }
      }
      if r < 0 then -1 else r + 1
  }

  /** `sub in s` */
  predicate Contains(s: string, sub: string) {
    Find(s, sub) >= 0
  }

  lemma {:induction false} ContainsIffOccurs(s: string, sub: string)
    ensures Contains(s, sub) <==> exists i :: OccursAt(s, sub, i)
  {}

  /** `any(t in s for t in terms)` */
  predicate ContainsAny(s: string, terms: seq<string>) {
    exists k :: 0 <= k < |terms| && Contains(s, terms[k])
  }

  /** The parts of `s.split(sep)`: the pieces between successive
      occurrences of `sep`, none of which contains it. */
  function SplitOn(s: string, sep: string): (parts: seq<string>)
    requires sep != []
    ensures |parts| >= 1
    ensures forall k :: 0 <= k < |parts| - 1 ==> !Contains(parts[k], sep)
    ensures !Contains(parts[|parts| - 1], sep)
    decreases |s|
  {
    var i := Find(s, sep);
    if i < 0 then [s]
    else
      forall j | 0 <= j ensures OccursAt(s[..i], sep, j) ==> OccursAt(s, sep, j) && j < i {
        assert forall k :: 0 <= k < i ==> s[..i][k] == s[k];
      }
      assert !Contains(s[..i], sep);
      [s[..i]] + SplitOn(s[i + |sep|..], sep)
  }

  /** An occurrence of `sub` cuts `s` into what precedes it, `sub` and what
      follows it. */
  lemma {:induction false} OccursAtSplits(s: string, sub: string, i: int)
    requires OccursAt(s, sub, i)
    ensures s == s[..i] + sub + s[i + |sub|..]
  {
    assert s[i..i + |sub|] == sub by {
      forall k | 0 <= k < |sub| ensures s[i..i + |sub|][k] == sub[k] {
        assert s[i..i + |sub|][k] == s[k + i];
      }
    }
    assert s == s[..i] + s[i..i + |sub|] + s[i + |sub|..];
  }

  /** Splitting on a separator and joining with it gives the string back. */
  lemma {:induction false} JoinSplitOn(s: string, sep: string)
    requires sep != []
    ensures Join(SplitOn(s, sep), sep) == s
    decreases |s|
  {
    var i := Find(s, sep);
    if i >= 0 {
      var rest := s[i + |sep|..];
      var tail := SplitOn(rest, sep);
      JoinSplitOn(rest, sep);
      var parts := [s[..i]] + tail;
      assert SplitOn(s, sep) == parts;
      assert parts[1..] == tail;
      assert Join(parts, sep) == s[..i] + sep + Join(tail, sep);
      OccursAtSplits(s, sep, i);
    }
  }

  function LowerChar(c: char): (d: char)
    ensures 'A' <= c <= 'Z' ==> 'a' <= d <= 'z'
    ensures !('A' <= c <= 'Z') ==> d == c
  {
    if 'A' <= c <= 'Z' then (c as int + 32) as char else c
  }

  /** `s.lower()` on the ASCII letters. */
  function ToLower(s: string): (r: string)
    ensures |r| == |s|
    ensures forall i :: 0 <= i < |s| ==> r[i] == LowerChar(s[i])
  {
    if s == [] then [] else [LowerChar(s[0])] + ToLower(s[1..])
  }

  lemma {:induction false} ToLowerIdempotent(s: string)
    ensures ToLower(ToLower(s)) == ToLower(s)
  {
    var l := ToLower(s);
    assert forall i :: 0 <= i < |l| ==> ToLower(l)[i] == l[i];
  }

  predicate IsUpper(c: char) {
    'A' <= c <= 'Z'
  }

  predicate HasUpper(s: string) {
    exists i :: 0 <= i < |s| && IsUpper(s[i])
  }

  /** `s.replace(a, b)` for single characters. */
  function ReplaceChar(s: string, a: char, b: char): (r: string)
    ensures |r| == |s|
    ensures forall i :: 0 <= i < |s| ==> r[i] == if s[i] == a then b else s[i]
  {
    if s == [] then [] else [if s[0] == a then b else s[0]] + ReplaceChar(s[1..], a, b)
  }

  /** `s[:n]` with Python's treatment of negative and oversize bounds. */
  function SliceTo<T>(s: seq<T>, n: int): (r: seq<T>)
    ensures |r| <= |s| && r == s[..|r|]
    ensures n >= 0 ==> |r| == if n < |s| then n else |s|
    ensures n < 0 ==> |r| == if -n < |s| then |s| + n else 0
  {
    if n >= |s| then s
    else if n >= 0 then s[..n]
    else if -n < |s| then s[..|s| + n]
    else []
  }

  function DigitChar(d: nat): char
    requires d < 10
  {
    "0123456789"[d]
  }

  /** Decimal text of a natural number, as `str(n)` prints it. */
  function NatToString(n: nat): (r: string)
    ensures r != []
    ensures forall i :: 0 <= i < |r| ==> '0' <= r[i] <= '9'
  {
    if n < 10 then [DigitChar(n)] else NatToString(n / 10) + [DigitChar(n % 10)]
  }

  function IntToString(i: int): string {
    if i < 0 then "-" + NatToString(-i) else NatToString(i)
  }

  /** The middle part of a concatenation occurs in it after the first. */
  lemma {:induction false} OccursAtSplit(a: string, b: string, c: string)
    ensures OccursAt(a + b + c, b, |a|)
  {
    assert forall k :: |a| <= k < |a| + |b| ==> (a + b + c)[k] == b[k - |a|];
  }

  /** Two sequence identities stated once, so that callers in large proof
      contexts need not rediscover them. */
  lemma {:induction false} ConcatEmpty<T>(a: seq<T>)
    ensures a + [] == a
  {
  }

  lemma {:induction false} EmptyConcat<T>(a: seq<T>)
    ensures [] + a == a
  {
  }

  lemma {:induction false} ConcatAssoc<T>(a: seq<T>, b: seq<T>, c: seq<T>)
    ensures (a + b) + c == a + (b + c)
  {
  }
}
