/** The few JavaScript string operations the game relies on: `slice`, `trim`,
    `toLowerCase` and `includes`, restricted to ASCII whitespace and ASCII letters. */
module Strings {

  function Min(a: int, b: int): int { if a <= b then a else b }

  /** `s.slice(0, n)` for n >= 0: at most the first n characters. */
  function SliceHead(s: string, n: nat): (r: string)
    ensures |r| == Min(n, |s|)
    ensures r <= s
  {
    s[..Min(n, |s|)]
  }

  /** `s.slice(-n)` for n > 0: at most the last n characters; the whole string when
      it is shorter. */
  function SliceTail(s: string, n: nat): (r: string)
    requires n > 0
    ensures |r| == Min(n, |s|)
    ensures r == s[|s| - |r|..]
  {
    s[|s| - Min(n, |s|)..]
  }

  const Ellipsis: char := '\U{2026}'

  /** `${a.slice(0, 6)}…${a.slice(-4)}`: how a wallet address is shown. */
  function ShortAddress(a: string): (r: string)
    ensures |r| == Min(6, |a|) + 1 + Min(4, |a|)
    ensures r[..Min(6, |a|)] == a[..Min(6, |a|)]
    ensures r[Min(6, |a|)] == Ellipsis
    ensures r[Min(6, |a|) + 1..] == a[|a| - Min(4, |a|)..]
  {
    SliceHead(a, 6) + [Ellipsis] + SliceTail(a, 4)
  }

  /** A full-length address keeps its first six and last four characters,
      so an address of length 42 is shown in 11 characters. */
  lemma {:induction false} ShortAddressOfLongAddress(a: string)
    requires |a| >= 10
    ensures ShortAddress(a) == a[..6] + [Ellipsis] + a[|a| - 4..]
    ensures |ShortAddress(a)| == 11
  {
  }

  // ---------------------------------------------------------------------------
  // trim

  /** The ASCII part of ECMAScript's white space and line terminators. */
  predicate IsSpace(c: char) {
    c == ' ' || c == '\t' || c == '\n' || c == '\r' || c == 11 as char || c == 12 as char
  }

  function TrimStart(s: string): (r: string)
    ensures |r| <= |s| && r == s[|s| - |r|..]
    ensures r == [] || !IsSpace(r[0])
    ensures forall i :: 0 <= i < |s| - |r| ==> IsSpace(s[i])
    decreases |s|
  {
    if |s| > 0 && IsSpace(s[0]) then TrimStart(s[1..]) else s
  }

  function TrimEnd(s: string): (r: string)
    ensures |r| <= |s| && r == s[..|r|]
    ensures r == [] || !IsSpace(r[|r| - 1])
    ensures forall i :: |r| <= i < |s| ==> IsSpace(s[i])
    decreases |s|
  {
    if |s| > 0 && IsSpace(s[|s| - 1]) then TrimEnd(s[..|s| - 1]) else s
  }

  /** t occurs in s starting at position i. */
  predicate OccursAt(s: string, t: string, i: int) {
    0 <= i && i + |t| <= |s| && s[i..i + |t|] == t
  }

  /** `s.trim()`: the slice of s left after dropping white space at both ends:
      everything before it and everything after it is white space, and it neither
      starts nor ends with white space. */
  function Trim(s: string): (r: string)
    ensures |r| <= |s|
    ensures exists k :: OccursAt(s, r, k) && (forall i :: 0 <= i < k ==> IsSpace(s[i]))
                        && (forall i :: k + |r| <= i < |s| ==> IsSpace(s[i]))
    ensures r == [] || (!IsSpace(r[0]) && !IsSpace(r[|r| - 1]))
  {
    var a := TrimStart(s);
    var b := TrimEnd(a);
    var k := |s| - |a|;
    assert b == s[k..][..|b|];
    assert OccursAt(s, b, k);
    assert forall i :: k + |b| <= i < |s| ==> s[i] == a[i - k];
    assert b != [] ==> b[0] == a[0];
    b
  }

  /** Trimming a string that does not start or end with white space leaves it alone,
      so trimming is idempotent. */
  lemma {:induction false} TrimIdempotent(s: string)
    ensures Trim(Trim(s)) == Trim(s)
  {
    var t := Trim(s);
    assert TrimStart(t) == t;
    assert TrimEnd(t) == t;
  }

  /** A string made only of white space trims to the empty string. */
  lemma {:induction false} TrimBlank(s: string)
    requires forall i :: 0 <= i < |s| ==> IsSpace(s[i])
    ensures Trim(s) == []
  {
  }

  // ---------------------------------------------------------------------------
  // toLowerCase

  /** ASCII upper-case letters map to the lower-case letter at the same place in
      the alphabet; every other character is kept. */
  function LowerChar(c: char): (r: char)
    ensures 'A' <= c <= 'Z' ==> 'a' <= r <= 'z' && r as int - 'a' as int == c as int - 'A' as int
    ensures !('A' <= c <= 'Z') ==> r == c
  {
    if 'A' <= c <= 'Z' then (c as int - 'A' as int + 'a' as int) as char else c
  }

  function Lower(s: string): (r: string)
    ensures |r| == |s|
    ensures forall i :: 0 <= i < |s| ==> r[i] == LowerChar(s[i])
  {
    seq(|s|, i requires 0 <= i < |s| => LowerChar(s[i]))
  }

  // ---------------------------------------------------------------------------
  // includes

  /** `s.includes(t)`: t occurs in s at some position. */
  predicate Includes(s: string, t: string) {
    exists i | 0 <= i <= |s| - |t| :: OccursAt(s, t, i)
  }
}
