/**
  * The few string operations of Python's `str` that the modelled code relies on:
  * slicing with a non-negative bound, `isalnum`, `lower`, the `in` substring test and
  * the decimal rendering of an `int` inside an f-string, and the byte type of `bytes`.
  *
  * Only the ASCII range is modelled for `isalnum` and `lower` (see README).
  */
module Strings {

  /** One element of a Python `bytes` value. */
  newtype Byte = x: int | 0 <= x < 256

  /** `s[:n]` for a non-negative `n`: Python clamps the bound to the length. */
  function Take<T>(s: seq<T>, n: nat): (r: seq<T>)
    ensures |r| == if n <= |s| then n else |s|
    ensures r <= s
  {
    if n <= |s| then s[..n] else s
  }

  /** `s[n:]` for a non-negative `n`: empty once `n` reaches the length. */
  function Drop<T>(s: seq<T>, n: nat): (r: seq<T>)
    ensures Take(s, n) + r == s
  {
    if n <= |s| then s[n..] else []
  }

  predicate IsDigit(c: char) {
    '0' <= c <= '9'
  }

  predicate IsUpper(c: char) {
    'A' <= c <= 'Z'
  }

  predicate IsLower(c: char) {
    'a' <= c <= 'z'
  }

  /** `c.isalnum()` on the ASCII range. */
  predicate IsAlnum(c: char) {
    IsDigit(c) || IsUpper(c) || IsLower(c)
  }

  function LowerChar(c: char): (r: char)
    ensures IsUpper(c) ==> IsLower(r) && r as int - c as int == 'a' as int - 'A' as int
    ensures !IsUpper(c) ==> r == c
  {
    if IsUpper(c) then (c as int - 'A' as int + 'a' as int) as char else c
  }

  /** `s.lower()`: every upper-case letter mapped to its lower-case letter, position by position. */
  function Lower(s: string): (r: string)
    ensures |r| == |s|
    ensures forall i :: 0 <= i < |s| ==> r[i] == LowerChar(s[i])
  {
    if s == [] then [] else [LowerChar(s[0])] + Lower(s[1..])
  }

  /** `sub` appears in `s` starting at position `i`. */
  predicate OccursAt(sub: string, s: string, i: nat) {
    i + |sub| <= |s| && s[i..i + |sub|] == sub
  }

  /** The substring test `sub in s`. */
  ghost predicate Occurs(sub: string, s: string) {
    exists i: nat :: OccursAt(sub, s, i)
  }

  /** `sub in s`, computed by trying each start position in turn. */
  function Contains(s: string, sub: string): (r: bool)
    ensures r <==> Occurs(sub, s)
    decreases |s|
  {
    if |sub| > |s| then false
    else if s[..|sub|] == sub then assert OccursAt(sub, s, 0); true
    else
      var r := Contains(s[1..], sub);
      assert r ==> Occurs(sub, s) by {
        if r {
          var i: nat :| OccursAt(sub, s[1..], i);
          assert OccursAt(sub, s, i + 1);
        }
      }
      assert Occurs(sub, s) ==> r by {
        if Occurs(sub, s) {
          var i: nat :| OccursAt(sub, s, i);
          assert i != 0;
          assert OccursAt(sub, s[1..], i - 1);
        }
      }
      r
  }

  function DigitChar(d: nat): (c: char)
    requires d < 10
    ensures IsDigit(c)
  {
    ('0' as int + d) as char
  }

  /** The decimal rendering of a natural number, as `f"{n}"` produces it. */
  function NatToString(n: nat): (r: string)
    ensures 0 < |r|
    ensures forall i :: 0 <= i < |r| ==> IsDigit(r[i])
    ensures n < 10 <==> |r| == 1
  {
    if n < 10 then [DigitChar(n)] else NatToString(n / 10) + [DigitChar(n % 10)]
  }

  /** Distinct numbers render to distinct strings, so keys built from them never collide. */
  lemma {:induction false} NatToStringInjective(a: nat, b: nat)
    requires NatToString(a) == NatToString(b)
    ensures a == b
  {
    var s := NatToString(a);
    assert DigitChar(a % 10) == s[|s| - 1] == DigitChar(b % 10);
    if a >= 10 && b >= 10 {
      assert NatToString(a / 10) == s[..|s| - 1] == NatToString(b / 10);
      NatToStringInjective(a / 10, b / 10);
    }
  }
}
