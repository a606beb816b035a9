/**
 * The string operations the pages use: `toLowerCase` (ASCII letters only),
 * `startsWith`, `includes` and `padStart` of a decimal number.
 */
module Strings {

  /** `c.toLowerCase()` on one character, for the ASCII letters. */
  function LowerChar(c: char): char {
    if 'A' <= c <= 'Z' then (c as int + 32) as char else c
  }

  /** `s.toLowerCase()`, for ASCII letters. */
  function Lower(s: string): (r: string)
    ensures |r| == |s|
  {
    seq(|s|, i requires 0 <= i < |s| => LowerChar(s[i]))
  }

  /** Lowercasing a lowercased string changes nothing. */
  lemma LowerIdempotent(s: string)
    ensures Lower(Lower(s)) == Lower(s)
  {
    assert forall i :: 0 <= i < |s| ==> LowerChar(LowerChar(s[i])) == LowerChar(s[i]);
  }

  /** `s.startsWith(prefix)`. */
  predicate StartsWith(s: string, prefix: string) {
    |prefix| <= |s| && s[..|prefix|] == prefix
  }

  /** q occurs in s starting at index i. */
  predicate OccursAt(s: string, q: string, i: int) {
    0 <= i <= |s| - |q| && s[i..i + |q|] == q
  }

  /** `s.includes(q)`, searched from the left. */
  function Includes(s: string, q: string): (b: bool)
    ensures b <==> exists i :: OccursAt(s, q, i)
    decreases |s|
  {
    if StartsWith(s, q) then
      assert OccursAt(s, q, 0);
      true
    else if s == [] then false
    else
      var b := Includes(s[1..], q);
      assert b ==> exists i :: OccursAt(s, q, i) by {
        if b {
          var j :| OccursAt(s[1..], q, j);
          assert s[1..][j..j + |q|] == s[j + 1..j + 1 + |q|];
          assert OccursAt(s, q, j + 1);
        }
      }
      assert (exists i :: OccursAt(s, q, i)) ==> b by {
        if exists i :: OccursAt(s, q, i) {
          var i :| OccursAt(s, q, i);
          assert i != 0;
          assert s[1..][i - 1..i - 1 + |q|] == s[i..i + |q|];
          assert OccursAt(s[1..], q, i - 1);
        }
      }
      b
  }

  /** Every string includes the empty string (so an empty search term matches everything). */
  lemma IncludesEmpty(s: string)
    ensures Includes(s, "")
  {
    assert OccursAt(s, "", 0);
  }

  /** `s.toLowerCase().includes(q.toLowerCase())`: the search test of the list pages. */
  predicate ContainsIgnoringCase(s: string, q: string) {
    Includes(Lower(s), Lower(q))
  }

  /** Queries that differ only in the case of their letters match the same strings. */
  lemma ContainsIgnoringCaseInvariant(s: string, q1: string, q2: string)
    requires Lower(q1) == Lower(q2)
    ensures ContainsIgnoringCase(s, q1) == ContainsIgnoringCase(s, q2)
  {
  }

  /** The empty query matches every string. */
  lemma ContainsEmpty(s: string)
    ensures ContainsIgnoringCase(s, "")
  {
    IncludesEmpty(Lower(s));
  }

  /** The decimal digits of n, without leading zeros (`n.toString()`). */
  function DecimalString(n: nat): (r: string)
    ensures |r| >= 1
    ensures forall i :: 0 <= i < |r| ==> '0' <= r[i] <= '9'
  {
    if n < 10 then [('0' as int + n) as char]
    else DecimalString(n / 10) + [('0' as int + n % 10) as char]
  }

  /** `s.padStart(width, fill)`. */
  function PadStart(s: string, width: nat, fill: char): (r: string)
    ensures |r| == if |s| < width then width else |s|
    ensures r[|r| - |s|..] == s
  {
    if |s| < width then seq(width - |s|, _ => fill) + s else s
  }
}
