/** Binary digits of a natural number, most significant first: the digit
    string that `bin(n)` writes after its `0b` prefix. */
module Bits {

  function Pow2(e: nat): (p: nat)
    ensures p >= 1
  {
    if e == 0 then 1 else 2 * Pow2(e - 1)
  }

  /** The binary digits of n, most significant first, with no leading zero
      (so the digits of 0 are the empty sequence). Reading them back gives
      n: Value is the inverse of ToBits. */
  function ToBits(n: nat): (r: seq<bool>)
    ensures Value(r) == n
  {
    if n == 0 then []
    else
      var s := ToBits(n / 2) + [n % 2 == 1];
      assert s[..|s| - 1] == ToBits(n / 2);
      s
  }

  /** The number a digit sequence denotes, read most significant first. */
  function Value(s: seq<bool>): nat
  {
    if s == [] then 0 else 2 * Value(s[..|s| - 1]) + (if s[|s| - 1] then 1 else 0)
  }

  /** The prefix of all the digits, as the loop reaches it, is worth n. */
  lemma ValueToBits(n: nat)
    ensures Value(ToBits(n)[..|ToBits(n)|]) == n
  {
    var s := ToBits(n);
    assert s[..|s|] == s;
  }

  /** A positive number's digit string starts with a 1: the digit that
      `bin(n)[3:]` drops. */
  lemma {:induction false} LeadingOne(n: nat)
    requires n >= 1
    ensures |ToBits(n)| >= 1 && ToBits(n)[0] && Value(ToBits(n)[..1]) == 1
  {
    if n >= 2 {
      LeadingOne(n / 2);
    }
    assert ToBits(n)[..1] == [true];
  }

  /** The length of the digit string is the bit length of n:
      2^(len-1) <= n < 2^len. */
  lemma {:induction false} BitLength(n: nat)
    requires n >= 1
    ensures |ToBits(n)| >= 1
    ensures Pow2(|ToBits(n)| - 1) <= n < Pow2(|ToBits(n)|)
  {
    if n >= 2 {
      BitLength(n / 2);
    }
  }

  /** Appending one digit doubles the prefix value and adds the digit. */
  lemma PrefixStep(s: seq<bool>, i: nat)
    requires i < |s|
    ensures Value(s[..i + 1]) == 2 * Value(s[..i]) + (if s[i] then 1 else 0)
  {
    assert s[..i + 1][..i] == s[..i];
  }
}
