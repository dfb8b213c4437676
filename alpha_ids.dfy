/**
 * The id allocator of src/quad-edge-2.ts: the bag's counter rendered in bijective base 26
 * with the digits 'a'..'z' (1 is "a", 26 is "z", 27 is "aa").
 */
module AlphaIds {

  predicate IsLower(c: char) {
    'a' <= c <= 'z'
  }

  /** The digit of n in 1..26: the remainder, with 26 standing for a zero remainder. */
  function Digit(n: nat): (d: nat)
    ensures 1 <= d <= 26 && d % 26 == n % 26
  {
    if n % 26 == 0 then 26 else n % 26
  }

  /** `toAlpha`: the leading digits of (n - 1) / 26 when n exceeds 26, then n's own digit. */
  function ToAlpha(n: nat): (s: string)
    ensures |s| >= 1
    ensures forall i :: 0 <= i < |s| ==> IsLower(s[i])
    ensures s[|s| - 1] == ('a' as int + Digit(n) - 1) as char
  {
    (if n > 26 then ToAlpha((n - 1) / 26) else "") + [('a' as int + Digit(n) - 1) as char]
  }

  /** Reading a string of lowercase letters back as a bijective base-26 numeral. */
  function FromAlpha(s: string): (n: nat)
    requires forall i :: 0 <= i < |s| ==> IsLower(s[i])
    ensures |s| >= 1 ==> n >= 1
  {
    if |s| == 0 then 0
    else
      assert IsLower(s[|s| - 1]);
      FromAlpha(s[..|s| - 1]) * 26 + (s[|s| - 1] as int - 'a' as int + 1)
  }

  /** A number 26 q + r + 1 with r below 26 has the digit r + 1 and the leading part q. */
  lemma Split(q: nat, r: nat)
    requires r < 26
    ensures Digit(26 * q + r + 1) == r + 1
    ensures (26 * q + r) / 26 == q
  {
  }

  /** Every positive counter value is read back from its rendering. */
  lemma {:induction false} FromToAlpha(n: nat)
    requires n >= 1
    ensures FromAlpha(ToAlpha(n)) == n
  {
    var s := ToAlpha(n);
    var q, r := (n - 1) / 26, (n - 1) % 26;
    Split(q, r);
    assert n == 26 * q + r + 1;
    assert s[..|s| - 1] == if n > 26 then ToAlpha(q) else "";
    if n > 26 {
      FromToAlpha(q);
    }
  }

  /** Every non-empty lowercase string is the rendering of the number it reads as, so
      `toAlpha` is onto the non-empty lowercase strings. */
  lemma {:induction false} ToFromAlpha(s: string)
    requires |s| >= 1 && forall i :: 0 <= i < |s| ==> IsLower(s[i])
    ensures ToAlpha(FromAlpha(s)) == s
  {
    var p := s[..|s| - 1];
    var d := s[|s| - 1] as int - 'a' as int + 1;
    var n := FromAlpha(s);
    assert n == 26 * FromAlpha(p) + (d - 1) + 1;
    Split(FromAlpha(p), d - 1);
    if |p| == 0 {
      assert s == [s[0]];
    } else {
      ToFromAlpha(p);
      assert (n - 1) / 26 == FromAlpha(p);
      assert s == p + [s[|s| - 1]];
    }
  }

  /** Distinct positive counter values give distinct ids, so an id is never handed out twice. */
  lemma ToAlphaInjective(m: nat, n: nat)
    requires m >= 1 && n >= 1 && m != n
    ensures ToAlpha(m) != ToAlpha(n)
  {
    FromToAlpha(m);
    FromToAlpha(n);
  }

  /** The counter value 0 is never used: its rendering collides with that of 26. */
  lemma ToAlphaZero()
    ensures ToAlpha(0) == ToAlpha(26) == "z"
  {
  }

  /** The first ids: 1 is "a", 26 is "z", 27 is "aa", 28 is "ab", 702 is "zz", 703 is "aaa". */
  lemma ToAlphaExamples()
    ensures ToAlpha(1) == "a" && ToAlpha(26) == "z" && ToAlpha(27) == "aa"
    ensures ToAlpha(28) == "ab" && ToAlpha(702) == "zz" && ToAlpha(703) == "aaa"
  {
  }
}
