/** Decimal text and the byte-wise ordering SQLite uses to compare TEXT values.

    Python formats integers with f-strings (`f"{n}"`, `f"{n:02d}"`) and SQLite's
    `strftime` emits zero-padded fields; SQLite compares TEXT with the BINARY
    collation, which on ASCII text is the lexicographic order defined here
    (`<` on Dafny sequences is the proper-prefix order, not this one). */
module Text {

  /** The ASCII digit for 0 <= k < 10. */
  function Digit(k: int): (c: char)
    requires 0 <= k < 10
    ensures '0' <= c <= '9'
    ensures c as int - '0' as int == k
  {
    (('0' as int) + k) as char
  }

  predicate IsDigit(c: char) {
    '0' <= c <= '9'
  }

  function Pow10(w: nat): (p: nat)
    ensures p >= 1
  {
    if w == 0 then 1 else 10 * Pow10(w - 1)
  }

  /** The `w` low decimal digits of `n`, zero-padded on the left. */
  function Pad(n: nat, w: nat): (s: string)
    ensures |s| == w
    ensures forall i :: 0 <= i < |s| ==> IsDigit(s[i])
  {
    if w == 0 then [] else Pad(n / 10, w - 1) + [Digit(n % 10)]
  }

  /** `f"{n}"` for n >= 0: the shortest decimal spelling. */
  function Decimal(n: nat): (s: string)
    ensures |s| >= 1
    ensures forall i :: 0 <= i < |s| ==> IsDigit(s[i])
  {
    if n < 10 then [Digit(n)] else Decimal(n / 10) + [Digit(n % 10)]
  }

  /** `f"{n}"` / `str(n)` for any integer. */
  function IntToString(n: int): (s: string)
    ensures |s| >= 1
    ensures s[0] == '-' <==> n < 0
  {
    if n < 0 then "-" + Decimal(-n) else Decimal(n)
  }

  /** `f"{n:02d}"`: at least two characters, zero-padded; a negative number
      keeps its sign inside the width (`-3` gives "-3"). */
  function Format02(n: int): (s: string)
    ensures |s| >= 2
    ensures s[0] == '-' <==> n < 0
  {
    if n < 0 then "-" + Decimal(-n)
    else if n < 10 then "0" + Decimal(n)
    else Decimal(n)
  }

  predicate AllDigits(s: string) {
    forall i :: 0 <= i < |s| ==> IsDigit(s[i])
  }

  /** The value of a digit string (`int(s)` on plain digits). */
  function DigitsValue(s: string): (v: nat)
    requires AllDigits(s)
  {
    if s == [] then 0
    else DigitsValue(s[..|s| - 1]) * 10 + (s[|s| - 1] as int - '0' as int)
  }

  /** Strict lexicographic order on character sequences. */
  predicate LexLt(a: string, b: string) {
    if |a| == 0 then |b| > 0
    else if |b| == 0 then false
    else if a[0] < b[0] then true
    else if a[0] == b[0] then LexLt(a[1..], b[1..])
    else false
  }

  /** SQLite's `a <= b` on TEXT. */
  predicate LexLe(a: string, b: string) {
    LexLt(a, b) || a == b
  }

  /** `sep.join(parts)`. */
  function Join(parts: seq<string>, sep: string): (s: string)
    ensures parts == [] ==> s == ""
    ensures |parts| == 1 ==> s == parts[0]
  {
    if parts == [] then ""
    else if |parts| == 1 then parts[0]
    else Join(parts[..|parts| - 1], sep) + sep + parts[|parts| - 1]
  }

  // ---------------------------------------------------------------------------
  // Lemmas

  lemma ConcatEq(a: string, x: string, b: string, y: string)
    requires |a| == |b|
    ensures a + x == b + y <==> a == b && x == y
  {
    if a + x == b + y {
      assert a == (a + x)[..|a|] == (b + y)[..|b|] == b;
      assert x == (a + x)[|a|..] == (b + y)[|b|..] == y;
    }
  }

  /** Comparing two strings whose first parts have the same length compares
      the first parts, and only on a tie the rest. */
  lemma {:induction false} LexLtAppend(a: string, x: string, b: string, y: string)
    requires |a| == |b|
    ensures LexLt(a + x, b + y) <==> LexLt(a, b) || (a == b && LexLt(x, y))
  {
    if |a| == 0 {
      assert a + x == x && b + y == y;
    } else {
      assert (a + x)[0] == a[0] && (b + y)[0] == b[0];
      assert (a + x)[1..] == a[1..] + x;
      assert (b + y)[1..] == b[1..] + y;
      LexLtAppend(a[1..], x, b[1..], y);
      if a[0] == b[0] {
        assert a == b <==> a[1..] == b[1..] by {
          if a[1..] == b[1..] { assert a == [a[0]] + a[1..]; assert b == [b[0]] + b[1..]; }
        }
      }
    }
  }

  lemma LexLtIrreflexive(a: string)
    ensures !LexLt(a, a)
  {
    if |a| > 0 { LexLtIrreflexive(a[1..]); }
  }

  lemma {:induction false} PadInjective(n: nat, m: nat, w: nat)
    requires n < Pow10(w) && m < Pow10(w)
    ensures Pad(n, w) == Pad(m, w) <==> n == m
  {
    if w > 0 && Pad(n, w) == Pad(m, w) {
      ConcatEq(Pad(n / 10, w - 1), [Digit(n % 10)], Pad(m / 10, w - 1), [Digit(m % 10)]);
      PadInjective(n / 10, m / 10, w - 1);
    }
  }

  /** On numbers of at most `w` digits, the padded spellings compare the
      same way as the numbers. */
  lemma {:induction false} PadLt(n: nat, m: nat, w: nat)
    requires n < Pow10(w) && m < Pow10(w)
    ensures LexLt(Pad(n, w), Pad(m, w)) <==> n < m
  {
    if w == 0 {
      assert n == 0 && m == 0;
    } else {
      var hn, hm := n / 10, m / 10;
      LexLtAppend(Pad(hn, w - 1), [Digit(n % 10)], Pad(hm, w - 1), [Digit(m % 10)]);
      PadLt(hn, hm, w - 1);
      PadInjective(hn, hm, w - 1);
      assert LexLt([Digit(n % 10)], [Digit(m % 10)]) <==> n % 10 < m % 10;
    }
  }

  lemma {:induction false} DigitsValuePad(n: nat, w: nat)
    requires n < Pow10(w)
    ensures DigitsValue(Pad(n, w)) == n
  {
    if w > 0 {
      var s := Pad(n, w);
      assert s[..w - 1] == Pad(n / 10, w - 1);
      DigitsValuePad(n / 10, w - 1);
    }
  }

  lemma {:induction false} DecimalLength(n: nat)
    ensures n >= 10 ==> |Decimal(n)| >= 2
    ensures n >= 100 ==> |Decimal(n)| >= 3
  {
    if n >= 10 { DecimalLength(n / 10); }
  }

  /** A number of exactly `w` digits is spelled the same padded or not. */
  lemma {:induction false} DecimalIsPad(n: nat, w: nat)
    requires w >= 1 && (w == 1 || Pow10(w - 1) <= n) && n < Pow10(w)
    ensures Decimal(n) == Pad(n, w)
  {
    if w == 1 {
      assert Pad(n / 10, 0) == [];
    } else {
      DecimalIsPad(n / 10, w - 1);
    }
  }

  lemma Format02Small(n: int)
    requires 0 <= n < 100
    ensures Format02(n) == Pad(n, 2)
  {
    if n >= 10 {
      assert Decimal(n / 10) == [Digit(n / 10)];
      assert Pad(n / 10, 1) == Pad(0, 0) + [Digit(n / 10)];
    }
  }

  /** A two-digit field equals `f"{m:02d}"` exactly when it spells `m`:
      a negative `m` or one of three or more digits matches no field. */
  lemma Pad2MatchesFormat02(x: nat, m: int)
    requires x < 100
    ensures Pad(x, 2) == Format02(m) <==> x == m
  {
    if m < 0 {
      assert Pad(x, 2)[0] != '-';
    } else if m < 100 {
      Format02Small(m);
      PadInjective(x, m, 2);
    } else {
      DecimalLength(m);
    }
  }
}
