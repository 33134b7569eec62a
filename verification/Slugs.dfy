/** Numbered slugs: base, base-2, base-3, ... and why the search among them ends. */
module Slugs {
  import opened Basics

  function Digit(d: nat): char
    requires d < 10
  {
    "0123456789"[d]
  }

  function Decimal(n: nat): (s: string)
    ensures |s| > 0
  {
    if n < 10 then [Digit(n)] else Decimal(n / 10) + [Digit(n % 10)]
  }

  function Numbered(base: string, i: nat): string {
    base + "-" + Decimal(i)
  }

  /** The number a text of digits stands for. */
  function Read(s: string): int {
    if s == "" then 0 else 10 * Read(s[..|s| - 1]) + (s[|s| - 1] as int - '0' as int)
  }

  /** Decimal writes a number in digits, without a leading zero, and it reads back. */
  lemma {:induction false} DecimalReads(n: nat)
    ensures Read(Decimal(n)) == n
    ensures forall c :: c in Decimal(n) ==> '0' <= c <= '9'
    ensures n > 0 ==> Decimal(n)[0] != '0'
  {
    DigitReads(n % 10);
    if n >= 10 {
      DecimalReads(n / 10);
      assert Decimal(n)[..|Decimal(n)| - 1] == Decimal(n / 10);
    } else {
      assert Decimal(n)[..0] == "";
    }
  }

  lemma DigitReads(d: nat)
    requires d < 10
    ensures Digit(d) as int - '0' as int == d && '0' <= Digit(d) <= '9'
  {
  }

  /** A numbered name is the base, a dash, and the number. */
  lemma NumberedReads(base: string, i: nat)
    ensures var s := Numbered(base, i);
            |s| > |base| && s[..|base|] == base && s[|base|] == '-' && Read(s[|base| + 1..]) == i
  {
    DecimalReads(i);
    assert Numbered(base, i)[|base| + 1..] == Decimal(i);
  }

  lemma {:induction false} DecimalInjective(a: nat, b: nat)
    requires Decimal(a) == Decimal(b)
    ensures a == b
    decreases a
  {
    var s, t := Decimal(a), Decimal(b);
    assert s[|s| - 1] == Digit(a % 10) && t[|t| - 1] == Digit(b % 10);
    if a >= 10 && b >= 10 {
      assert s[..|s| - 1] == Decimal(a / 10) && t[..|t| - 1] == Decimal(b / 10);
      DecimalInjective(a / 10, b / 10);
    }
  }

  /** Different numbers give different slugs, none of them the bare base. */
  lemma NumberedDistinct(base: string, i: nat, j: nat)
    ensures Numbered(base, i) != base
    ensures Numbered(base, i) == Numbered(base, j) ==> i == j
  {
    assert |Numbered(base, i)| > |base|;
    if Numbered(base, i) == Numbered(base, j) {
      assert Numbered(base, i)[|base| + 1..] == Decimal(i);
      assert Numbered(base, j)[|base| + 1..] == Decimal(j);
      DecimalInjective(i, j);
    }
  }

  /** base and the first slugs base-2 .. base-(k-1): k - 1 different names. */
  ghost function Tried(base: string, k: nat): set<string>
    requires k >= 2
  {
    if k == 2 then {base} else Tried(base, k - 1) + {Numbered(base, k - 1)}
  }

  lemma {:induction false} TriedMembers(base: string, k: nat)
    requires k >= 2
    ensures forall s :: s in Tried(base, k) <==> s == base || exists j :: 2 <= j < k && s == Numbered(base, j)
  {
    if k > 2 {
      TriedMembers(base, k - 1);
    }
  }

  lemma {:induction false} TriedSize(base: string, k: nat)
    requires k >= 2
    ensures |Tried(base, k)| == k - 1
  {
    if k > 2 {
      TriedSize(base, k - 1);
      TriedMembers(base, k - 1);
      forall j | 0 <= j < k - 1
        ensures Numbered(base, j) != Numbered(base, k - 1) && Numbered(base, k - 1) != base
      {
        NumberedDistinct(base, j, k - 1);
        NumberedDistinct(base, k - 1, j);
      }
    }
  }

  /** A run of names that are all taken cannot be longer than the set of taken names. */
  lemma TriedFits(base: string, k: nat, taken: set<string>)
    requires k >= 2 && base in taken
    requires forall j :: 2 <= j < k ==> Numbered(base, j) in taken
    ensures k - 1 <= |taken|
  {
    TriedMembers(base, k);
    TriedSize(base, k);
    SubsetSize(Tried(base, k), taken);
  }
}
