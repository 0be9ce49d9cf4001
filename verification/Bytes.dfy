/** Byte strings, and the decimal notation that strconv.Itoa writes and strconv.Atoi reads. */
module Bytes {

  type Byte = b: int | 0 <= b < 256

  type Bytes = seq<Byte>

  const SLASH: Byte := 0x2F
  const COMMA: Byte := 0x2C
  const MINUS: Byte := 0x2D
  const ZERO: Byte := 0x30
  const LBRACKET: Byte := 0x5B
  const RBRACKET: Byte := 0x5D
  const LBRACE: Byte := 0x7B
  const RBRACE: Byte := 0x7D
  const QUOTE: Byte := 0x22

  /** The name of the root namespace. */
  const ROOT: Bytes := [SLASH]

  predicate IsDigit(b: Byte) {
    ZERO <= b <= ZERO + 9
  }

  ghost predicate AllDigits(s: Bytes) {
    forall i :: 0 <= i < |s| ==> IsDigit(s[i])
  }

  /** Go's addition and subtraction of bytes. */
  function AddByte(a: Byte, b: Byte): Byte {
    (a + b) % 256
  }

  function SubByte(a: Byte, b: Byte): Byte {
    (a - b) % 256
  }

  function Pow10(k: nat): (p: nat)
    ensures p >= 1
  {
    if k == 0 then 1 else 10 * Pow10(k - 1)
  }

  function Itoa(n: int): Bytes
    decreases if n < 0 then 1 else 0, if n < 0 then -n else n
  {
    if n < 0 then [MINUS] + Itoa(-n)
    else if n < 10 then [ZERO + n]
    else Itoa(n / 10) + [ZERO + n % 10]
  }

  /** The value of a string of digits. */
  function Atoi(s: Bytes): (n: nat)
    requires AllDigits(s)
  {
    if s == [] then 0 else 10 * Atoi(s[..|s| - 1]) + (s[|s| - 1] - ZERO)
  }

  /** Printing a non-negative number and reading it back. */
  lemma {:induction false} AtoiOfItoa(n: nat)
    ensures Itoa(n) != [] && AllDigits(Itoa(n)) && Atoi(Itoa(n)) == n
  {
    if n < 10 {
      assert Itoa(n) == [ZERO + n];
      assert Itoa(n)[..0] == [];
    } else {
      AtoiOfItoa(n / 10);
      assert Itoa(n)[..|Itoa(n)| - 1] == Itoa(n / 10);
    }
  }

  /** A number is printed with at most `k` digits exactly when it is below 10 to the `k`. */
  lemma {:induction false} ItoaLength(n: nat, k: nat)
    requires k >= 1
    ensures |Itoa(n)| <= k <==> n < Pow10(k)
  {
    if n < 10 {
      assert Pow10(k) == 10 * Pow10(k - 1);
    } else if k == 1 {
      assert Pow10(1) == 10 * Pow10(0);
      AtoiOfItoa(n / 10);
    } else {
      ItoaLength(n / 10, k - 1);
      assert Pow10(k) == 10 * Pow10(k - 1);
    }
  }

  /**
   The digits of a number that is not negative, from the last to the first; the first is no zero, unless it is
   the only one.
   */
  lemma {:induction false} ItoaDigits(n: nat, k: nat)
    requires k < |Itoa(n)|
    ensures Itoa(n)[|Itoa(n)| - 1 - k] == ZERO + (n / Pow10(k)) % 10
    ensures n > 0 ==> Itoa(n)[0] != ZERO
  {
    if n >= 10 {
      if k > 0 {
        ItoaDigits(n / 10, k - 1);
        DivideTwice(n, Pow10(k - 1));
      } else {
        AtoiOfItoa(n / 10);
        ItoaDigits(n / 10, 0);
      }
    }
  }

  lemma DivideTwice(n: nat, p: nat)
    requires p >= 1
    ensures n / 10 / p == n / (10 * p)
  {
    var q := n / 10 / p;
    var r := n / 10 % p;
    assert n == 10 * (p * q + r) + n % 10;
    assert n == (10 * p) * q + (10 * r + n % 10);
    assert 0 <= 10 * r + n % 10 < 10 * p;
    Quotient(n, 10 * p, q, 10 * r + n % 10);
  }

  lemma Quotient(n: int, d: int, q: int, r: int)
    requires d > 0 && n == d * q + r && 0 <= r < d
    ensures n / d == q
  {
    var e := n / d;
    assert d * (q - e) == n % d - r;
    assert d * (e - q) == r - n % d;
    if q > e {
      MultipleIsLarge(d, q - e);
    } else if e > q {
      MultipleIsLarge(d, e - q);
    }
  }

  lemma {:induction false} MultipleIsLarge(d: int, x: nat)
    requires d > 0 && x > 0
    ensures d * x >= d
  {
    if x > 1 {
      MultipleIsLarge(d, x - 1);
      assert d * x == d * (x - 1) + d;
    }
  }

  /** The value of a digit string is below 10 to its length. */
  lemma {:induction false} AtoiBound(s: Bytes)
    requires AllDigits(s)
    ensures Atoi(s) < Pow10(|s|)
  {
    if s != [] {
      AtoiBound(s[..|s| - 1]);
    }
  }

  lemma {:induction false} Pow10Monotone(j: nat, k: nat)
    requires j <= k
    ensures Pow10(j) <= Pow10(k)
  {
    if j < k {
      Pow10Monotone(j, k - 1);
    }
  }

  lemma Pow10Of18()
    ensures Pow10(18) == 1_000_000_000_000_000_000
  {
    assert Pow10(6) == 1_000_000;
    assert Pow10(12) == 1_000_000_000_000;
  }
}
