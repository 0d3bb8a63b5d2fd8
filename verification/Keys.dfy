/** The order in which JavaScript compares strings, and when it agrees with numeric order. */
module Keys {
  import opened Text

  predicate Less(a: string, b: string) {
    b != "" && (a == "" || a[0] < b[0] || (a[0] == b[0] && Less(a[1..], b[1..])))
  }

  predicate AtMost(a: string, b: string) {
    a == b || Less(a, b)
  }

  /** The order is total and strict. */
  lemma {:induction false} Trichotomy(a: string, b: string)
    ensures (if Less(a, b) then 1 else 0) + (if a == b then 1 else 0) + (if Less(b, a) then 1 else 0) == 1
  {
    if a != "" && b != "" {
      assert a == [a[0]] + a[1..] && b == [b[0]] + b[1..];
      Trichotomy(a[1..], b[1..]);
    }
  }

  lemma {:induction false} Transitive(a: string, b: string, c: string)
    requires AtMost(a, b) && AtMost(b, c)
    ensures AtMost(a, c) && (Less(a, b) || Less(b, c) ==> Less(a, c))
  {
    if Less(a, b) && Less(b, c) && a != "" && a[0] == b[0] == c[0] {
      Transitive(a[1..], b[1..], c[1..]);
      if a[1..] == c[1..] {
        Trichotomy(a[1..], b[1..]);
      }
    }
  }

  // ----- Fields of fixed width ----------------------------------------------

  lemma {:induction false} FieldOrder(a: string, b: string, x: string, y: string)
    requires |a| == |b|
    ensures Less(a + x, b + y) <==> Less(a, b) || (a == b && Less(x, y))
    ensures a + x == b + y <==> a == b && x == y
  {
    if a == "" {
      assert a + x == x && b + y == y;
    } else {
      assert (a + x)[1..] == a[1..] + x && (b + y)[1..] == b[1..] + y;
      assert a == [a[0]] + a[1..] && b == [b[0]] + b[1..];
      assert a + x == [a[0]] + (a[1..] + x) && b + y == [b[0]] + (b[1..] + y);
      FieldOrder(a[1..], b[1..], x, y);
    }
  }

  lemma {:induction false} DigitOrder(i: nat, j: nat)
    requires i < 10 && j < 10
    ensures Less([DIGITS[i]], [DIGITS[j]]) <==> i < j
    ensures [DIGITS[i]] == [DIGITS[j]] <==> i == j
  {
  }

  /** Decimals of one width compare as their numbers do. */
  lemma {:induction false} DecimalOrder(m: nat, n: nat)
    requires |Decimal(m)| == |Decimal(n)|
    ensures Less(Decimal(m), Decimal(n)) <==> m < n
    ensures Decimal(m) == Decimal(n) <==> m == n
  {
    DigitOrder(m % 10, n % 10);
    if m >= 10 && n >= 10 {
      DecimalOrder(m / 10, n / 10);
      FieldOrder(Decimal(m / 10), Decimal(n / 10), [DIGITS[m % 10]], [DIGITS[n % 10]]);
    }
  }

  function PadTwo(s: string): string {
    if |s| == 0 then "00" else if |s| == 1 then "0" + s else s
  }

  lemma {:induction false} PadTwoOrder(m: nat, n: nat)
    requires m < 100 && n < 100
    ensures |PadTwo(Decimal(m))| == 2
    ensures Less(PadTwo(Decimal(m)), PadTwo(Decimal(n))) <==> m < n
    ensures PadTwo(Decimal(m)) == PadTwo(Decimal(n)) <==> m == n
  {
    PadTwoIs(m);
    PadTwoIs(n);
    DigitOrder(m / 10, n / 10);
    DigitOrder(m % 10, n % 10);
    FieldOrder([DIGITS[m / 10]], [DIGITS[n / 10]], [DIGITS[m % 10]], [DIGITS[n % 10]]);
  }

  lemma {:induction false} PadTwoIs(m: nat)
    requires m < 100
    ensures PadTwo(Decimal(m)) == [DIGITS[m / 10]] + [DIGITS[m % 10]]
  {
    if m < 10 {
      assert Decimal(m) == [DIGITS[m]];
    } else {
      assert Decimal(m / 10) == [DIGITS[m / 10]];
    }
  }

  lemma {:induction false} FourDigits(y: nat)
    requires 1000 <= y < 10000
    ensures |Decimal(y)| == 4
  {
    assert |Decimal(y / 1000)| == 1;
    assert y / 10 / 10 / 10 == y / 1000;
    assert |Decimal(y / 10 / 10)| == 2;
    assert |Decimal(y / 10)| == 3;
  }
}
