/** `format_step_id`: the zero-padded document name of a step, and how far its
    string order agrees with the numbers. */
module StepIds {
  import opened Prelude

  function Digit(d: nat): (c: char)
    requires d < 10
    ensures '0' <= c <= '9' && c as int == '0' as int + d
  {
    ('0' as int + d) as char
  }

  function Decimal(n: nat): (s: string)
    ensures s != [] && IsDigits(s)
  {
    if n < 10 then [Digit(n)] else Decimal(n / 10) + [Digit(n % 10)]
  }

  function Zeros(k: nat): (s: string)
    ensures |s| == k && forall i :: 0 <= i < k ==> s[i] == '0'
  {
    if k == 0 then [] else ['0'] + Zeros(k - 1)
  }

  function FormatStepId(n: nat): (s: string)
    ensures IsDigits(s)
  {
    var d := Decimal(n);
    if |d| < 4 then Zeros(4 - |d|) + d else d
  }

  predicate IsDigits(s: string) {
    forall i :: 0 <= i < |s| ==> '0' <= s[i] <= '9'
  }

  // The number a digit string denotes.
  function Value(s: string): nat
    requires IsDigits(s)
  {
    if s == [] then 0 else 10 * Value(Front(s)) + (Last(s) as int - '0' as int)
  }

  lemma {:induction false} DecimalValue(n: nat)
    ensures Value(Decimal(n)) == n
  {
    if n >= 10 {
      DecimalValue(n / 10);
      FrontOfSnoc(Decimal(n / 10), Digit(n % 10));
    }
  }

  lemma {:induction false} PaddingValue(k: nat, s: string)
    requires IsDigits(s)
    ensures Value(Zeros(k) + s) == Value(s)
    decreases |s|, k
  {
    var t := Zeros(k) + s;
    if s != [] {
      PaddingValue(k, Front(s));
      assert Front(t) == Zeros(k) + Front(s);
    } else if k > 0 {
      ZerosSnoc(k);
      assert t == Zeros(k - 1) + ['0'];
      FrontOfSnoc(Zeros(k - 1), '0');
      PaddingValue(k - 1, []);
      assert Zeros(k - 1) + [] == Zeros(k - 1);
    }
  }

  lemma ZerosSnoc(k: nat)
    requires k > 0
    ensures Zeros(k) == Zeros(k - 1) + ['0']
  {
  }

  /** The number can be read back, so distinct steps have distinct names. */
  lemma StepIdValue(n: nat)
    ensures Value(FormatStepId(n)) == n
  {
    DecimalValue(n);
    var d := Decimal(n);
    if |d| < 4 {
      PaddingValue(4 - |d|, d);
    }
  }

  lemma StepIdInjective(m: nat, n: nat)
    ensures FormatStepId(m) == FormatStepId(n) <==> m == n
  {
    StepIdValue(m);
    StepIdValue(n);
  }

  lemma {:induction false} ValueBound(s: string, bound: nat)
    requires IsDigits(s)
    requires |s| <= 4 && bound == [1, 10, 100, 1000, 10000][|s|]
    ensures Value(s) < bound
  {
    if s != [] {
      ValueBound(Front(s), [1, 10, 100, 1000, 10000][|s| - 1]);
    }
  }

  lemma {:induction false} LessSnoc(a: string, b: string, x: char, y: char)
    requires |a| == |b|
    ensures Less(a + [x], b + [y]) <==> Less(a, b) || (a == b && x < y)
  {
    if a == [] {
      assert a + [x] == [x] && b + [y] == [y];
    } else {
      assert (a + [x])[1..] == a[1..] + [x] && (b + [y])[1..] == b[1..] + [y];
      LessSnoc(a[1..], b[1..], x, y);
      assert a == [a[0]] + a[1..] && b == [b[0]] + b[1..];
    }
  }

  // On digit strings of one length, string order is numeric order.
  lemma {:induction false} SameLengthOrder(a: string, b: string)
    requires |a| == |b| && IsDigits(a) && IsDigits(b)
    ensures Less(a, b) <==> Value(a) < Value(b)
    decreases |a|
  {
    if a != [] {
      SameLengthOrder(Front(a), Front(b));
      LessSnoc(Front(a), Front(b), Last(a), Last(b));
      assert a == Front(a) + [Last(a)] && b == Front(b) + [Last(b)];
      if Value(Front(a)) == Value(Front(b)) {
        LessTotal(Front(a), Front(b));
        SameLengthOrder(Front(b), Front(a));
      }
    }
  }

  lemma {:induction false} DecimalLength(n: nat, k: nat)
    requires 1 <= k <= 4 && n < [1, 10, 100, 1000, 10000][k]
    ensures |Decimal(n)| <= k
    decreases k
  {
    if n >= 10 {
      DecimalLength(n / 10, k - 1);
    }
  }

  lemma StepIdLength(n: nat)
    ensures |FormatStepId(n)| == 4 <==> n <= 9999
    ensures |FormatStepId(n)| >= 4
  {
    StepIdValue(n);
    if n <= 9999 {
      DecimalLength(n, 4);
    } else if |FormatStepId(n)| == 4 {
      ValueBound(FormatStepId(n), 10000);
    }
  }

  /** Names sort numerically up to any bound exactly when the bound is at most
      9999: the first five-digit name sorts before its predecessor. */
  lemma StepIdOrder(bound: nat)
    ensures (forall m: nat, n: nat :: m < n <= bound ==> Less(FormatStepId(m), FormatStepId(n)))
            <==> bound <= 9999
  {
    if bound <= 9999 {
      forall m: nat, n: nat | m < n <= bound
        ensures Less(FormatStepId(m), FormatStepId(n))
      {
        StepIdBelow(m, n);
      }
    } else {
      StepIdOverflow();
      LessAsymmetric(FormatStepId(10000), FormatStepId(9999));
    }
  }

  lemma StepIdBelow(m: nat, n: nat)
    requires m < n <= 9999
    ensures Less(FormatStepId(m), FormatStepId(n))
  {
    StepIdLength(m);
    StepIdLength(n);
    StepIdValue(m);
    StepIdValue(n);
    SameLengthOrder(FormatStepId(m), FormatStepId(n));
  }

  lemma StepIdOverflow()
    ensures Less(FormatStepId(10000), FormatStepId(9999))
  {
    assert Decimal(99) == "99";
    assert Decimal(999) == "999";
    assert Decimal(9999) == "9999";
    assert Decimal(100) == "100";
    assert Decimal(1000) == "1000";
    assert Decimal(10000) == "10000";
  }
}
