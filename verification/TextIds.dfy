/** Event numbers as text: the zero-padded format and its order. */
module TextIds {

  function Digit(d: nat): char
    requires d < 10
  {
    ("0123456789")[d]
  }

  /** The last `width` decimal digits of `n`. */
  function Fixed(n: nat, width: nat): (s: string)
    ensures |s| == width
  {
    if width == 0 then "" else Fixed(n / 10, width - 1) + [Digit(n % 10)]
  }

  function Decimal(n: nat): (s: string)
    ensures |s| > 0
  {
    if n < 10 then [Digit(n)] else Decimal(n / 10) + [Digit(n % 10)]
  }

  /** The format `:05d`: at least five digits. */
  function Padded(n: nat): string {
    if n < 100000 then Fixed(n, 5) else Decimal(n)
  }

  /** Text comparison, character by character. */
  predicate TextLess(a: string, b: string) {
    if b == "" then false
    else if a == "" then true
    else if a[0] != b[0] then a[0] < b[0]
    else TextLess(a[1..], b[1..])
  }

  lemma {:induction false} CommonPrefix(p: string, a: string, b: string)
    ensures TextLess(p + a, p + b) <==> TextLess(a, b)
  {
    if p == "" {
      assert p + a == a && p + b == b;
    } else {
      assert (p + a)[1..] == p[1..] + a && (p + b)[1..] == p[1..] + b;
      CommonPrefix(p[1..], a, b);
    }
  }

  lemma {:induction false} LastCharacterDecides(a: string, b: string, x: char, y: char)
    requires |a| == |b|
    ensures TextLess(a + [x], b + [y]) <==> TextLess(a, b) || (a == b && x < y)
  {
    if a == "" {
      assert a + [x] == [x] && b + [y] == [y];
    } else {
      assert (a + [x])[1..] == a[1..] + [x] && (b + [y])[1..] == b[1..] + [y];
      LastCharacterDecides(a[1..], b[1..], x, y);
    }
  }

  function Pow10(w: nat): (p: nat)
    ensures p >= 1
  {
    if w == 0 then 1 else 10 * Pow10(w - 1)
  }

  lemma {:induction false} LastCharacterSplits(a: string, b: string, x: char, y: char)
    requires |a| == |b|
    ensures a + [x] == b + [y] <==> a == b && x == y
  {
    assert (a + [x])[..|a|] == a && (b + [y])[..|b|] == b && (a + [x])[|a|] == x && (b + [y])[|b|] == y;
  }

  lemma {:induction false} DigitsOrder(d: nat, e: nat)
    requires d < 10 && e < 10
    ensures (Digit(d) < Digit(e) <==> d < e) && (Digit(d) == Digit(e) <==> d == e)
  {
  }

  lemma {:induction false} FixedOrder(n: nat, m: nat, w: nat)
    requires n < Pow10(w) && m < Pow10(w)
    ensures TextLess(Fixed(n, w), Fixed(m, w)) <==> n < m
    ensures Fixed(n, w) == Fixed(m, w) <==> n == m
  {
    if w > 0 {
      FixedOrder(n / 10, m / 10, w - 1);
      var a, b := Fixed(n / 10, w - 1), Fixed(m / 10, w - 1);
      DigitsOrder(n % 10, m % 10);
      hide TextLess, Digit;
      LastCharacterDecides(a, b, Digit(n % 10), Digit(m % 10));
      LastCharacterSplits(a, b, Digit(n % 10), Digit(m % 10));
    }
  }

  /** Five-digit ids compare as numbers. */
  lemma {:induction false} PaddedOrder(n: nat, m: nat)
    requires n < 100000 && m < 100000
    ensures TextLess(Padded(n), Padded(m)) <==> n < m
  {
    assert Pow10(5) == 100000;
    FixedOrder(n, m, 5);
  }

  lemma {:induction false} FirstSixDigitId()
    ensures Padded(100000)[0] == '1' && Padded(99999)[0] == '9'
  {
    assert Decimal(10) == Decimal(1) + ['0'];
    assert Decimal(100)[0] == '1';
    assert Decimal(1000)[0] == Decimal(100)[0];
    assert Decimal(10000)[0] == Decimal(1000)[0];
    assert Decimal(100000)[0] == Decimal(10000)[0];
    assert Fixed(9, 1)[0] == Fixed(99, 2)[0] == Fixed(999, 3)[0] == Fixed(9999, 4)[0] == Fixed(99999, 5)[0] == '9';
  }

  predicate IdsKeepOrder(bound: nat) {
    forall n, m :: 1 <= n < m <= bound ==> TextLess(Padded(n), Padded(m))
  }

  /** The ids of one engine sort in emission order exactly while none needs a sixth digit. */
  lemma {:induction false} IdsKeepOrderIff(bound: nat)
    ensures IdsKeepOrder(bound) <==> bound <= 99999
  {
    if bound <= 99999 {
      forall n, m | 1 <= n < m <= bound ensures TextLess(Padded(n), Padded(m)) {
        PaddedOrder(n, m);
      }
    } else {
      FirstSixDigitId();
      assert !TextLess(Padded(99999), Padded(100000));
    }
  }

  // ----- Every width -----

  lemma {:induction false} PowersGrow(v: nat, w: nat)
    requires v <= w
    ensures 1 <= Pow10(v) <= Pow10(w) && (v < w ==> Pow10(v) < Pow10(w))
    decreases w
  {
    if v < w {
      PowersGrow(v, w - 1);
    } else if w > 0 {
      PowersGrow(w - 1, w - 1);
    }
  }

  lemma {:induction false} PowerExceeds(n: nat)
    ensures n < Pow10(n)
  {
    if n > 0 {
      PowerExceeds(n - 1);
    }
  }

  /** The least width, from `w` on, that holds `n`. */
  function WidthFrom(n: nat, w: nat): (width: nat)
    requires w <= n + 5 && (w > 5 ==> Pow10(w - 1) <= n)
    ensures w <= width && n < Pow10(width) && (width > w ==> Pow10(width - 1) <= n)
    ensures width > 5 ==> Pow10(width - 1) <= n
    decreases n + 5 - w
  {
    if n < Pow10(w) then w
    else
      PowerExceeds(n);
      if w < n then WidthFrom(n, w + 1) else PowersGrow(n, w); assert false; w
  }

  function Width(n: nat): (w: nat)
    ensures w >= 5 && n < Pow10(w) && (w > 5 ==> Pow10(w - 1) <= n)
  {
    WidthFrom(n, 5)
  }

  lemma {:induction false} DecimalIsFixed(n: nat, w: nat)
    requires w >= 1 && n < Pow10(w) && (w > 1 ==> Pow10(w - 1) <= n)
    ensures Decimal(n) == Fixed(n, w)
  {
    if w > 1 {
      PowersGrow(1, w - 1);
      DecimalIsFixed(n / 10, w - 1);
    } else {
      assert Fixed(n / 10, 0) == "";
    }
  }

  lemma {:induction false} WidthIs(n: nat, w: nat)
    requires w >= 5 && n < Pow10(w) && (w > 5 ==> Pow10(w - 1) <= n)
    ensures Width(n) == w
  {
    var v := Width(n);
    if v < w {
      PowersGrow(v, w - 1);
    } else if w < v {
      PowersGrow(w, v - 1);
    }
  }

  lemma {:induction false} PaddedIsFixed(n: nat)
    ensures Padded(n) == Fixed(n, Width(n))
  {
    assert Pow10(5) == 100000;
    if n < 100000 {
      WidthIs(n, 5);
    } else {
      DecimalIsFixed(n, Width(n));
    }
  }

  /** Numbers of one width compare as numbers. */
  lemma {:induction false} SameWidthOrder(n: nat, m: nat)
    requires Width(n) == Width(m)
    ensures TextLess(Padded(n), Padded(m)) <==> n < m
  {
    PaddedIsFixed(n);
    PaddedIsFixed(m);
    FixedOrder(n, m, Width(n));
  }

  lemma {:induction false} PaddedIsInjective(n: nat, m: nat)
    requires Padded(n) == Padded(m)
    ensures n == m
  {
    PaddedIsFixed(n);
    PaddedIsFixed(m);
    assert |Fixed(n, Width(n))| == Width(n) && |Fixed(m, Width(m))| == Width(m);
    FixedOrder(n, m, Width(n));
  }

  lemma {:induction false} Nines(k: nat)
    requires k >= 1
    ensures Fixed(Pow10(k) - 1, k)[0] == '9'
  {
    if k > 1 {
      PowersGrow(k - 1, k);
      assert (Pow10(k) - 1) / 10 == Pow10(k - 1) - 1;
      Nines(k - 1);
    } else {
      assert Fixed(9, 1) == Fixed(0, 0) + ['9'];
    }
  }

  lemma {:induction false} LeadingOne(k: nat)
    ensures Fixed(Pow10(k), k + 1)[0] == '1'
  {
    if k > 0 {
      LeadingOne(k - 1);
    } else {
      assert Fixed(1, 1) == Fixed(0, 0) + ['1'];
    }
  }

  /** A power of ten sorts before its predecessor once it needs a further digit. */
  lemma {:induction false} PowersFallBack(k: nat)
    requires k >= 5
    ensures Pow10(k) >= 2 && TextLess(Padded(Pow10(k)), Padded(Pow10(k) - 1))
  {
    PowersGrow(k - 1, k);
    PowersGrow(k, k + 1);
    WidthIs(Pow10(k), k + 1);
    WidthIs(Pow10(k) - 1, k);
    PaddedIsFixed(Pow10(k));
    PaddedIsFixed(Pow10(k) - 1);
    Nines(k);
    LeadingOne(k);
  }

  // ----- Text comparison is a strict total order -----

  lemma {:induction false} TextIsAsymmetric(a: string, b: string)
    requires TextLess(a, b)
    ensures !TextLess(b, a)
  {
    if a != "" && a[0] == b[0] {
      TextIsAsymmetric(a[1..], b[1..]);
    }
  }

  lemma {:induction false} TextIsTotal(a: string, b: string)
    requires a != b
    ensures TextLess(a, b) || TextLess(b, a)
  {
    if a != "" && b != "" && a[0] == b[0] {
      assert a == [a[0]] + a[1..] && b == [b[0]] + b[1..];
      TextIsTotal(a[1..], b[1..]);
    }
  }

  lemma {:induction false} TextIsTransitive(a: string, b: string, c: string)
    requires TextLess(a, b) && TextLess(b, c)
    ensures TextLess(a, c)
  {
    if a != "" && a[0] == b[0] == c[0] {
      TextIsTransitive(a[1..], b[1..], c[1..]);
    }
  }
}
