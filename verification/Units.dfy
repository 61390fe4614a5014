/** Turning a decimal string into whole units of a token, and comparing an observed transfer with an
    invoice in those units. */
module Units {
  import opened Basics
  import opened Digits

  // ---------------------------------------------------------------------------
  // Decimal strings
  // ---------------------------------------------------------------------------

  function DotAt(s: string): (n: nat)
    ensures n <= |s| && (n < |s| ==> s[n] == '.') && '.' !in s[..n]
  {
    if s == "" || s[0] == '.' then 0
    else
      var n := DotAt(s[1..]);
      assert s[..n + 1] == [s[0]] + s[1..][..n];
      n + 1
  }

  /** The parts before the first dot and between the first two, as splitting at dots gives them. */
  function Whole(s: string): string {
    s[..DotAt(s)]
  }

  function Fraction(s: string): string {
    if DotAt(s) == |s| then ""
    else
      var rest := s[DotAt(s) + 1..];
      rest[..DotAt(rest)]
  }

  /** digits, or digits.digits; either part may be empty. */
  predicate IsDecimal(s: string) {
    AllDigits(Whole(s)) && AllDigits(Fraction(s))
  }

  /** The integer made of all the digits; the string denotes it over ten to the length of the fraction. */
  function Numerator(s: string): nat
    requires IsDecimal(s)
  {
    Value(Whole(s) + Fraction(s))
  }

  function Denominator(s: string): (d: nat)
    ensures d >= 1
  {
    Pow10(|Fraction(s)|)
  }

  /** Comparison of the denoted numbers. */
  predicate AtLeast(s: string, t: string)
    requires IsDecimal(s) && IsDecimal(t)
  {
    Numerator(s) * Denominator(t) >= Numerator(t) * Denominator(s)
  }

  function Padded(fraction: string, decimals: nat): (p: string)
    ensures |p| == decimals
  {
    (fraction + Repeat('0', decimals))[..decimals]
  }

  function ParseUnits(s: string, decimals: nat): nat
    requires IsDecimal(s)
  {
    Value((if Whole(s) == "" then "0" else Whole(s)) + Padded(Fraction(s), decimals))
  }

  /** A string is its whole part alone, or that, a dot and the fraction, and perhaps another dot and a rest; the
      parts hold no dot. */
  lemma SplitParts(s: string) returns (rest: string)
    ensures '.' !in Whole(s) && '.' !in Fraction(s)
    ensures (s == Whole(s) && Fraction(s) == "") || s == Whole(s) + "." + Fraction(s) + rest
    ensures rest == "" || rest[0] == '.'
  {
    rest := "";
    if DotAt(s) < |s| {
      var tail := s[DotAt(s) + 1..];
      rest := tail[DotAt(tail)..];
      assert s == Whole(s) + "." + tail && tail == Fraction(s) + rest;
    } else {
      assert s == Whole(s);
    }
  }

  // ---------------------------------------------------------------------------
  // Values of digit strings
  // ---------------------------------------------------------------------------

  lemma TenTimes(x: nat, p: nat)
    ensures 10 * (x * p) == x * (10 * p)
  {
  }

  lemma ValueSnoc(front: string, last: char)
    requires AllDigits(front) && IsDigit(last)
    ensures AllDigits(front + [last]) && Value(front + [last]) == 10 * Value(front) + (last - '0') as nat
  {
    assert (front + [last])[..|front|] == front;
  }

  lemma {:induction false} ValueConcat(a: string, b: string)
    requires AllDigits(a) && AllDigits(b)
    ensures AllDigits(a + b) && Value(a + b) == Value(a) * Pow10(|b|) + Value(b)
  {
    if b == "" {
      assert a + b == a;
    } else {
      var front, last := b[..|b| - 1], b[|b| - 1];
      assert b == front + [last] && a + b == (a + front) + [last];
      ValueConcat(a, front);
      ValueSnoc(front, last);
      ValueSnoc(a + front, last);
      TenTimes(Value(a), Pow10(|front|));
    }
  }

  lemma {:induction false} ValueBound(s: string)
    requires AllDigits(s)
    ensures Value(s) < Pow10(|s|)
    ensures Value(s) == 0 <==> forall i | 0 <= i < |s| :: s[i] == '0'
  {
    if s != "" {
      var front := s[..|s| - 1];
      ValueBound(front);
      assert forall i | 0 <= i < |front| :: s[i] == front[i];
      assert s == front + [s[|s| - 1]];
    }
  }

  lemma ZerosValue(n: nat)
    ensures AllDigits(Repeat('0', n)) && Value(Repeat('0', n)) == 0
  {
    ValueBound(Repeat('0', n));
  }

  lemma {:induction false} Pow10Sum(a: nat, b: nat)
    ensures Pow10(a + b) == Pow10(a) * Pow10(b)
  {
    if a > 0 {
      Pow10Sum(a - 1, b);
      TenTimes(Pow10(b), Pow10(a - 1));
    }
  }

  lemma ZeroFirst(t: string)
    requires AllDigits(t)
    ensures AllDigits("0" + t) && Value("0" + t) == Value(t)
  {
    assert "0"[..0] == "" && Value("0") == 0;
    ValueConcat("0", t);
  }

  lemma LeadingZero(s: string, t: string)
    requires IsDecimal(s) && AllDigits(t)
    ensures AllDigits((if Whole(s) == "" then "0" else Whole(s)) + t)
    ensures Value((if Whole(s) == "" then "0" else Whole(s)) + t) == Value(Whole(s) + t)
  {
    if Whole(s) == "" {
      ZeroFirst(t);
      assert Whole(s) + t == t;
    }
  }

  // ---------------------------------------------------------------------------
  // The parsed amount is the denoted number, scaled and rounded down
  // ---------------------------------------------------------------------------

  lemma FloorUnique(n: nat, d: nat, q: nat, r: nat)
    requires n == d * q + r && r < d
    ensures n / d == q
  {
    var k, x := n / d, n % d;
    assert n == d * k + x && x < d;
    assert d * (k - q) == r - x && d * (q - k) == x - r;
    SmallProduct(d, k - q);
    SmallProduct(d, q - k);
  }

  /** A fraction that fits is only padded, so nothing is lost. */
  lemma ParseFits(s: string, decimals: nat)
    requires IsDecimal(s) && |Fraction(s)| <= decimals
    ensures ParseUnits(s, decimals) == Numerator(s) * Pow10(decimals - |Fraction(s)|)
  {
    var w, f := Whole(s), Fraction(s);
    var fill := Repeat('0', decimals - |f|);
    ZerosValue(decimals - |f|);
    assert Padded(f, decimals) == f + fill;
    ValueConcat(w, f);
    ValueConcat(w + f, fill);
    assert w + (f + fill) == (w + f) + fill;
    LeadingZero(s, f + fill);
  }

  lemma CutValue(front: string, lost: string)
    requires AllDigits(front) && AllDigits(lost)
    ensures AllDigits(front + lost) && Value(front + lost) == Value(front) * Pow10(|lost|) + Value(lost)
    ensures Value(lost) < Pow10(|lost|)
  {
    ValueConcat(front, lost);
    ValueBound(lost);
  }

  /** A longer one loses its tail. */
  lemma ParseCuts(s: string, decimals: nat)
    requires IsDecimal(s) && |Fraction(s)| > decimals
    ensures AllDigits(Fraction(s)[decimals..])
    ensures Numerator(s) == ParseUnits(s, decimals) * Pow10(|Fraction(s)| - decimals) + Value(Fraction(s)[decimals..])
    ensures Value(Fraction(s)[decimals..]) < Pow10(|Fraction(s)| - decimals)
  {
    var w, f := Whole(s), Fraction(s);
    var kept, lost := f[..decimals], f[decimals..];
    assert Padded(f, decimals) == kept;
    LeadingZero(s, kept);
    assert AllDigits(w + kept);
    CutValue(w + kept, lost);
    assert (w + kept) + lost == w + f;
  }

  lemma {:induction false} MulMonotone(a: nat, b: nat, c: nat)
    requires a <= b
    ensures a * c <= b * c
  {
    if c > 0 { MulMonotone(a, b, c - 1); }
  }

  lemma Scaled(a: nat, b: nat, c: nat)
    requires c > 0
    ensures a < b <==> a * c < b * c
    ensures a <= b <==> a * c <= b * c
  {
    if a < b { MulMonotone(a + 1, b, c); } else { MulMonotone(b, a, c); }
    if b < a { MulMonotone(b + 1, a, c); }
  }

  /** The digits beyond the decimals are all zero. */
  predicate Fits(s: string, decimals: nat) {
    forall i | decimals <= i < |Fraction(s)| :: Fraction(s)[i] == '0'
  }

  lemma TailIsZero(s: string, decimals: nat)
    requires IsDecimal(s) && |Fraction(s)| > decimals && AllDigits(Fraction(s)[decimals..])
    ensures Fits(s, decimals) <==> Value(Fraction(s)[decimals..]) == 0
  {
    var tail := Fraction(s)[decimals..];
    ValueBound(tail);
    assert forall i | 0 <= i < |tail| :: tail[i] == Fraction(s)[decimals + i];
    if Value(tail) == 0 {
      forall i | decimals <= i < |Fraction(s)| ensures Fraction(s)[i] == '0' { assert tail[i - decimals] == '0'; }
    }
  }

  lemma CutArithmetic(n: nat, d: nat, p: nat, lost: nat, cut: nat, scale: nat)
    requires n == p * cut + lost && d == cut * scale && lost < cut && scale > 0
    ensures n * scale == d * p + lost * scale
    ensures lost * scale < d
  {
    assert (p * cut) * scale == d * p;
    Scaled(lost, cut, scale);
  }

  /** The denoted number, scaled, is the parsed amount and a remainder. */
  predicate Scales(s: string, decimals: nat, r: nat)
    requires IsDecimal(s)
  {
    Numerator(s) * Pow10(decimals) == Denominator(s) * ParseUnits(s, decimals) + r && r < Denominator(s)
  }

  lemma ScalingFits(s: string, decimals: nat)
    requires IsDecimal(s) && |Fraction(s)| <= decimals
    ensures Scales(s, decimals, 0)
  {
    var n, f := Numerator(s), |Fraction(s)|;
    ParseFits(s, decimals);
    Pow10Sum(f, decimals - f);
    Regroup(n, Pow10(f), Pow10(decimals - f));
  }

  lemma Regroup(n: nat, a: nat, b: nat)
    ensures n * (a * b) == a * (n * b)
  {
  }

  lemma Pow10Split(n: nat, k: nat)
    requires k <= n
    ensures Pow10(n) == Pow10(n - k) * Pow10(k)
  {
    Pow10Sum(n - k, k);
  }

  lemma ScalingCuts(s: string, decimals: nat)
    requires IsDecimal(s) && |Fraction(s)| > decimals
    ensures AllDigits(Fraction(s)[decimals..])
    ensures Scales(s, decimals, Value(Fraction(s)[decimals..]) * Pow10(decimals))
  {
    ParseCuts(s, decimals);
    var cut, lost := Pow10(|Fraction(s)| - decimals), Value(Fraction(s)[decimals..]);
    Pow10Split(|Fraction(s)|, decimals);
    CutArithmetic(Numerator(s), Denominator(s), ParseUnits(s, decimals), lost, cut, Pow10(decimals));
  }

  /** The remainder is zero exactly when no non-zero digit is dropped. */
  lemma Scaling(s: string, decimals: nat) returns (r: nat)
    requires IsDecimal(s)
    ensures Scales(s, decimals, r) && (r == 0 <==> Fits(s, decimals))
  {
    if |Fraction(s)| <= decimals {
      ScalingFits(s, decimals);
      r := 0;
    } else {
      ScalingCuts(s, decimals);
      TailIsZero(s, decimals);
      var lost := Value(Fraction(s)[decimals..]);
      Scaled(0, lost, Pow10(decimals));
      r := lost * Pow10(decimals);
    }
  }

  /** For every decimal string and any number of decimals. */
  lemma ParseIsFloor(s: string, decimals: nat)
    requires IsDecimal(s)
    ensures ParseUnits(s, decimals) == Numerator(s) * Pow10(decimals) / Denominator(s)
  {
    var r := Scaling(s, decimals);
    FloorUnique(Numerator(s) * Pow10(decimals), Denominator(s), ParseUnits(s, decimals), r);
  }

  lemma ExactIff(n: nat, d: nat, p: nat, r: nat)
    requires n == d * p + r
    ensures p * d <= n && (r == 0 <==> p * d == n)
  {
  }

  /** Exact exactly when it fits. */
  lemma FitsIsExact(s: string, decimals: nat)
    requires IsDecimal(s)
    ensures ParseUnits(s, decimals) * Denominator(s) <= Numerator(s) * Pow10(decimals)
    ensures Fits(s, decimals) <==> ParseUnits(s, decimals) * Denominator(s) == Numerator(s) * Pow10(decimals)
  {
    var r := Scaling(s, decimals);
    ExactIff(Numerator(s) * Pow10(decimals), Denominator(s), ParseUnits(s, decimals), r);
  }

  // ---------------------------------------------------------------------------
  // Comparing with an invoice
  // ---------------------------------------------------------------------------

  /** Rounding down: reaching a number of units is the same before and after. */
  lemma FloorReaches(s: string, decimals: nat, q: nat)
    requires IsDecimal(s)
    ensures ParseUnits(s, decimals) >= q <==> Numerator(s) * Pow10(decimals) >= q * Denominator(s)
  {
    ParseIsFloor(s, decimals);
    FloorGe(Numerator(s) * Pow10(decimals), Denominator(s), q);
  }

  lemma FloorGe(n: nat, d: nat, q: nat)
    requires d > 0
    ensures n / d >= q <==> n >= q * d
  {
    var k, x := n / d, n % d;
    assert n == d * k + x && x < d;
    if k >= q { MulMonotone(q, k, d); } else { MulMonotone(k + 1, q, d); }
  }

  /** Parsing is monotone in the denoted number. */
  lemma ParseMonotone(s: string, t: string, decimals: nat)
    requires IsDecimal(s) && IsDecimal(t) && AtLeast(s, t)
    ensures ParseUnits(s, decimals) >= ParseUnits(t, decimals)
  {
    var q := ParseUnits(t, decimals);
    FitsIsExact(t, decimals);
    CrossScale(Numerator(s), Denominator(s), Numerator(t), Denominator(t), q, Pow10(decimals));
    FloorReaches(s, decimals, q);
  }

  lemma CrossScale(ns: nat, ds: nat, nt: nat, dt: nat, q: nat, scale: nat)
    requires ds > 0 && dt > 0 && ns * dt >= nt * ds && q * dt <= nt * scale
    ensures ns * scale >= q * ds
  {
    Scaled(nt * ds, ns * dt, 1 + scale);
    assert (q * dt) * ds <= (nt * scale) * ds by { Scaled(q * dt, nt * scale, ds); }
    assert (nt * scale) * ds == (nt * ds) * scale;
    assert (nt * ds) * scale <= (ns * dt) * scale by { if scale > 0 { Scaled(nt * ds, ns * dt, scale); } }
    assert (q * ds) * dt == (q * dt) * ds && (ns * scale) * dt == (ns * dt) * scale;
    Scaled(q * ds, ns * scale, dt);
  }

  /** When the invoice amount fits, the comparison in units is the comparison of the amounts. */
  lemma FittingInvoice(observed: string, invoice: string, decimals: nat)
    requires IsDecimal(observed) && IsDecimal(invoice) && Fits(invoice, decimals)
    ensures ParseUnits(observed, decimals) >= ParseUnits(invoice, decimals) <==> AtLeast(observed, invoice)
  {
    if AtLeast(observed, invoice) {
      ParseMonotone(observed, invoice, decimals);
    } else {
      ParseMonotone(invoice, observed, decimals);
      var q, scale := ParseUnits(invoice, decimals), Pow10(decimals);
      FitsIsExact(invoice, decimals);
      FloorReaches(observed, decimals, q);
      StrictCross(Numerator(observed), Denominator(observed), Numerator(invoice), Denominator(invoice), q, scale);
    }
  }

  lemma StrictCross(ns: nat, ds: nat, nt: nat, dt: nat, q: nat, scale: nat)
    requires ds > 0 && dt > 0 && scale > 0 && ns * dt < nt * ds && q * dt == nt * scale
    ensures ns * scale < q * ds
  {
    Scaled(ns * dt, nt * ds, scale);
    assert (ns * dt) * scale == (ns * scale) * dt && (nt * ds) * scale == (nt * scale) * ds == (q * ds) * dt;
    Scaled(ns * scale, q * ds, dt);
  }

  /** The invoice amount with the digits that are dropped. */
  function CutOff(s: string, decimals: nat): string
    requires |Fraction(s)| > decimals
  {
    Whole(s) + "." + Fraction(s)[..decimals]
  }

  lemma CutOffParts(s: string, decimals: nat)
    requires IsDecimal(s) && |Fraction(s)| > decimals
    ensures Whole(CutOff(s, decimals)) == Whole(s) && Fraction(CutOff(s, decimals)) == Fraction(s)[..decimals]
    ensures IsDecimal(CutOff(s, decimals))
  {
    var t, f := CutOff(s, decimals), Fraction(s)[..decimals];
    FirstDot(Whole(s), f, t);
    assert '.' !in f by { assert forall c | c in f :: c in Fraction(s); }
    assert t[|Whole(s)| + 1..] == f;
  }

  lemma {:induction false} FirstDot(a: string, b: string, t: string)
    requires '.' !in a && t == a + "." + b
    ensures DotAt(t) == |a|
  {
    if a != "" { FirstDot(a[1..], b, t[1..]); }
  }

  /** The test "observed is at least the invoice" agrees with the amounts themselves for every observed
      amount exactly when no digit of the invoice amount is dropped. */
  lemma ComparisonIsFaithfulIff(invoice: string, decimals: nat)
    requires IsDecimal(invoice)
    ensures Fits(invoice, decimals) <==>
              forall observed: string | IsDecimal(observed) ::
                ParseUnits(observed, decimals) >= ParseUnits(invoice, decimals) <==> AtLeast(observed, invoice)
  {
    if Fits(invoice, decimals) {
      forall observed: string | IsDecimal(observed)
        ensures ParseUnits(observed, decimals) >= ParseUnits(invoice, decimals) <==> AtLeast(observed, invoice)
      {
        FittingInvoice(observed, invoice, decimals);
      }
    } else {
      var cut := CutOff(invoice, decimals);
      CutOffParts(invoice, decimals);
      CutOffUnderpays(invoice, decimals);
    }
  }

  lemma CutOffUnderpays(invoice: string, decimals: nat)
    requires IsDecimal(invoice) && !Fits(invoice, decimals)
    requires IsDecimal(CutOff(invoice, decimals))
    ensures var cut := CutOff(invoice, decimals);
            ParseUnits(cut, decimals) == ParseUnits(invoice, decimals) && !AtLeast(cut, invoice)
  {
    var cut, p := CutOff(invoice, decimals), ParseUnits(invoice, decimals);
    CutOffParts(invoice, decimals);
    assert Padded(Fraction(cut), decimals) == Padded(Fraction(invoice), decimals);
    ParseFits(cut, decimals);
    assert Numerator(cut) == p;
    FitsIsExact(invoice, decimals);
  }

  /** A transfer of whole units covers the invoice amount. */
  predicate Covers(units: nat, invoice: string, decimals: nat)
    requires IsDecimal(invoice)
  {
    units * Denominator(invoice) >= Numerator(invoice) * Pow10(decimals)
  }

  lemma CoversFitting(units: nat, invoice: string, decimals: nat)
    requires IsDecimal(invoice) && Fits(invoice, decimals)
    ensures units >= ParseUnits(invoice, decimals) <==> Covers(units, invoice, decimals)
  {
    FitsIsExact(invoice, decimals);
    Scaled(units, ParseUnits(invoice, decimals), Denominator(invoice));
  }

  /** The same for a transfer reported in units: the test is faithful for every number of units exactly when no
      non-zero digit of the invoice amount is dropped. */
  lemma UnitComparisonIsFaithfulIff(invoice: string, decimals: nat)
    requires IsDecimal(invoice)
    ensures Fits(invoice, decimals) <==>
              forall units: nat :: units >= ParseUnits(invoice, decimals) <==> Covers(units, invoice, decimals)
  {
    if Fits(invoice, decimals) {
      forall units: nat ensures units >= ParseUnits(invoice, decimals) <==> Covers(units, invoice, decimals) {
        CoversFitting(units, invoice, decimals);
      }
    } else {
      FitsIsExact(invoice, decimals);
      assert !Covers(ParseUnits(invoice, decimals), invoice, decimals);
    }
  }

  /** What the chain reports for a transfer. */
  datatype Observed = Missing | Hex(units: nat) | Text(amount: string) | Malformed

  function Decimals(asset: string): nat {
    if asset == "UNY" then 18 else 6
  }

  /** Hexadecimal values are units already; a missing or unreadable value matches nothing. */
  predicate MatchesInvoiceAmount(asset: string, invoice: string, observed: Observed)
    requires IsDecimal(invoice)
    requires observed.Text? ==> IsDecimal(observed.amount)
  {
    match observed
    case Missing => false
    case Malformed => false
    case Hex(units) => units >= ParseUnits(invoice, Decimals(asset))
    case Text(amount) => ParseUnits(amount, Decimals(asset)) >= ParseUnits(invoice, Decimals(asset))
  }

  /** UNY has 18 decimals, every other asset 6. */
  lemma MatchMeans(asset: string, invoice: string, observed: Observed)
    requires IsDecimal(invoice)
    requires observed.Text? ==> IsDecimal(observed.amount)
    ensures var needed := ParseUnits(invoice, if asset == "UNY" then 18 else 6);
            && (observed.Hex? ==> (MatchesInvoiceAmount(asset, invoice, observed) <==> observed.units >= needed))
            && (observed.Text? ==> (MatchesInvoiceAmount(asset, invoice, observed)
                                    <==> ParseUnits(observed.amount, if asset == "UNY" then 18 else 6) >= needed))
            && (observed.Missing? || observed.Malformed? ==> !MatchesInvoiceAmount(asset, invoice, observed))
  {
  }

  /** The transfer really covers the invoice; what cannot be read does not. */
  predicate Pays(asset: string, invoice: string, observed: Observed)
    requires IsDecimal(invoice)
    requires observed.Text? ==> IsDecimal(observed.amount)
  {
    match observed
    case Missing => false
    case Malformed => false
    case Hex(units) => Covers(units, invoice, Decimals(asset))
    case Text(amount) => AtLeast(amount, invoice)
  }

  /** Invoice amounts are stored with seven decimals: in UNY a match means the transfer covers the invoice;
      in a six-decimal asset that is guaranteed when the seventh digit is zero. */
  lemma SevenDecimals(asset: string, invoice: string, observed: Observed)
    requires IsDecimal(invoice) && |Fraction(invoice)| == 7
    requires observed.Text? ==> IsDecimal(observed.amount)
    requires asset == "UNY" || Fraction(invoice)[6] == '0'
    ensures MatchesInvoiceAmount(asset, invoice, observed) <==> Pays(asset, invoice, observed)
  {
    match observed
    case Hex(units) => CoversFitting(units, invoice, Decimals(asset));
    case Text(amount) => FittingInvoice(amount, invoice, Decimals(asset));
    case _ =>
  }
}
