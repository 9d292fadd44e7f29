/** What the invoice checker's numbers and flags mean. */
module InvoiceMeaning {
  import opened Wrappers
  import opened Invoice

  // ---------------------------------------------------------------------
  // Rounding
  // ---------------------------------------------------------------------

  /** Rounding gives the nearest number of cents, and of two equally near ones the even one. */
  lemma RoundsToCents(x: real) returns (cents: int)
    ensures Round2(x) == cents as real / 100.0
    ensures -0.5 <= 100.0 * x - cents as real <= 0.5
    ensures 100.0 * x - cents as real in {-0.5, 0.5} ==> cents % 2 == 0
  {
    var below := (x * 100.0).Floor;
    var rest := x * 100.0 - below as real;
    cents := if rest < 0.5 || (rest == 0.5 && below % 2 == 0) then below else below + 1;
  }

  /** A number of cents is left alone. */
  lemma CentsStay(n: int)
    ensures Round2(n as real / 100.0) == n as real / 100.0
  {
    var x := n as real / 100.0;
    assert x * 100.0 == n as real;
  }

  // ---------------------------------------------------------------------
  // The score in points, and the verdict
  // ---------------------------------------------------------------------

  /** What is taken off, in hundredths: 15 per anomaly, 10 per flag, 25 for high and 10 for
      medium risk, 15 for a vendor that could not be verified. */
  function Penalty(anomalies: nat, flags: nat, v: Vendor): nat {
    15 * anomalies + 10 * flags + (if v.risk.High? then 25 else if v.risk.Medium? then 10 else 0)
    + (if v.verified then 0 else 15)
  }

  lemma RawScoreIs(anomalies: nat, flags: nat, v: Vendor)
    ensures RawScore(anomalies, flags, v) == (100 - Penalty(anomalies, flags, v)) as real / 100.0
  {
    assert (15 * anomalies) as real == 15.0 * anomalies as real && (10 * flags) as real == 10.0 * flags as real;
  }

  /** The score is a hundred less the penalty, in hundredths and not below zero; so one more
      anomaly costs exactly 0.15, as long as there is that much left. */
  lemma ScoreIs(anomalies: nat, flags: nat, v: Vendor)
    ensures Score(anomalies, flags, v) == Max(0, 100 - Penalty(anomalies, flags, v)) as real / 100.0
    ensures Penalty(anomalies + 1, flags, v) <= 100 ==>
              Score(anomalies + 1, flags, v) == Score(anomalies, flags, v) - 0.15
  {
    RawScoreIs(anomalies, flags, v);
    CentsStay(100 - Penalty(anomalies, flags, v));
    RawScoreIs(anomalies + 1, flags, v);
    CentsStay(100 - Penalty(anomalies + 1, flags, v));
  }

  lemma AssessIs(anomalies: nat, flags: nat, v: Vendor)
    ensures var verdict, p := Assess(Score(anomalies, flags, v), anomalies, v), Penalty(anomalies, flags, v);
            && (verdict.Compliant? <==> p <= 20 && anomalies == 0 && v.status.Approved?)
            && (verdict.NonCompliant? <==> p > 50 || v.status.Flagged?)
            && (verdict.ReviewRequired? <==>
                  p <= 50 && !v.status.Flagged? && !(p <= 20 && anomalies == 0 && v.status.Approved?))
  {
    ScoreIs(anomalies, flags, v);
  }

  /** Every verdict: compliant with an approved vendor, no anomaly and at most 20 points off;
      non-compliant with a flagged vendor or more than 50 points off; else to be reviewed. */
  lemma {:induction false} VerdictIff(inv: Invoice, hasKey: bool, directory: string -> Option<Vendor>)
    requires Outcome(inv, hasKey, directory).Ok?
    ensures var v := CheckVendor(inv.vendor, hasKey, directory).value;
            var report := Outcome(inv, hasKey, directory).value;
            var p := Penalty(|report.anomalies|, |report.flags|, v);
            && (report.compliance.Compliant? <==> p <= 20 && report.anomalies == [] && v.status.Approved?)
            && (report.compliance.NonCompliant? <==> p > 50 || v.status.Flagged?)
  {
    var v := CheckVendor(inv.vendor, hasKey, directory).value;
    var report := Outcome(inv, hasKey, directory).value;
    AssessIs(|report.anomalies|, |report.flags|, v);
  }

  /** Who the vendor is decides how much an invoice may have against it: without a lookup, or
      for a name the directory does not have, no verdict is compliant and 25 points are gone;
      a listed vendor has the status and the risk it is listed with. */
  lemma {:induction false} VendorDecides(inv: Invoice, hasKey: bool, directory: string -> Option<Vendor>)
    requires Outcome(inv, hasKey, directory).Ok?
    ensures var report := Outcome(inv, hasKey, directory).value;
            var listed := if inv.vendor.Str? then directory(inv.vendor.s) else directory("");
            var points := 15 * |report.anomalies| + 10 * |report.flags|;
            && (!hasKey || listed.None? ==>
                  !report.compliance.Compliant? && (report.compliance.NonCompliant? <==> points > 25))
            && (hasKey && listed.Some? ==>
                  && (report.compliance.NonCompliant? <==>
                        || listed.value.status.Flagged?
                        || points > if listed.value.risk.High? then 25 else if listed.value.risk.Medium? then 40
                            else 50)
                  && (report.compliance.Compliant? ==> listed.value.status.Approved?))
  {
    VerdictIff(inv, hasKey, directory);
  }

  /** The check raises exactly on these nulls. */
  lemma {:induction false} RaisedIff(inv: Invoice, hasKey: bool, directory: string -> Option<Vendor>)
    ensures Outcome(inv, hasKey, directory).Raised? <==>
            || inv.subtotal == Null || inv.tax == Null || inv.total == Null || inv.lineItems == NullItems
            || (hasKey && inv.vendor == NullText)
            || exists i :: 0 <= i < |LineList(inv)| && LineList(inv)[i].amount == Null
  {
  }

  // ---------------------------------------------------------------------
  // Flags
  // ---------------------------------------------------------------------

  predicate Near(amount: real, listed: real) {
    -0.01 < amount - listed < 0.01
  }

  /** Line `n` is over the limit for one item, or looks like an amount that was picked. */
  predicate LineHas(items: seq<Item>, f: Flag) {
    match f
    case LineOverLimit(n) => 1 <= n <= |items| && OrZero(items[n - 1].amount) > 10000.0
    case Suspicious(n) => 1 <= n <= |items| && Picked(OrZero(items[n - 1].amount))
    case _ => false
  }

  /** How often `x` is in the list. */
  function Occurs<T(==)>(s: seq<T>, x: T): nat {
    if s == [] then 0 else Occurs(s[..|s| - 1], x) + if s[|s| - 1] == x then 1 else 0
  }

  lemma {:induction false} OccursConcat<T>(a: seq<T>, b: seq<T>, x: T)
    ensures Occurs(a + b, x) == Occurs(a, x) + Occurs(b, x)
  {
    if b == [] {
      assert a + b == a;
    } else {
      OccursConcat(a, b[..|b| - 1], x);
      assert (a + b)[..|a + b| - 1] == a + b[..|b| - 1];
    }
  }

  lemma OccursIf<T>(b: bool, y: T, x: T)
    ensures Occurs(if b then [y] else [], x) == if b && x == y then 1 else 0
  {
    assert [y][..0] == [];
  }

  predicate Picked(amount: real) {
    Near(amount, 999.99) || Near(amount, 9999.99) || Near(amount, 4999.99)
  }

  lemma SuspiciousAre(amount: real, line: nat)
    ensures SuspiciousFlags(amount, line, 3) == if Picked(amount) then [Suspicious(line)] else []
  {
    assert SuspiciousFlags(amount, line, 0) == [];
    assert SuspiciousFlags(amount, line, 1) == if Near(amount, 999.99) then [Suspicious(line)] else [];
    assert SuspiciousFlags(amount, line, 2) ==
           if Near(amount, 999.99) || Near(amount, 9999.99) then [Suspicious(line)] else [];
  }

  lemma OneLine(amount: real, line: nat, f: Flag)
    ensures Occurs(FlagsOfLine(amount, line), f) ==
            if (f == LineOverLimit(line) && amount > 10000.0) || (f == Suspicious(line) && Picked(amount)) then 1 else 0
  {
    SuspiciousAre(amount, line);
    OccursConcat(if amount > 10000.0 then [LineOverLimit(line)] else [], SuspiciousFlags(amount, line, 3), f);
    OccursIf(amount > 10000.0, LineOverLimit(line), f);
    OccursIf(Picked(amount), Suspicious(line), f);
  }

  lemma HasUpTo(items: seq<Item>, n: nat, f: Flag)
    requires 0 < n <= |items|
    ensures LineHas(items[..n], f) <==>
            || LineHas(items[..n - 1], f)
            || (f == LineOverLimit(n) && OrZero(items[n - 1].amount) > 10000.0)
            || (f == Suspicious(n) && Picked(OrZero(items[n - 1].amount)))
    ensures LineHas(items[..n - 1], f) ==> f != LineOverLimit(n) && f != Suspicious(n)
  {
  }

  lemma {:induction false} LineFlagsAre(start: seq<Flag>, items: seq<Item>, n: nat, f: Flag)
    requires n <= |items|
    ensures Occurs(LineFlags(start, items, n), f) == Occurs(start, f) + if LineHas(items[..n], f) then 1 else 0
  {
    if n > 0 {
      LineFlagsAre(start, items, n - 1, f);
      OneLine(OrZero(items[n - 1].amount), n, f);
      OccursConcat(LineFlags(start, items, n - 1), FlagsOfLine(OrZero(items[n - 1].amount), n), f);
      HasUpTo(items, n, f);
    }
  }

  /** The flag is raised, by what the invoice and the vendor say. */
  predicate Raises(inv: Invoice, v: Vendor, f: Flag) {
    match f
    case TaxRate => OrZero(inv.subtotal) > 0.0 &&
        (OrZero(inv.tax) < 0.0 || OrZero(inv.tax) > 0.15 * OrZero(inv.subtotal))
    case VendorFlagged => v.status == Flagged
    case VendorUnknown => v.status == Unknown
    case TotalOverLimit => OrZero(inv.total) > 50000.0
    case Critical => inv.critical
    case _ => LineHas(LineList(inv), f)
  }

  lemma TaxIs(inv: Invoice)
    requires TaxFlags(inv).Ok?
    ensures TaxFlags(inv).value == if Raises(inv, Vendor(Approved, Low, true), TaxRate) then [TaxRate] else []
  {
    var subtotal, tax := OrZero(inv.subtotal), OrZero(inv.tax);
    if subtotal > 0.0 {
      RatioIff(tax, subtotal);
    }
  }

  lemma RatioIff(tax: real, subtotal: real)
    requires subtotal > 0.0
    ensures (tax / subtotal < 0.0 <==> tax < 0.0) && (tax / subtotal > 0.15 <==> tax > 0.15 * subtotal)
  {
    var q := tax / subtotal;
    assert q * subtotal == tax;
    if q > 0.15 {
      assert (q - 0.15) * subtotal > 0.0;
    } else {
      assert (0.15 - q) * subtotal >= 0.0;
    }
  }

  lemma PolicyAre(inv: Invoice, f: Flag)
    ensures Occurs(PolicyFlags(inv), f) ==
            if (f == TotalOverLimit && OrZero(inv.total) > 50000.0) || LineHas(LineList(inv), f) then 1 else 0
  {
    var items := LineList(inv);
    LineFlagsAre(if OrZero(inv.total) > 50000.0 then [TotalOverLimit] else [], items, |items|, f);
    OccursIf(OrZero(inv.total) > 50000.0, TotalOverLimit, f);
    assert items[..|items|] == items;
  }

  lemma VendorAre(v: Vendor, f: Flag)
    ensures Occurs(VendorFlags(v), f) ==
            if (f == VendorFlagged && v.status.Flagged?) || (f == VendorUnknown && v.status.Unknown?) then 1 else 0
  {
  }

  /** A report lists each flag that is raised, once, and no other. */
  lemma {:induction false} FlagsAre(inv: Invoice, hasKey: bool, directory: string -> Option<Vendor>, f: Flag)
    requires Outcome(inv, hasKey, directory).Ok?
    ensures var v := CheckVendor(inv.vendor, hasKey, directory).value;
            Occurs(Outcome(inv, hasKey, directory).value.flags, f) == if Raises(inv, v, f) then 1 else 0
  {
    var v := CheckVendor(inv.vendor, hasKey, directory).value;
    TaxIs(inv);
    PolicyAre(inv, f);
    VendorAre(v, f);
    var tax, policy := TaxFlags(inv).value, PolicyFlags(inv);
    var rest := if inv.critical then [Critical] else [];
    OccursIf(Raises(inv, Vendor(Approved, Low, true), TaxRate), TaxRate, f);
    OccursIf(inv.critical, Critical, f);
    OccursConcat(tax, VendorFlags(v), f);
    OccursConcat(tax + VendorFlags(v), policy, f);
    OccursConcat(tax + VendorFlags(v) + policy, rest, f);
  }

  // ---------------------------------------------------------------------
  // Anomalies
  // ---------------------------------------------------------------------

  /** Off by more than two cents. */
  predicate Off(x: real, y: real) {
    x - y > 0.02 || y - x > 0.02
  }

  predicate LineOff(item: Item) {
    Off(Round2(OrZero(item.quantity) * OrZero(item.unitPrice)), OrZero(item.amount))
  }

  lemma OffIff(item: Item)
    ensures LineOff(item) <==> !LineMatches(item)
  {
  }

  /** What the totals check finds. */
  predicate Finds(inv: Invoice, a: Anomaly) {
    var items := LineList(inv);
    match a
    case NoLineItems => items == []
    case LineMismatch(n) => 1 <= n <= |items| && LineOff(items[n - 1])
    case SubtotalMismatch => items != [] && Off(Round2(SumAmounts(items)), OrZero(inv.subtotal))
    case TotalMismatch => items != [] && Off(Round2(OrZero(inv.subtotal) + OrZero(inv.tax)), OrZero(inv.total))
    case _ => false
  }

  /** Line `n` is among the first ones and is off. */
  predicate OffAt(items: seq<Item>, n: nat, a: Anomaly) {
    a.LineMismatch? && 1 <= a.line <= n <= |items| && LineOff(items[a.line - 1])
  }

  lemma LineAnomaliesStep(items: seq<Item>, n: nat, a: Anomaly)
    requires 0 < n <= |items|
    ensures Occurs(LineAnomalies(items, n), a) ==
            Occurs(LineAnomalies(items, n - 1), a) + if LineOff(items[n - 1]) && a == LineMismatch(n) then 1 else 0
  {
    var off := LineOff(items[n - 1]);
    OffIff(items[n - 1]);
    OccursIf(off, LineMismatch(n), a);
    OccursConcat(LineAnomalies(items, n - 1), if off then [LineMismatch(n)] else [], a);
  }

  /** How many of the first `n` lines are off and are the line of `a`. */
  function OffCount(off: seq<bool>, n: nat, a: Anomaly): nat
    requires n <= |off|
  {
    if n == 0 then 0 else OffCount(off, n - 1, a) + if off[n - 1] && a == LineMismatch(n) then 1 else 0
  }

  lemma {:induction false} OffOnce(off: seq<bool>, n: nat, a: Anomaly)
    requires n <= |off|
    ensures OffCount(off, n, a) == if a.LineMismatch? && 1 <= a.line <= n && off[a.line - 1] then 1 else 0
  {
    if n > 0 {
      OffOnce(off, n - 1, a);
    }
  }

  function Offs(items: seq<Item>): (off: seq<bool>)
    ensures |off| == |items|
    ensures forall i :: 0 <= i < |items| ==> off[i] == LineOff(items[i])
  {
    seq(|items|, i requires 0 <= i < |items| => LineOff(items[i]))
  }

  lemma {:induction false} LineAnomaliesCount(items: seq<Item>, off: seq<bool>, n: nat, a: Anomaly)
    requires off == Offs(items) && n <= |items|
    ensures Occurs(LineAnomalies(items, n), a) == OffCount(off, n, a)
  {
    if n > 0 {
      LineAnomaliesCount(items, off, n - 1, a);
      LineAnomaliesStep(items, n, a);
    }
  }

  lemma LineAnomaliesAre(items: seq<Item>, n: nat, a: Anomaly)
    requires n <= |items|
    ensures Occurs(LineAnomalies(items, n), a) == if OffAt(items, n, a) then 1 else 0
  {
    LineAnomaliesCount(items, Offs(items), n, a);
    OffOnce(Offs(items), n, a);
  }

  lemma TotalsAre(inv: Invoice)
    ensures LineList(inv) != [] ==>
              TotalsAnomalies(inv) == LineAnomalies(LineList(inv), |LineList(inv)|)
                                      + (if Finds(inv, SubtotalMismatch) then [SubtotalMismatch] else [])
                                      + (if Finds(inv, TotalMismatch) then [TotalMismatch] else [])
  {
  }

  /** The totals check lists each anomaly it finds, once, and no other. */
  lemma AnomaliesAre(inv: Invoice, a: Anomaly)
    ensures Occurs(TotalsAnomalies(inv), a) == if Finds(inv, a) then 1 else 0
  {
    var items := LineList(inv);
    if items != [] {
      TotalsAre(inv);
      var lines, s, t := LineAnomalies(items, |items|), Finds(inv, SubtotalMismatch), Finds(inv, TotalMismatch);
      LineAnomaliesAre(items, |items|, a);
      OccursConcat(lines, if s then [SubtotalMismatch] else [], a);
      OccursConcat(lines + (if s then [SubtotalMismatch] else []), if t then [TotalMismatch] else [], a);
      OccursIf(s, SubtotalMismatch, a);
      OccursIf(t, TotalMismatch, a);
    }
  }

  /** Absent, null, or nothing but white space. */
  predicate SaysNothing(t: TextField) {
    t.Str? ==> forall i :: 0 <= i < |t.s| ==> t.s[i] in {' ', '\t', '\n', '\r', '\U{0B}', '\U{0C}'}
  }

  /** A report has one more anomaly, in front, when a field is missing. */
  lemma {:induction false} MissingIs(inv: Invoice, hasKey: bool, directory: string -> Option<Vendor>)
    requires Outcome(inv, hasKey, directory).Ok?
    ensures var missing, anomalies := MissingOf(inv), Outcome(inv, hasKey, directory).value.anomalies;
            && anomalies == (if missing == [] then [] else [MissingFields(missing)]) + TotalsAnomalies(inv)
            && ("vendor" in missing <==> SaysNothing(inv.vendor))
            && ("invoice_number" in missing <==> SaysNothing(inv.number))
            && ("date" in missing <==> SaysNothing(inv.date)) && ("total" in missing <==> !inv.total.Num?)
  {
    MissingNames(inv);
    NothingIff(inv.vendor);
    NothingIff(inv.number);
    NothingIff(inv.date);
  }

  lemma NothingIff(t: TextField)
    ensures MissingText(t) <==> SaysNothing(t)
  {
  }

  lemma MissingNames(inv: Invoice)
    ensures var missing := MissingOf(inv);
            && ("vendor" in missing <==> MissingText(inv.vendor))
            && ("invoice_number" in missing <==> MissingText(inv.number))
            && ("date" in missing <==> MissingText(inv.date)) && ("total" in missing <==> !inv.total.Num?)
  {
    assert "vendor" != "date" && "vendor" != "total" && "date" != "total" && "invoice_number" != "vendor";
    assert "invoice_number" != "date" && "invoice_number" != "total";
  }
}
