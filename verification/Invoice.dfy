/** The invoice checker (`engine/demos/invoice_processing/validate_invoice.py`), over
    exact arithmetic. */
module Invoice {
  import opened Wrappers

  /** A JSON number that may be absent or null. */
  datatype Field = Absent | Null | Num(n: real)

  datatype TextField = NoText | NullText | Str(s: string)

  datatype Item = Item(quantity: Field, unitPrice: Field, amount: Field)

  datatype Items = NoItems | NullItems | Items(list: seq<Item>)

  datatype Invoice = Invoice(vendor: TextField, number: TextField, date: TextField, lineItems: Items,
                             subtotal: Field, tax: Field, total: Field, critical: bool)

  datatype Anomaly =
    | MissingFields(fields: seq<string>) | NoLineItems | LineMismatch(line: nat) | SubtotalMismatch | TotalMismatch

  datatype Flag =
    | TaxRate | VendorFlagged | VendorUnknown | TotalOverLimit | LineOverLimit(line: nat) | Suspicious(line: nat)
    | Critical

  datatype VendorStatus = Approved | Flagged | Unknown | Unverified
  datatype Risk = Low | Medium | High
  datatype Vendor = Vendor(status: VendorStatus, risk: Risk, verified: bool)

  datatype Compliance = Compliant | ReviewRequired | NonCompliant

  datatype Report = Report(anomalies: seq<Anomaly>, flags: seq<Flag>, score: real, compliance: Compliance)

  /** A Python `TypeError` or `AttributeError` stops the validation. */
  datatype Result<T> = Ok(value: T) | Raised

  const MAX_SINGLE_ITEM := 10000.0
  const MAX_TOTAL := 50000.0
  const TAX_RATE_MIN := 0.0
  const TAX_RATE_MAX := 0.15
  const SUSPICIOUS: seq<real> := [999.99, 9999.99, 4999.99]

  // ---------------------------------------------------------------------
  // Arithmetic
  // ---------------------------------------------------------------------

  function Abs(x: real): real {
    if x < 0.0 then -x else x
  }

  /** `round(x, 2)`: to the nearest cent, ties to the even one. */
  function Round2(x: real): real {
    var cents := x * 100.0;
    var below := cents.Floor;
    var rest := cents - below as real;
    (if rest < 0.5 || (rest == 0.5 && below % 2 == 0) then below else below + 1) as real / 100.0
  }

  lemma RoundError(x: real)
    ensures Abs(Round2(x) - x) <= 0.005
  {
    var cents := x * 100.0;
    var below := cents.Floor;
    var rest := cents - below as real;
    assert 0.0 <= rest < 1.0;
    assert Round2(x) * 100.0 - cents == (if rest < 0.5 || (rest == 0.5 && below % 2 == 0) then -rest else 1.0 - rest);
  }

  lemma RoundMonotone(x: real, y: real)
    requires x <= y
    ensures Round2(x) <= Round2(y)
  {
    var a, b := (x * 100.0).Floor, (y * 100.0).Floor;
    assert x * 100.0 <= y * 100.0;
    assert a <= b;
  }

  /** `float(field or 0)`; and `float(data.get(key, 0))` for a field that is not null. */
  function OrZero(f: Field): real {
    if f.Num? then f.n else 0.0
  }

  // ---------------------------------------------------------------------
  // The checks
  // ---------------------------------------------------------------------

  predicate Blank(s: string) {
    forall i :: 0 <= i < |s| ==> s[i] == ' ' || '\t' <= s[i] <= '\r'
  }

  predicate MissingText(t: TextField) {
    !t.Str? || Blank(t.s)
  }

  function MissingOf(inv: Invoice): seq<string> {
    (if MissingText(inv.vendor) then ["vendor"] else []) + (if MissingText(inv.number) then ["invoice_number"] else [])
    + (if MissingText(inv.date) then ["date"] else []) + (if inv.total.Num? then [] else ["total"])
  }

  function LineList(inv: Invoice): seq<Item> {
    if inv.lineItems.Items? then inv.lineItems.list else []
  }

  predicate LineMatches(item: Item) {
    Abs(Round2(OrZero(item.quantity) * OrZero(item.unitPrice)) - OrZero(item.amount)) <= 0.02
  }

  /** The lines among the first `n` that do not multiply out, in order. */
  function LineAnomalies(items: seq<Item>, n: nat): seq<Anomaly>
    requires n <= |items|
  {
    if n == 0 then [] else LineAnomalies(items, n - 1) + (if LineMatches(items[n - 1]) then [] else [LineMismatch(n)])
  }

  function SumAmounts(items: seq<Item>): real {
    if items == [] then 0.0 else SumAmounts(items[..|items| - 1]) + OrZero(items[|items| - 1].amount)
  }

  predicate SubtotalMatches(inv: Invoice) {
    Abs(Round2(SumAmounts(LineList(inv))) - OrZero(inv.subtotal)) <= 0.02
  }

  predicate TotalMatches(inv: Invoice) {
    Abs(Round2(OrZero(inv.subtotal) + OrZero(inv.tax)) - OrZero(inv.total)) <= 0.02
  }

  function TotalsAnomalies(inv: Invoice): seq<Anomaly> {
    if LineList(inv) == [] then [NoLineItems]
    else LineAnomalies(LineList(inv), |LineList(inv)|)
         + (if SubtotalMatches(inv) then [] else [SubtotalMismatch])
         + (if TotalMatches(inv) then [] else [TotalMismatch])
  }

  /** `validate_totals`. */
  method ValidateTotals(inv: Invoice) returns (anomalies: seq<Anomaly>)
    ensures anomalies == TotalsAnomalies(inv)
  {
    anomalies := [];
    var items := LineList(inv);
    if items == [] {
      return [NoLineItems];
    }
    var computed := 0.0;
    for i := 0 to |items|
      invariant anomalies == LineAnomalies(items, i)
      invariant computed == SumAmounts(items[..i])
    {
      var amount := OrZero(items[i].amount);
      var expected := Round2(OrZero(items[i].quantity) * OrZero(items[i].unitPrice));
      assert LineMatches(items[i]) <==> Abs(expected - amount) <= 0.02;
      if Abs(expected - amount) > 0.02 {
        anomalies := anomalies + [LineMismatch(i + 1)];
      }
      assert items[..i + 1][..i] == items[..i];
      computed := computed + amount;
    }
    assert items[..|items|] == items;
    computed := Round2(computed);
    var stated := OrZero(inv.subtotal);
    if Abs(computed - stated) > 0.02 {
      anomalies := anomalies + [SubtotalMismatch];
    }
    if Abs(Round2(stated + OrZero(inv.tax)) - OrZero(inv.total)) > 0.02 {
      anomalies := anomalies + [TotalMismatch];
    }
  }

  /** `check_tax_rate`. */
  function TaxFlags(inv: Invoice): Result<seq<Flag>> {
    if inv.subtotal.Null? || inv.tax.Null? then Raised
    else
      var subtotal, tax := OrZero(inv.subtotal), OrZero(inv.tax);
      if subtotal <= 0.0 then Ok([])
      else if tax / subtotal < TAX_RATE_MIN || tax / subtotal > TAX_RATE_MAX then Ok([TaxRate])
      else Ok([])
  }

  /** Names are looked up lower-cased and stripped, through `directory`. */
  function CheckVendor(vendor: TextField, hasKey: bool, directory: string -> Option<Vendor>): Result<Vendor> {
    if !hasKey then Ok(Vendor(Unverified, Medium, false))
    else if vendor.NullText? then Raised
    else
      var found := directory(if vendor.Str? then vendor.s else "");
      Ok(if found.Some? then Vendor(found.value.status, found.value.risk, true) else Vendor(Unknown, Medium, false))
  }

  function VendorFlags(v: Vendor): seq<Flag> {
    if v.status.Flagged? then [VendorFlagged] else if v.status.Unknown? then [VendorUnknown] else []
  }

  /** A flag for each of the first `n` listed amounts the value is within a cent of. */
  function SuspiciousFlags(amount: real, line: nat, n: nat): seq<Flag>
    requires n <= |SUSPICIOUS|
  {
    if n == 0 then []
    else SuspiciousFlags(amount, line, n - 1) +
         (if Abs(amount - SUSPICIOUS[n - 1]) < 0.01 then [Suspicious(line)] else [])
  }

  function FlagsOfLine(amount: real, line: nat): seq<Flag> {
    (if amount > MAX_SINGLE_ITEM then [LineOverLimit(line)] else []) + SuspiciousFlags(amount, line, |SUSPICIOUS|)
  }

  /** `start`, and then the flags of the first `n` lines. */
  function LineFlags(start: seq<Flag>, items: seq<Item>, n: nat): seq<Flag>
    requires n <= |items|
  {
    if n == 0 then start
    else LineFlags(start, items, n - 1) + FlagsOfLine(OrZero(items[n - 1].amount), n)
  }

  predicate PolicyRaises(inv: Invoice) {
    inv.total.Null? || inv.lineItems.NullItems? || exists i :: 0 <= i < |LineList(inv)| && LineList(inv)[i].amount.Null?
  }

  function PolicyFlags(inv: Invoice): seq<Flag> {
    LineFlags(if OrZero(inv.total) > MAX_TOTAL then [TotalOverLimit] else [], LineList(inv), |LineList(inv)|)
  }

  /** `check_policy_limits`. */
  method CheckPolicyLimits(inv: Invoice) returns (r: Result<seq<Flag>>)
    ensures r.Raised? <==> PolicyRaises(inv)
    ensures r.Ok? ==> r.value == PolicyFlags(inv)
  {
    if inv.total.Null? || inv.lineItems.NullItems? {
      return Raised;
    }
    var flags := if OrZero(inv.total) > MAX_TOTAL then [TotalOverLimit] else [];
    ghost var start := flags;
    var items := LineList(inv);
    for i := 0 to |items|
      invariant flags == LineFlags(start, items, i)
      invariant forall k :: 0 <= k < i ==> !items[k].amount.Null?
    {
      if items[i].amount.Null? {
        return Raised;
      }
      var found := CheckLine(OrZero(items[i].amount), i + 1);
      flags := flags + found;
    }
    return Ok(flags);
  }

  /** The body of that loop: the limit, then the suspicious amounts. */
  method CheckLine(amount: real, line: nat) returns (flags: seq<Flag>)
    ensures flags == FlagsOfLine(amount, line)
  {
    flags := if amount > MAX_SINGLE_ITEM then [LineOverLimit(line)] else [];
    ghost var before := flags;
    for s := 0 to |SUSPICIOUS|
      invariant flags == before + SuspiciousFlags(amount, line, s)
    {
      if Abs(amount - SUSPICIOUS[s]) < 0.01 {
        flags := flags + [Suspicious(line)];
      }
    }
  }

  // ---------------------------------------------------------------------
  // Score and verdict
  // ---------------------------------------------------------------------

  function RiskCost(r: Risk): real {
    match r case High => 0.25 case Medium => 0.10 case Low => 0.0
  }

  function RawScore(anomalies: nat, flags: nat, v: Vendor): real {
    1.0 - anomalies as real * 0.15 - flags as real * 0.10 - RiskCost(v.risk) - (if v.verified then 0.0 else 0.15)
  }

  function Clamp(x: real): real {
    if x < 0.0 then 0.0 else if x > 1.0 then 1.0 else x
  }

  /** `compute_score`. */
  function Score(anomalies: nat, flags: nat, v: Vendor): real {
    Clamp(Round2(RawScore(anomalies, flags, v)))
  }

  /** `assess_compliance`. */
  function Assess(score: real, anomalies: nat, v: Vendor): Compliance {
    if score >= 0.8 && anomalies == 0 && v.status.Approved? then Compliant
    else if score < 0.5 || v.status.Flagged? then NonCompliant
    else ReviewRequired
  }

  function AnomaliesOf(inv: Invoice): seq<Anomaly> {
    (if MissingOf(inv) == [] then [] else [MissingFields(MissingOf(inv))]) + TotalsAnomalies(inv)
  }

  function FlagsOf(inv: Invoice, tax: seq<Flag>, v: Vendor): seq<Flag> {
    tax + VendorFlags(v) + PolicyFlags(inv) + (if inv.critical then [Critical] else [])
  }

  function Outcome(inv: Invoice, hasKey: bool, directory: string -> Option<Vendor>): Result<Report> {
    var tax, vendor := TaxFlags(inv), CheckVendor(inv.vendor, hasKey, directory);
    if tax.Raised? || vendor.Raised? || PolicyRaises(inv) then Raised
    else Ok(ReportOf(AnomaliesOf(inv), FlagsOf(inv, tax.value, vendor.value), vendor.value))
  }

  function ReportOf(anomalies: seq<Anomaly>, flags: seq<Flag>, v: Vendor): Report {
    var score := Score(|anomalies|, |flags|, v);
    Report(anomalies, flags, score, Assess(score, |anomalies|, v))
  }

  /** `validate_invoice`. */
  method ValidateInvoice(inv: Invoice, hasKey: bool, directory: string -> Option<Vendor>) returns (r: Result<Report>)
    ensures r == Outcome(inv, hasKey, directory)
  {
    var anomalies: seq<Anomaly> := [];
    var missing := MissingOf(inv);
    if missing != [] {
      anomalies := [MissingFields(missing)];
    }
    var totals := ValidateTotals(inv);
    anomalies := anomalies + totals;
    assert anomalies == AnomaliesOf(inv);
    var tax := TaxFlags(inv);
    if tax.Raised? {
      return Raised;
    }
    var flags := tax.value;
    var vendor := CheckVendor(inv.vendor, hasKey, directory);
    if vendor.Raised? {
      return Raised;
    }
    flags := flags + VendorFlags(vendor.value);
    var policy := CheckPolicyLimits(inv);
    if policy.Raised? {
      return Raised;
    }
    flags := flags + policy.value;
    if inv.critical {
      flags := flags + [Critical];
    }
    assert flags == FlagsOf(inv, tax.value, vendor.value);
    return Ok(ReportOf(anomalies, flags, vendor.value));
  }

  // ---------------------------------------------------------------------
  // What a verdict guarantees
  // ---------------------------------------------------------------------

  /** What the lines multiply out to. */
  function Worth(items: seq<Item>): real {
    if items == [] then 0.0
    else Worth(items[..|items| - 1]) + OrZero(items[|items| - 1].quantity) * OrZero(items[|items| - 1].unitPrice)
  }

  lemma {:induction false} LineAnomaliesNone(items: seq<Item>, n: nat)
    requires n <= |items| && LineAnomalies(items, n) == []
    ensures forall i :: 0 <= i < n ==> LineMatches(items[i])
  {
    if n > 0 {
      LineAnomaliesNone(items, n - 1);
    }
  }

  lemma LineNear(item: Item)
    requires LineMatches(item)
    ensures Abs(OrZero(item.quantity) * OrZero(item.unitPrice) - OrZero(item.amount)) <= 0.025
  {
    NearRounded(OrZero(item.quantity) * OrZero(item.unitPrice), OrZero(item.amount));
  }

  lemma NearSum(a: real, b: real, c: real, d: real, e: real, f: real)
    requires Abs(a - b) <= e && Abs(c - d) <= f
    ensures Abs((a + c) - (b + d)) <= e + f
  {
  }

  lemma {:induction false} WorthNearAmounts(items: seq<Item>)
    requires forall i :: 0 <= i < |items| ==> LineMatches(items[i])
    ensures Abs(Worth(items) - SumAmounts(items)) <= 0.025 * |items| as real
  {
    if items != [] {
      var front, last := items[..|items| - 1], items[|items| - 1];
      WorthNearAmounts(front);
      LineNear(last);
      NearSum(Worth(front), SumAmounts(front), OrZero(last.quantity) * OrZero(last.unitPrice), OrZero(last.amount),
              0.025 * |front| as real, 0.025);
    }
  }

  lemma NearRounded(x: real, y: real)
    requires Abs(Round2(x) - y) <= 0.02
    ensures Abs(x - y) <= 0.025
  {
    RoundError(x);
  }

  /** Without total anomalies the invoice adds up, within the rounding of its parts. */
  lemma AddsUp(inv: Invoice)
    requires TotalsAnomalies(inv) == []
    ensures LineList(inv) != []
    ensures Abs(Worth(LineList(inv)) + OrZero(inv.tax) - OrZero(inv.total)) <= 0.025 * |LineList(inv)| as real + 0.05
  {
    var items := LineList(inv);
    LineAnomaliesNone(items, |items|);
    WorthNearAmounts(items);
    NearRounded(SumAmounts(items), OrZero(inv.subtotal));
    NearRounded(OrZero(inv.subtotal) + OrZero(inv.tax), OrZero(inv.total));
    Chain(Worth(items), SumAmounts(items), OrZero(inv.subtotal), OrZero(inv.tax), OrZero(inv.total),
          0.025 * |items| as real);
  }

  lemma Chain(worth: real, sum: real, subtotal: real, tax: real, total: real, e: real)
    requires Abs(worth - sum) <= e && Abs(sum - subtotal) <= 0.025 && Abs(subtotal + tax - total) <= 0.025
    ensures Abs(worth + tax - total) <= e + 0.05
  {
  }

  lemma ScoreBoundsFlags(flags: nat, v: Vendor)
    requires Score(0, flags, v) >= 0.8
    ensures flags <= 2
  {
    RoundError(RawScore(0, flags, v));
    assert RawScore(0, flags, v) <= 1.0 - flags as real * 0.10;
  }

  /** A compliant invoice adds up within 0.025 per line plus 0.05, and has at most two flags. */
  lemma {:induction false} CompliantMeans(inv: Invoice, hasKey: bool, directory: string -> Option<Vendor>)
    requires Outcome(inv, hasKey, directory).Ok? && Outcome(inv, hasKey, directory).value.compliance.Compliant?
    ensures |LineList(inv)| >= 1
    ensures Abs(Worth(LineList(inv)) + OrZero(inv.tax) - OrZero(inv.total)) <= 0.025 * |LineList(inv)| as real + 0.05
    ensures |Outcome(inv, hasKey, directory).value.flags| <= 2
    ensures MissingOf(inv) == [] && hasKey
  {
    var report := Outcome(inv, hasKey, directory).value;
    assert report.anomalies == [];
    assert TotalsAnomalies(inv) == [];
    AddsUp(inv);
    ScoreBoundsFlags(|report.flags|, CheckVendor(inv.vendor, hasKey, directory).value);
  }

  /** More anomalies or flags never raise the score. */
  lemma ScoreAntitone(a: nat, f: nat, a': nat, f': nat, v: Vendor)
    requires a <= a' && f <= f'
    ensures Score(a', f', v) <= Score(a, f, v)
  {
    assert a as real <= a' as real && f as real <= f' as real;
    RoundMonotone(RawScore(a', f', v), RawScore(a, f, v));
  }

  /** The number of flags a vendor's risk leaves room for. */
  function Allowance(r: Risk): int {
    match r case Low => 2 case Medium => 1 case High => -1
  }

  /** When exactly a verdict is compliant: no anomalies, an approved vendor, and few
      enough flags for its risk. */
  lemma {:induction false} CompliantIff(inv: Invoice, hasKey: bool, directory: string -> Option<Vendor>)
    requires Outcome(inv, hasKey, directory).Ok?
    ensures var v := CheckVendor(inv.vendor, hasKey, directory).value;
            var report := Outcome(inv, hasKey, directory).value;
            report.compliance.Compliant? <==>
                report.anomalies == [] && v.status.Approved? && |report.flags| <= Allowance(v.risk)
  {
    var v := CheckVendor(inv.vendor, hasKey, directory).value;
    if v.status.Approved? {
      ScoreIff(|Outcome(inv, hasKey, directory).value.flags|, v);
    }
  }

  lemma ScoreIff(flags: nat, v: Vendor)
    requires v.verified
    ensures Score(0, flags, v) >= 0.8 <==> flags <= Allowance(v.risk)
  {
    var raw := RawScore(0, flags, v);
    if flags <= Allowance(v.risk) {
      assert flags as real <= Allowance(v.risk) as real;
      RoundMonotone(0.8, raw);
      assert Round2(0.8) == 0.8;
    } else {
      assert flags as real >= Allowance(v.risk) as real + 1.0;
      assert raw <= 0.75;
      RoundError(raw);
    }
  }
}
