/** Money rounding and the auto-approve decision (src/lib/decision-engine.ts), over exact reals. */
module DecisionEngine {
  import opened Wrappers

  datatype LineItem = LineItem(description: string, quantity: real, unitPrice: real, amount: real)

  datatype Field =
    | VendorNameField | VendorAddressField | VendorTaxIdField
    | InvoiceNumberField | InvoiceDateField | DueDateField
    | SubtotalField | TaxField | TotalField | LineItemsField

  datatype Confidence = Confidence(
    vendorName: real, vendorAddress: real, vendorTaxId: real,
    invoiceNumber: real, invoiceDate: real, dueDate: real,
    subtotal: real, tax: real, total: real, lineItems: real)
  {
    function Entries(): (es: seq<(Field, real)>)
    {
      [ (VendorNameField, vendorName), (VendorAddressField, vendorAddress), (VendorTaxIdField, vendorTaxId),
        (InvoiceNumberField, invoiceNumber), (InvoiceDateField, invoiceDate), (DueDateField, dueDate),
        (SubtotalField, subtotal), (TaxField, tax), (TotalField, total), (LineItemsField, lineItems) ]
    }

    /** Every field group scores at least the threshold. */
    predicate AtLeast(threshold: real) {
      && vendorName >= threshold && vendorAddress >= threshold && vendorTaxId >= threshold
      && invoiceNumber >= threshold && invoiceDate >= threshold && dueDate >= threshold
      && subtotal >= threshold && tax >= threshold && total >= threshold && lineItems >= threshold
    }

    predicate AtMost(bound: real) {
      && vendorName <= bound && vendorAddress <= bound && vendorTaxId <= bound
      && invoiceNumber <= bound && invoiceDate <= bound && dueDate <= bound
      && subtotal <= bound && tax <= bound && total <= bound && lineItems <= bound
    }
  }

  datatype InvoiceExtraction = InvoiceExtraction(
    vendorName: Option<string>, vendorAddress: Option<string>, vendorTaxId: Option<string>,
    invoiceNumber: Option<string>, invoiceDate: Option<string>, dueDate: Option<string>,
    subtotal: real, tax: real, total: real,
    lineItems: seq<LineItem>, confidence: Confidence)

  datatype Decision = AutoApprove | RouteToReview

  datatype Reason =
    | SumMismatch(sum: real, subtotal: real)
    | LowConfidence(field: Field, value: real, threshold: real)

  datatype DecisionResult = DecisionResult(
    decision: Decision, reasons: seq<Reason>, mathValid: bool, lineItemsSum: real, minConfidence: real)

  const MATH_TOLERANCE: real := 0.01

  function Abs(x: real): real { if x < 0.0 then -x else x }

  /** toFixed(2) over exact reals, as whole cents: nearest cent, ties away from zero. */
  function ToCents(x: real): int {
    if x < 0.0 then -((-x * 100.0 + 0.5).Floor) else (x * 100.0 + 0.5).Floor
  }

  lemma CentsWithinHalfCent(x: real)
    ensures Abs(ToCents(x) as real / 100.0 - x) <= 0.005
  {
  }

  function Sum(items: seq<LineItem>): real {
    if items == [] then 0.0 else Sum(items[..|items| - 1]) + items[|items| - 1].amount
  }

  function Min(values: seq<(Field, real)>): real
    requires values != []
  {
    if |values| == 1 then values[0].1
    else
      var rest := Min(values[1..]);
      if values[0].1 < rest then values[0].1 else rest
  }

  function Below(values: seq<(Field, real)>, threshold: real): seq<(Field, real)> {
    if values == [] then []
    else (if values[0].1 < threshold then [values[0]] else []) + Below(values[1..], threshold)
  }

  function Complaints(low: seq<(Field, real)>, threshold: real): seq<Reason> {
    seq(|low|, i requires 0 <= i < |low| => LowConfidence(low[i].0, low[i].1, threshold))
  }

  function Evaluate(x: InvoiceExtraction, threshold: real): DecisionResult {
    var sum := Sum(x.lineItems);
    var mathValid := Abs(sum - x.subtotal) <= MATH_TOLERANCE;
    var low := Below(x.confidence.Entries(), threshold);
    DecisionResult(
      if mathValid && low == [] then AutoApprove else RouteToReview,
      (if mathValid then [] else [SumMismatch(sum, x.subtotal)]) + Complaints(low, threshold),
      mathValid, sum, Min(x.confidence.Entries()))
  }

  /** The engine as the source runs it: a reduce, a filter, and a loop that pushes the reasons. */
  method EvaluateExtraction(x: InvoiceExtraction, threshold: real) returns (result: DecisionResult)
    ensures result == Evaluate(x, threshold)
  {
    var reasons: seq<Reason> := [];
    var lineItemsSum := 0.0;
    for i := 0 to |x.lineItems|
      invariant lineItemsSum == Sum(x.lineItems[..i])
    {
      assert x.lineItems[..i + 1][..i] == x.lineItems[..i];
      lineItemsSum := lineItemsSum + x.lineItems[i].amount;
    }
    assert x.lineItems[..|x.lineItems|] == x.lineItems;
    var mathValid := Abs(lineItemsSum - x.subtotal) <= MATH_TOLERANCE;
    if !mathValid {
      reasons := reasons + [SumMismatch(lineItemsSum, x.subtotal)];
    }
    var belowThreshold := Below(x.confidence.Entries(), threshold);
    ghost var before := reasons;
    for i := 0 to |belowThreshold|
      invariant reasons == before + Complaints(belowThreshold[..i], threshold)
    {
      reasons := reasons + [LowConfidence(belowThreshold[i].0, belowThreshold[i].1, threshold)];
    }
    assert belowThreshold[..|belowThreshold|] == belowThreshold;
    var decision := if mathValid && |belowThreshold| == 0 then AutoApprove else RouteToReview;
    result := DecisionResult(decision, reasons, mathValid, lineItemsSum, Min(x.confidence.Entries()));
  }

  // ----- what the decision means

  lemma {:induction false} BelowCharacterised(values: seq<(Field, real)>, threshold: real)
    ensures |Below(values, threshold)| == CountIf(values, (v: (Field, real)) => v.1 < threshold)
    ensures Below(values, threshold) == [] <==> forall v <- values :: v.1 >= threshold
    ensures values != [] ==> (Below(values, threshold) == [] <==> Min(values) >= threshold)
  {
    if values != [] {
      BelowCharacterised(values[1..], threshold);
      assert forall v <- values :: v == values[0] || v in values[1..];
      assert forall v <- values[1..] :: v in values;
    }
  }

  lemma EntriesAtLeast(c: Confidence, threshold: real)
    ensures c.AtLeast(threshold) <==> forall e <- c.Entries() :: e.1 >= threshold
  {
    var es := c.Entries();
    if c.AtLeast(threshold) {
      forall e <- es ensures e.1 >= threshold {
        var i :| 0 <= i < |es| && es[i] == e;
        assert i == 0 || i == 1 || i == 2 || i == 3 || i == 4 || i == 5 || i == 6 || i == 7 || i == 8 || i == 9;
      }
    }
    if forall e <- es :: e.1 >= threshold {
      EveryEntry(c, threshold);
    }
  }

  lemma EveryEntry(c: Confidence, threshold: real)
    requires forall e <- c.Entries() :: e.1 >= threshold
    ensures c.AtLeast(threshold)
  {
    var es := c.Entries();
    assert forall i :: 0 <= i < |es| ==> es[i] in es && es[i].1 >= threshold;
    assert es[0].1 >= threshold && es[1].1 >= threshold && es[2].1 >= threshold && es[3].1 >= threshold;
    assert es[4].1 >= threshold && es[5].1 >= threshold && es[6].1 >= threshold && es[7].1 >= threshold;
    assert es[8].1 >= threshold && es[9].1 >= threshold;
  }

  lemma ScoresSuffice(c: Confidence, threshold: real)
    ensures Below(c.Entries(), threshold) == [] <==> Min(c.Entries()) >= threshold
    ensures Below(c.Entries(), threshold) == [] <==> c.AtLeast(threshold)
  {
    BelowCharacterised(c.Entries(), threshold);
    EntriesAtLeast(c, threshold);
  }

  /** Auto-approval is exactly "no reasons", exactly "sum within a cent and the worst score reaches the
      threshold", exactly "sum within a cent and every one of the ten scores reaches the threshold". */
  lemma AutoApproveMeans(x: InvoiceExtraction, threshold: real)
    ensures var r := Evaluate(x, threshold);
            var close := Abs(Sum(x.lineItems) - x.subtotal) <= 0.01;
            && (r.decision == AutoApprove <==> r.reasons == [])
            && (r.decision == AutoApprove <==> close && r.minConfidence >= threshold)
            && (r.decision == AutoApprove <==> close && x.confidence.AtLeast(threshold))
  {
    ScoresSuffice(x.confidence, threshold);
  }

  /** The sum is that of the amounts: nothing for no items, and each item adds its amount. */
  lemma SumIsOfAmounts(x: InvoiceExtraction, item: LineItem, threshold: real)
    ensures Evaluate(x.(lineItems := []), threshold).lineItemsSum == 0.0
    ensures Evaluate(x.(lineItems := x.lineItems + [item]), threshold).lineItemsSum
            == Evaluate(x, threshold).lineItemsSum + item.amount
  {
    assert (x.lineItems + [item])[..|x.lineItems|] == x.lineItems;
  }

  lemma {:induction false} MinIsLeast(values: seq<(Field, real)>)
    requires values != []
    ensures forall i :: 0 <= i < |values| ==> Min(values) <= values[i].1
    ensures exists i :: 0 <= i < |values| && Min(values) == values[i].1
  {
    if |values| > 1 {
      MinIsLeast(values[1..]);
      var i :| 0 <= i < |values[1..]| && Min(values[1..]) == values[1..][i].1;
      assert values[i + 1] == values[1..][i];
      assert forall j :: 1 <= j < |values| ==> values[j] == values[1..][j - 1];
      assert Min(values) == values[0].1 || Min(values) == values[i + 1].1;
    } else {
      assert Min(values) == values[0].1;
    }
  }

  /** The minimum is one of the ten scores, and none is below it. */
  lemma MinimumIsWorstScore(x: InvoiceExtraction, threshold: real)
    ensures var m, c := Evaluate(x, threshold).minConfidence, x.confidence;
      && m <= c.vendorName && m <= c.vendorAddress && m <= c.vendorTaxId
      && m <= c.invoiceNumber && m <= c.invoiceDate && m <= c.dueDate
      && m <= c.subtotal && m <= c.tax && m <= c.total && m <= c.lineItems
      && m in {c.vendorName, c.vendorAddress, c.vendorTaxId, c.invoiceNumber, c.invoiceDate, c.dueDate,
               c.subtotal, c.tax, c.total, c.lineItems}
  {
    var es := x.confidence.Entries();
    MinIsLeast(es);
    assert Min(es) <= es[0].1 && Min(es) <= es[1].1 && Min(es) <= es[2].1 && Min(es) <= es[3].1 && Min(es) <= es[4].1;
    assert Min(es) <= es[5].1 && Min(es) <= es[6].1 && Min(es) <= es[7].1 && Min(es) <= es[8].1 && Min(es) <= es[9].1;
    var i :| 0 <= i < |es| && Min(es) == es[i].1;
    assert i == 0 || i == 1 || i == 2 || i == 3 || i == 4 || i == 5 || i == 6 || i == 7 || i == 8 || i == 9;
  }

  /** The score of a field group. */
  function ScoreOf(c: Confidence, field: Field): real {
    match field
    case VendorNameField => c.vendorName
    case VendorAddressField => c.vendorAddress
    case VendorTaxIdField => c.vendorTaxId
    case InvoiceNumberField => c.invoiceNumber
    case InvoiceDateField => c.invoiceDate
    case DueDateField => c.dueDate
    case SubtotalField => c.subtotal
    case TaxField => c.tax
    case TotalField => c.total
    case LineItemsField => c.lineItems
  }

  lemma {:induction false} BelowMembers(values: seq<(Field, real)>, threshold: real)
    ensures forall v :: v in Below(values, threshold) <==> v in values && v.1 < threshold
  {
    if values != [] {
      BelowMembers(values[1..], threshold);
      assert forall v :: v in values <==> v == values[0] || v in values[1..];
    }
  }

  lemma EntryMembers(c: Confidence, v: (Field, real))
    ensures v in c.Entries() <==> v.1 == ScoreOf(c, v.0)
  {
    var es := c.Entries();
    if v in es {
      var i :| 0 <= i < |es| && es[i] == v;
      assert i == 0 || i == 1 || i == 2 || i == 3 || i == 4 || i == 5 || i == 6 || i == 7 || i == 8 || i == 9;
    }
    if v.1 == ScoreOf(c, v.0) {
      EntryOf(c, v.0);
    }
  }

  lemma EntryOf(c: Confidence, field: Field)
    ensures (field, ScoreOf(c, field)) in c.Entries()
  {
    var es := c.Entries();
    assert es[0] in es && es[1] in es && es[2] in es && es[3] in es && es[4] in es;
    assert es[5] in es && es[6] in es && es[7] in es && es[8] in es && es[9] in es;
  }

  /** The reasons are, exactly, the sum with the subtotal it misses and every score below the threshold under
      its own field. */
  lemma ReasonsAreExact(x: InvoiceExtraction, threshold: real, r: Reason)
    ensures var result := Evaluate(x, threshold);
            r in result.reasons <==>
              match r
              case SumMismatch(sum, subtotal) =>
                sum == result.lineItemsSum && subtotal == x.subtotal && Abs(sum - subtotal) > 0.01
              case LowConfidence(field, value, limit) =>
                limit == threshold && value < threshold && value == ScoreOf(x.confidence, field)
  {
    var low := Below(x.confidence.Entries(), threshold);
    BelowMembers(x.confidence.Entries(), threshold);
    if r.LowConfidence? {
      EntryMembers(x.confidence, (r.field, r.value));
      ComplaintMembers(low, threshold, r);
    }
  }

  lemma ComplaintMembers(low: seq<(Field, real)>, threshold: real, r: Reason)
    requires r.LowConfidence?
    ensures r in Complaints(low, threshold) <==> r.threshold == threshold && (r.field, r.value) in low
  {
    var complaints := Complaints(low, threshold);
    if r.threshold == threshold && (r.field, r.value) in low {
      var i :| 0 <= i < |low| && low[i] == (r.field, r.value);
      assert complaints[i] == r;
    }
  }

  /** One reason for the arithmetic, one for each score below the threshold, and nothing else. */
  lemma ReasonCount(x: InvoiceExtraction, threshold: real)
    ensures var r := Evaluate(x, threshold);
            |r.reasons| == (if Abs(Sum(x.lineItems) - x.subtotal) <= 0.01 then 0 else 1)
                           + CountIf(x.confidence.Entries(), (v: (Field, real)) => v.1 < threshold)
  {
    BelowCharacterised(x.confidence.Entries(), threshold);
  }

  lemma {:induction false} SumAppend(xs: seq<LineItem>, ys: seq<LineItem>)
    ensures Sum(xs + ys) == Sum(xs) + Sum(ys)
  {
    if ys == [] {
      assert xs + ys == xs;
    } else {
      var n := |ys| - 1;
      assert (xs + ys)[..|xs + ys| - 1] == xs + ys[..n];
      SumAppend(xs, ys[..n]);
    }
  }

  lemma {:induction false} SumPermuted(xs: seq<LineItem>, ys: seq<LineItem>)
    requires multiset(xs) == multiset(ys)
    ensures Sum(xs) == Sum(ys)
  {
    if xs == [] {
      assert |multiset(ys)| == 0;
    } else {
      var last := xs[|xs| - 1];
      assert last in multiset(ys);
      var k :| 0 <= k < |ys| && ys[k] == last;
      var rest := ys[..k] + ys[k + 1..];
      assert xs == xs[..|xs| - 1] + [last];
      assert ys == ys[..k] + [last] + ys[k + 1..];
      assert multiset(rest) == multiset(ys) - multiset{last};
      assert multiset(xs[..|xs| - 1]) == multiset(xs) - multiset{last};
      SumPermuted(xs[..|xs| - 1], rest);
      SumAppend(ys[..k], ys[k + 1..]);
      SumAppend(ys[..k], [last]);
      SumAppend(ys[..k] + [last], ys[k + 1..]);
      assert Sum([last]) == last.amount by { assert [last][..0] == []; }
    }
  }

  /** The order of the line items never matters: decision, reasons and sum all agree. */
  lemma DecisionIgnoresOrder(x: InvoiceExtraction, items: seq<LineItem>, threshold: real)
    requires multiset(x.lineItems) == multiset(items)
    ensures Evaluate(x.(lineItems := items), threshold) == Evaluate(x, threshold)
  {
    SumPermuted(x.lineItems, items);
  }

  /** Raising any scores and lowering the threshold can only keep an approval. */
  lemma DecisionMonotone(x: InvoiceExtraction, better: Confidence, threshold: real, lower: real)
    requires lower <= threshold
    requires forall i :: 0 <= i < 10 ==> x.confidence.Entries()[i].1 <= better.Entries()[i].1
    requires Evaluate(x, threshold).decision == AutoApprove
    ensures Evaluate(x.(confidence := better), lower).decision == AutoApprove
  {
    AutoApproveMeans(x, threshold);
    AutoApproveMeans(x.(confidence := better), lower);
    var a, b := x.confidence.Entries(), better.Entries();
    assert a[0].1 <= b[0].1 && a[1].1 <= b[1].1 && a[2].1 <= b[2].1 && a[3].1 <= b[3].1 && a[4].1 <= b[4].1;
    assert a[5].1 <= b[5].1 && a[6].1 <= b[6].1 && a[7].1 <= b[7].1 && a[8].1 <= b[8].1 && a[9].1 <= b[9].1;
  }

  /** What is stored after rounding still adds up: tolerance 0.01 plus half a cent. */
  lemma ApprovedSumMatchesStoredSubtotal(x: InvoiceExtraction, threshold: real)
    requires Evaluate(x, threshold).decision == AutoApprove
    ensures Abs(Sum(x.lineItems) - ToCents(x.subtotal) as real / 100.0) <= 0.015
    ensures x.confidence.AtLeast(threshold)
  {
    AutoApproveMeans(x, threshold);
    CentsWithinHalfCent(x.subtotal);
  }
}
