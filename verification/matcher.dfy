/**
 * Reconciliation of an extracted invoice against the purchase-order store:
 * a missing PO number needs review, an unknown one is pending, and a known
 * one is scored on vendor-name similarity and total tolerance.
 */
module Matcher {
  import opened Wrappers
  import opened Text
  import opened Numbers

  /** What the store holds for one purchase order. */
  datatype PoRecord = PoRecord(vendorName: string, total: real)

  /** The three values of the invoice record the matcher reads. */
  datatype Invoice = Invoice(poNumber: Option<string>, vendorName: Option<string>, total: Option<real>)

  datatype Status = Matched | NeedsReview | Pending

  datatype Verdict = Verdict(status: Status, message: string, confidence: real, poRecord: Option<PoRecord>)

  /** The fixed table standing in for the ERP's purchase orders. */
  const STUB_PO_DATA: map<string, PoRecord> := map[
    "PO-1001" := PoRecord("Acme Supplies", 1250.00),
    "45001234" := PoRecord("Contoso Manufacturing", 489.50),
    "PO-7788" := PoRecord("Northwind Traders", 1049.99)]

  /** At or above this confidence a found PO counts as matched. */
  const MATCH_THRESHOLD: real := 0.7

  /** The score given to a component that cannot be compared. */
  const UNKNOWN_SCORE: real := 0.4

  /**
   * What the matcher relies on of the sequence-similarity ratio: a value
   * in [0, 1] that is 1 for identical strings.
   */
  ghost predicate IsRatio(ratio: (string, string) -> real) {
    (forall a, b :: 0.0 <= ratio(a, b) <= 1.0) && (forall a :: ratio(a, a) == 1.0)
  }

  /** Python truthiness of an optional string: present and not empty. */
  predicate Present(s: Option<string>) { s.Some? && s.value != [] }

  /** Vendor-name similarity: the rounded ratio of the lower-cased names, 0.4 when either is missing. */
  function Similarity(left: Option<string>, right: Option<string>, ratio: (string, string) -> real): (r: real)
    ensures !Present(left) || !Present(right) ==> r == UNKNOWN_SCORE
  {
    if !Present(left) || !Present(right) then UNKNOWN_SCORE
    else Round2(ratio(Lower(left.value), Lower(right.value)))
  }

  /**
   * Total tolerance: one minus the relative deviation from the expected
   * total, rounded and floored at zero; 0.4 when either total is missing
   * or the expected total is zero.
   */
  function TotalScore(actual: Option<real>, expected: Option<real>): (r: real)
    ensures r >= 0.0
    ensures actual.None? || expected.None? || expected.value == 0.0 ==> r == UNKNOWN_SCORE
  {
    if actual.None? || expected.None? then UNKNOWN_SCORE
    else if expected.value == 0.0 then UNKNOWN_SCORE
    else
      var delta := Abs(actual.value - expected.value);
      Max(0.0, Round2(1.0 - delta / expected.value))
  }

  function Abs(x: real): (r: real)
    ensures r >= 0.0 && (r == x || r == -x)
  {
    if x < 0.0 then -x else x
  }

  function Max(x: real, y: real): (r: real)
    ensures r >= x && r >= y && (r == x || r == y)
  {
    if x < y then y else x
  }

  /** The message that goes with the status of a found PO. */
  function FoundMessage(status: Status): string {
    if status == Matched then "Matched to Epicor stub" else "Possible match, verify totals/vendor"
  }

  /** The verdict on an invoice, looking its PO number up in `store`. */
  function MatchInvoice(invoice: Invoice, store: map<string, PoRecord>, ratio: (string, string) -> real): (v: Verdict)
    ensures v.poRecord.Some? <==> Present(invoice.poNumber) && invoice.poNumber.value in store
    ensures v.poRecord.Some? ==> v.poRecord.value == store[invoice.poNumber.value]
  {
    if !Present(invoice.poNumber) then
      Verdict(NeedsReview, "Missing PO number", 0.2, None)
    else
      var po := invoice.poNumber.value;
      if po !in store then
        Verdict(Pending, "PO " + po + " not found in Epicor stub", 0.3, None)
      else
        var record := store[po];
        var vendorScore := Similarity(invoice.vendorName, Some(record.vendorName), ratio);
        var totalScore := TotalScore(invoice.total, Some(record.total));
        var confidence := Round2((vendorScore + totalScore) / 2.0);
        var status := if confidence >= MATCH_THRESHOLD then Matched else NeedsReview;
        Verdict(status, FoundMessage(status), confidence, Some(record))
  }

  /** The components and the confidence of a found PO, as MatchInvoice computes them. */
  function FoundConfidence(invoice: Invoice, record: PoRecord, ratio: (string, string) -> real): real {
    Round2((Similarity(invoice.vendorName, Some(record.vendorName), ratio)
            + TotalScore(invoice.total, Some(record.total))) / 2.0)
  }

  /**
   * The three outcomes: no PO number needs review with confidence 0.2, an
   * unknown PO number is pending with confidence 0.3 and a message naming
   * it, and a known one is matched exactly when its confidence reaches 0.7.
   */
  lemma Outcomes(invoice: Invoice, store: map<string, PoRecord>, ratio: (string, string) -> real)
    ensures var v := MatchInvoice(invoice, store, ratio);
      && (!Present(invoice.poNumber) ==> v.status == NeedsReview && v.confidence == 0.2 && v.message == "Missing PO number")
      && (v.status == Pending <==> Present(invoice.poNumber) && invoice.poNumber.value !in store)
      && (v.status == Pending ==>
            v.confidence == 0.3 && v.message[3..3 + |invoice.poNumber.value|] == invoice.poNumber.value)
      && (v.poRecord.Some? ==>
            v.confidence == FoundConfidence(invoice, v.poRecord.value, ratio)
            && (v.status == Matched <==> v.confidence >= MATCH_THRESHOLD)
            && v.message == FoundMessage(v.status))
  {
    var v := MatchInvoice(invoice, store, ratio);
    if v.status == Pending {
      var po := invoice.poNumber.value;
      assert v.message == "PO " + po + " not found in Epicor stub";
      assert ("PO " + po + " not found in Epicor stub")[3..3 + |po|] == po;
    }
  }

  /** The vendor score lies in [0, 1]. */
  lemma SimilarityBounds(left: Option<string>, right: Option<string>, ratio: (string, string) -> real)
    requires IsRatio(ratio)
    ensures 0.0 <= Similarity(left, right, ratio) <= 1.0
  {
    if Present(left) && Present(right) {
      Round2UnitInterval(ratio(Lower(left.value), Lower(right.value)));
    }
  }

  /** Names that are equal ignoring case score 1. */
  lemma SimilaritySameName(left: string, right: string, ratio: (string, string) -> real)
    requires IsRatio(ratio) && left != [] && Lower(left) == Lower(right)
    ensures Similarity(Some(left), Some(right), ratio) == 1.0
  {
    assert right != [];
    assert ratio(Lower(left), Lower(right)) == 1.0;
    Round2Cents(100);
  }

  /** For a positive expected total the total score lies in [0, 1]. */
  lemma TotalScoreBounds(actual: Option<real>, expected: real)
    requires expected > 0.0
    ensures 0.0 <= TotalScore(actual, Some(expected)) <= 1.0
  {
    if actual.Some? {
      var x := 1.0 - Abs(actual.value - expected) / expected;
      assert x <= 1.0;
      Round2Monotone(x, 1.0);
      Round2Cents(100);
    }
  }

  /** The expected total itself scores 1. */
  lemma TotalScoreExact(expected: real)
    requires expected != 0.0
    ensures TotalScore(Some(expected), Some(expected)) == 1.0
  {
    Round2Cents(100);
  }

  /** Over-billing and under-billing by the same amount score the same. */
  lemma TotalScoreSymmetric(expected: real, delta: real)
    ensures TotalScore(Some(expected + delta), Some(expected)) == TotalScore(Some(expected - delta), Some(expected))
  {
    assert Abs(expected + delta - expected) == Abs(expected - delta - expected);
  }

  /**
   * The confidence of a verdict lies in [0, 1] when the ratio behaves and
   * every PO in the store has a positive total.
   */
  lemma ConfidenceBounds(invoice: Invoice, store: map<string, PoRecord>, ratio: (string, string) -> real)
    requires IsRatio(ratio)
    requires forall po :: po in store ==> store[po].total > 0.0
    ensures 0.0 <= MatchInvoice(invoice, store, ratio).confidence <= 1.0
  {
    if Present(invoice.poNumber) && invoice.poNumber.value in store {
      var record := store[invoice.poNumber.value];
      var vendorScore := Similarity(invoice.vendorName, Some(record.vendorName), ratio);
      var totalScore := TotalScore(invoice.total, Some(record.total));
      SimilarityBounds(invoice.vendorName, Some(record.vendorName), ratio);
      TotalScoreBounds(invoice.total, record.total);
      Round2UnitInterval((vendorScore + totalScore) / 2.0);
    }
  }

  /** Every PO in the stub table has a positive total. */
  lemma StubTotalsPositive()
    ensures forall po :: po in STUB_PO_DATA ==> STUB_PO_DATA[po].total > 0.0
  {
  }

  /** The verdict on an invoice whose PO is in the store, given its confidence. */
  lemma FoundVerdict(invoice: Invoice, store: map<string, PoRecord>, ratio: (string, string) -> real, confidence: real)
    requires Present(invoice.poNumber) && invoice.poNumber.value in store
    requires FoundConfidence(invoice, store[invoice.poNumber.value], ratio) == confidence
    ensures var status := if confidence >= MATCH_THRESHOLD then Matched else NeedsReview;
      MatchInvoice(invoice, store, ratio)
      == Verdict(status, FoundMessage(status), confidence, Some(store[invoice.poNumber.value]))
  {
  }

  /** PO-1001 in the stub table. */
  lemma StubAcme()
    ensures "PO-1001" in STUB_PO_DATA && STUB_PO_DATA["PO-1001"] == PoRecord("Acme Supplies", 1250.0)
  {
  }

  /** 1000.00 against an expected 1250.00 is 250 off, a fifth: total score 0.8. */
  lemma UnderBilledScore()
    ensures TotalScore(Some(1000.0), Some(1250.0)) == 0.8
  {
    assert 1.0 - Abs(1000.0 - 1250.0) / 1250.0 == 80 as real / 100.0;
    Round2Cents(80);
  }

  lemma HalfOfSum()
    ensures Round2((1.0 + 0.8) / 2.0) == 0.9
  {
    assert (1.0 + 0.8) / 2.0 == 90 as real / 100.0;
    Round2Cents(90);
  }

  /** "Acme Supplies" billed 1000.00 against PO-1001 (1250.00): total score 0.8, confidence 0.9, matched. */
  lemma UnderBilledExample(ratio: (string, string) -> real)
    requires IsRatio(ratio)
    ensures MatchInvoice(Invoice(Some("PO-1001"), Some("Acme Supplies"), Some(1000.0)), STUB_PO_DATA, ratio)
         == Verdict(Matched, "Matched to Epicor stub", 0.9, Some(PoRecord("Acme Supplies", 1250.0)))
  {
    var invoice := Invoice(Some("PO-1001"), Some("Acme Supplies"), Some(1000.0));
    StubAcme();
    SimilaritySameName("Acme Supplies", "Acme Supplies", ratio);
    UnderBilledScore();
    assert FoundConfidence(invoice, STUB_PO_DATA["PO-1001"], ratio) == Round2((1.0 + 0.8) / 2.0);
    HalfOfSum();
    FoundVerdict(invoice, STUB_PO_DATA, ratio, 0.9);
  }

  /** The same invoice billed at the PO's own total: confidence 1.0, matched. */
  lemma ExactExample(ratio: (string, string) -> real)
    requires IsRatio(ratio)
    ensures MatchInvoice(Invoice(Some("PO-1001"), Some("Acme Supplies"), Some(1250.0)), STUB_PO_DATA, ratio)
         == Verdict(Matched, "Matched to Epicor stub", 1.0, Some(PoRecord("Acme Supplies", 1250.0)))
  {
    var invoice := Invoice(Some("PO-1001"), Some("Acme Supplies"), Some(1250.0));
    StubAcme();
    SimilaritySameName("Acme Supplies", "Acme Supplies", ratio);
    TotalScoreExact(1250.0);
    assert (1.0 + 1.0) / 2.0 == 100 as real / 100.0;
    Round2Cents(100);
    FoundVerdict(invoice, STUB_PO_DATA, ratio, 1.0);
  }

}
