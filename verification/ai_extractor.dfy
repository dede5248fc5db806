/**
 * The pattern-based invoice extractor: raw invoice text in, a field record
 * out, with a confidence score that counts the key fields it found.
 */
module AiExtractor {
  import opened Wrappers
  import opened Text
  import opened Numbers
  import opened Patterns
  import opened Dates

  datatype Currency = GBP | USD | EUR

  /** One row of the line-item table. */
  datatype LineItem = LineItem(description: string, quantity: Option<real>, unitPrice: Option<real>, amount: Option<real>)

  /** The record `extract_invoice_fields` returns. */
  datatype InvoiceFields = InvoiceFields(
    invoiceNumber: Option<string>,
    poNumber: Option<string>,
    vendorName: Option<string>,
    invoiceDate: Option<string>,
    dueDate: Option<string>,
    subtotal: Option<real>,
    tax: Option<real>,
    total: Option<real>,
    currency: Option<Currency>,
    lineItems: seq<LineItem>,
    extractionConfidence: real)

  /** "Invoice" then No, # or Number, then the identifier; or "Inv #" then the identifier. */
  const INVOICE_NUMBER_PATTERNS: seq<Pattern> := [TaggedIdentifier(["invoice"], true), HashIdentifier("inv")]

  /** "PO" or "Purchase Order", an optional No, # or Number, then the identifier. */
  const PO_NUMBER_PATTERNS: seq<Pattern> := [TaggedIdentifier(["po"], false), TaggedIdentifier(["purchase", "order"], false)]

  /** "Vendor", "From" or "Supplier", then the rest of the line. */
  const VENDOR_PATTERNS: seq<Pattern> := [LabelledLine("vendor"), LabelledLine("from"), LabelledLine("supplier")]

  /** The unlabelled date shapes, in the order they are tried: ISO, slashed, dashed. */
  const DATE_PATTERNS: seq<Pattern> := [DateShape('-', true), DateShape('/', false), DateShape('-', false)]

  const INVOICE_DATE_LABEL: Pattern := LabelledToken(["invoice", "date"])
  const DUE_DATE_LABEL: Pattern := LabelledToken(["due", "date"])

  const SUBTOTAL_LABELS: seq<seq<string>> := [["subtotal"]]
  const TAX_LABELS: seq<seq<string>> := [["tax"]]
  const TOTAL_LABELS: seq<seq<string>> := [["total"], ["amount", "due"], ["balance", "due"]]

  /** The most line items one extraction reports. */
  const MAX_LINE_ITEMS: nat := 25

  /** The longest vendor name taken from the first line of the text. */
  const MAX_VENDOR_LENGTH: nat := 120

  // ---------------------------------------------------------------------
  // First pattern wins (_find_first)
  // ---------------------------------------------------------------------

  /** What each pattern's `re.search` captures in `t`, in list order. */
  function Searches(patterns: seq<Pattern>, t: string): (rs: seq<Option<string>>)
    ensures |rs| == |patterns|
    ensures forall k :: 0 <= k < |patterns| ==> rs[k] == Search(patterns[k], t)
  {
    seq(|patterns|, k requires 0 <= k < |patterns| => Search(patterns[k], t))
  }

  /** The stripped capture of the first search, in list order, that found one. */
  function FirstFound(rs: seq<Option<string>>): (r: Option<string>)
  {
    if rs == [] then None
    else
      match rs[0]
      case Some(g) => Some(Strip(g))
      case None => FirstFound(rs[1..])
  }

  /** The stripped capture of the first pattern, in list order, that matches anywhere in `t`. */
  function FirstCapture(patterns: seq<Pattern>, t: string): (r: Option<string>)
  {
    FirstFound(Searches(patterns, t))
  }

  /** Searches each pattern in turn and returns the first capture found. */
  method FindFirst(patterns: seq<Pattern>, t: string) returns (r: Option<string>)
    ensures r == FirstCapture(patterns, t)
  {
    ghost var rs := Searches(patterns, t);
    for i := 0 to |patterns|
      invariant FirstFound(rs) == FirstFound(rs[i..])
    {
      assert rs[i..][1..] == rs[i + 1..];
      var m := Search(patterns[i], t);
      if m.Some? {
        return Some(Strip(m.value));
      }
    }
    return None;
  }

  /** A search that found something decides the result when every earlier one found nothing. */
  lemma {:induction false} FirstFoundWins(rs: seq<Option<string>>, k: nat)
    requires k < |rs| && rs[k].Some?
    requires forall j :: 0 <= j < k ==> rs[j].None?
    ensures FirstFound(rs) == Some(Strip(rs[k].value))
  {
    if k > 0 {
      FirstFoundWins(rs[1..], k - 1);
    }
  }

  /** Nothing is found exactly when every search found nothing. */
  lemma {:induction false} FirstFoundNone(rs: seq<Option<string>>)
    ensures FirstFound(rs).None? <==> forall k :: 0 <= k < |rs| ==> rs[k].None?
  {
    if rs != [] {
      FirstFoundNone(rs[1..]);
      assert forall k :: 1 <= k < |rs| ==> rs[k] == rs[1..][k - 1];
    }
  }

  // ---------------------------------------------------------------------
  // Vendor (_extract_vendor)
  // ---------------------------------------------------------------------

  /** The stripped lines that are not blank, in order. */
  function NonBlankLines(lines: seq<string>): (r: seq<string>)
    ensures |r| <= |lines|
    ensures forall k :: 0 <= k < |r| ==> r[k] != [] && !IsSpace(r[k][0])
  {
    if lines == [] then []
    else
      var line := Strip(lines[0]);
      var rest := NonBlankLines(lines[1..]);
      if line == [] then rest else [line] + rest
  }

  lemma {:induction false} NonBlankLinesEmpty(lines: seq<string>)
    ensures NonBlankLines(lines) == [] <==> AllBlank(lines)
  {
    if lines != [] {
      NonBlankLinesEmpty(lines[1..]);
    }
  }

  /** The labelled vendor, else the first non-blank line cut to 120 characters. */
  function VendorOf(t: string): (r: Option<string>)
  {
    match FirstCapture(VENDOR_PATTERNS, t)
    case Some(v) => Some(v)
    case None =>
      var lines := NonBlankLines(SplitLines(t));
      if lines == [] then None else Some(Take(lines[0], MAX_VENDOR_LENGTH))
  }

  /** Tries Vendor, From and Supplier in turn, then falls back to the first non-blank line. */
  method ExtractVendor(t: string) returns (r: Option<string>)
    ensures r == VendorOf(t)
  {
    ghost var rs := Searches(VENDOR_PATTERNS, t);
    for i := 0 to |VENDOR_PATTERNS|
      invariant FirstFound(rs) == FirstFound(rs[i..])
    {
      assert rs[i..][1..] == rs[i + 1..];
      var m := Search(VENDOR_PATTERNS[i], t);
      if m.Some? {
        return Some(Strip(m.value));
      }
    }
    var lines := NonBlankLines(SplitLines(t));
    if lines != [] {
      return Some(Take(lines[0], MAX_VENDOR_LENGTH));
    }
    return None;
  }

  /** A label that begins with a letter cannot match inside whitespace. */
  lemma BlankHasNoLabel(w: string, t: string, i: nat)
    requires Blank(t) && i <= |t| && w != [] && 'a' <= w[0] <= 'z'
    ensures MatchAt(LabelledLine(w), t, i).None?
  {
    if i + |w| <= |t| {
      assert Lower(t[i..i + |w|])[0] == t[i] != w[0];
    }
    assert !LiteralAt(t, i, w);
  }

  lemma BlankHasNoVendor(t: string, k: nat)
    requires Blank(t) && k < |VENDOR_PATTERNS|
    ensures Search(VENDOR_PATTERNS[k], t).None?
  {
    forall j | 0 <= j <= |t| ensures MatchAt(VENDOR_PATTERNS[k], t, j).None? {
      BlankHasNoLabel(VENDOR_PATTERNS[k].word, t, j);
    }
  }

  /** No vendor is reported exactly when the text is blank. */
  lemma VendorNoneIffBlank(t: string)
    ensures VendorOf(t).None? <==> Blank(t)
  {
    SplitLinesAllBlank(t);
    NonBlankLinesEmpty(SplitLines(t));
    var rs := Searches(VENDOR_PATTERNS, t);
    if Blank(t) {
      forall k | 0 <= k < |rs| ensures rs[k].None? {
        BlankHasNoVendor(t, k);
      }
    }
    FirstFoundNone(rs);
  }

  /** Without a label, the vendor is a non-empty prefix of a stripped line, at most 120 characters long. */
  lemma VendorFallbackShape(t: string)
    requires FirstCapture(VENDOR_PATTERNS, t).None? && !Blank(t)
    ensures VendorOf(t).Some?
    ensures 0 < |VendorOf(t).value| <= MAX_VENDOR_LENGTH && !IsSpace(VendorOf(t).value[0])
  {
    VendorNoneIffBlank(t);
  }

  // ---------------------------------------------------------------------
  // Dates (_extract_labeled_date)
  // ---------------------------------------------------------------------

  /**
   * Of the first matches of the date shapes, in pattern order, the first
   * that `norm` accepts, normalised.
   */
  function FirstDate(rs: seq<Option<string>>, norm: string -> Option<string>): (r: Option<string>)
  {
    if rs == [] then None
    else
      match rs[0]
      case Some(c) =>
        (match norm(c)
         case Some(d) => Some(d)
         case None => FirstDate(rs[1..], norm))
      case None => FirstDate(rs[1..], norm)
  }

  /** The labelled candidate if it normalises, else the first date shape that does. */
  function LabelledDate(labelPattern: Pattern, t: string): (r: Option<string>)
  {
    var fallback := FirstDate(Searches(DATE_PATTERNS, t), NormalizedDate);
    match Search(labelPattern, t)
    case None => fallback
    case Some(c) =>
      (match NormalizedDate(c)
       case Some(d) => Some(d)
       case None => fallback)
  }

  /** Tries the labelled candidate, then the date shapes. */
  method ExtractLabeledDate(labelPattern: Pattern, t: string) returns (r: Option<string>)
    ensures r == LabelledDate(labelPattern, t)
  {
    var labelled := Search(labelPattern, t);
    if labelled.Some? {
      var parsed := NormalizeDate(labelled.value);
      if parsed.Some? {
        return parsed;
      }
    }
    r := ExtractShapeDate(t);
  }

  /** The first match of each date shape in order, until one normalises. */
  method ExtractShapeDate(t: string) returns (r: Option<string>)
    ensures r == FirstDate(Searches(DATE_PATTERNS, t), NormalizedDate)
  {
    ghost var rs := Searches(DATE_PATTERNS, t);
    for i := 0 to |DATE_PATTERNS|
      invariant FirstDate(rs, NormalizedDate) == FirstDate(rs[i..], NormalizedDate)
    {
      assert rs[i..][1..] == rs[i + 1..];
      var m := Search(DATE_PATTERNS[i], t);
      if m.Some? {
        var parsed := NormalizeDate(m.value);
        if parsed.Some? {
          return parsed;
        }
      }
    }
    return None;
  }

  /**
   * Pattern order decides, not position in the text: the first shape whose
   * first match normalises gives the date, whatever the later shapes match.
   */
  lemma {:induction false} FirstDateWins(rs: seq<Option<string>>, norm: string -> Option<string>, k: nat)
    requires k < |rs| && rs[k].Some? && norm(rs[k].value).Some?
    requires forall j :: 0 <= j < k ==> rs[j].None? || norm(rs[j].value).None?
    ensures FirstDate(rs, norm) == norm(rs[k].value)
  {
    if k > 0 {
      FirstDateWins(rs[1..], norm, k - 1);
    }
  }

  /** When normalising a normalised date changes nothing, the date found is such a fixed point. */
  lemma {:induction false} FirstDateNormalised(rs: seq<Option<string>>, norm: string -> Option<string>)
    requires FirstDate(rs, norm).Some?
    requires forall c :: norm(c).Some? ==> norm(norm(c).value) == norm(c)
    ensures norm(FirstDate(rs, norm).value) == FirstDate(rs, norm)
  {
    if !(rs[0].Some? && norm(rs[0].value).Some?) {
      FirstDateNormalised(rs[1..], norm);
    }
  }

  /** Every date the extractor reports is a valid calendar date in ISO form, a fixed point of normalisation. */
  lemma LabelledDateNormalised(labelPattern: Pattern, t: string)
    requires LabelledDate(labelPattern, t).Some?
    ensures NormalizedDate(LabelledDate(labelPattern, t).value) == LabelledDate(labelPattern, t)
    ensures exists d :: ValidDate(d) && LabelledDate(labelPattern, t).value == IsoFormat(d)
  {
    var c := Search(labelPattern, t);
    if c.Some? && NormalizedDate(c.value).Some? {
      NormalizedDateIdempotent(c.value);
    } else {
      forall s | NormalizedDate(s).Some?
        ensures NormalizedDate(NormalizedDate(s).value) == NormalizedDate(s)
      {
        NormalizedDateIdempotent(s);
      }
      FirstDateNormalised(Searches(DATE_PATTERNS, t), NormalizedDate);
    }
  }

  // ---------------------------------------------------------------------
  // Amounts (_find_last, _extract_labeled_amount, _parse_amount)
  // ---------------------------------------------------------------------

  /** `_find_last`: the stripped capture of the pattern's last `re.findall` match. */
  function FindLast(p: Pattern, t: string): (r: Option<string>)
  {
    match LastHit(p, t)
    case None => None
    case Some(h) => Some(Strip(Group(t, h)))
  }

  /** Nothing is found exactly when the pattern matches nowhere. */
  lemma FindLastNone(p: Pattern, t: string)
    ensures FindLast(p, t).None? <==> forall j :: 0 <= j <= |t| ==> MatchAt(p, t, j).None?
  {
    if forall j :: 0 <= j <= |t| ==> MatchAt(p, t, j).None? {
      LastHitNone(p, t);
    } else {
      var j :| 0 <= j <= |t| && MatchAt(p, t, j).Some?;
      LastHitCovers(p, t, j);
    }
  }

  /**
   * Last occurrence wins: wherever a match could begin, the value reported
   * is the capture of a match that ends after that position.
   */
  lemma FindLastOverrides(p: Pattern, t: string, j: nat)
    requires j <= |t| && MatchAt(p, t, j).Some?
    ensures LastHit(p, t).Some? && LastHit(p, t).value.end > j
    ensures FindLast(p, t) == Some(Strip(Group(t, LastHit(p, t).value)))
  {
    LastHitCovers(p, t, j);
  }

  /**
   * `_parse_amount`: strip, drop every comma, drop leading currency symbols,
   * strip again, then read a decimal; None stands for the ValueError.
   */
  function ParseAmount(v: string): (r: Option<real>)
  {
    ParseFloat(CleanAmount(v))
  }

  /** The text `_parse_amount` hands to float(). */
  function CleanAmount(v: string): string {
    Strip(DropWhile(Remove(Strip(v), ','), IsCurrencySymbol))
  }

  /**
   * A currency symbol in front and a comma inside are dropped before the
   * rest is read as a float.
   */
  lemma ParseAmountCleans(sym: char, a: string, b: string)
    requires IsCurrencySymbol(sym) && ',' !in a && ',' !in b && a != [] && b != []
    requires !IsCurrencySymbol(a[0]) && !IsSpace(a[0]) && !IsSpace(b[|b| - 1])
    ensures CleanAmount([sym] + a + [','] + b) == a + b
  {
    assert ([sym] + a)[0] == sym && ',' !in [sym] + a;
    StripRemove([sym] + a, b, ',');
    var plain := a + b;
    Associate([sym], a, b);
    assert plain[0] == a[0] && plain[|plain| - 1] == b[|b| - 1];
    SymbolDropped(sym, plain);
  }

  lemma SymbolDropped(sym: char, s: string)
    requires IsCurrencySymbol(sym) && s != [] && !IsCurrencySymbol(s[0])
    requires !IsSpace(s[0]) && !IsSpace(s[|s| - 1])
    ensures Strip(DropWhile([sym] + s, IsCurrencySymbol)) == s
  {
    assert ([sym] + s)[1..] == s;
    StripOfTrimmed(s);
  }

  /**
   * A currency symbol, then digits with a thousands comma and a decimal
   * point: "£1,234.56" reads as 1234.56.
   */
  lemma ParseAmountOfGrouped(sym: char, high: string, low: string, frac: string)
    requires IsCurrencySymbol(sym) && AllDigits(high) && AllDigits(low) && AllDigits(frac) && high != []
    ensures ParseAmount([sym] + high + [','] + low + ['.'] + frac) == Some(DecimalValue(high + low, frac))
  {
    var rest := low + ['.'] + frac;
    assert rest[|rest| - 1] == if frac == [] then '.' else frac[|frac| - 1];
    assert ',' !in high && ',' !in rest;
    Regroup([sym] + high + [','], low, ['.'], frac);
    ParseAmountCleans(sym, high, rest);
    AllDigitsAppend(high, low);
    Regroup(high, low, ['.'], frac);
    ParseFloatPoint(high + low, frac);
  }

  /** A currency symbol in front of a comma-free number is dropped before it is read. */
  lemma SymbolCleans(sym: char, s: string)
    requires IsCurrencySymbol(sym) && ',' !in s && s != [] && !IsCurrencySymbol(s[0])
    requires !IsSpace(s[0]) && !IsSpace(s[|s| - 1])
    ensures CleanAmount([sym] + s) == s
  {
    var v := [sym] + s;
    assert v[0] == sym && v[|v| - 1] == s[|s| - 1];
    StripOfTrimmed(v);
    assert ',' !in v;
    RemoveAbsent(v, ',');
    SymbolDropped(sym, s);
  }

  /** A currency symbol, then digits and a decimal point: "$0.00" reads as 0.0. */
  lemma ParseAmountOfPlain(sym: char, whole: string, frac: string)
    requires IsCurrencySymbol(sym) && AllDigits(whole) && AllDigits(frac) && whole != []
    ensures ParseAmount([sym] + whole + ['.'] + frac) == Some(DecimalValue(whole, frac))
  {
    var s := whole + ['.'] + frac;
    assert s[|s| - 1] == if frac == [] then '.' else frac[|frac| - 1];
    assert s[0] == whole[0] && ',' !in s;
    Regroup([sym], whole, ['.'], frac);
    SymbolCleans(sym, s);
    ParseFloatPoint(whole, frac);
  }

  lemma ZeroValue()
    ensures DecimalValue("0", "00") == 0.0
  {
    DigitsValue2("00");
  }

  lemma ZeroAmount()
    ensures ParseAmount("$0.00") == Some(0.0)
  {
    assert "$0.00" == ['$'] + "0" + ['.'] + "00";
    ParseAmountOfPlain('$', "0", "00");
    ZeroValue();
  }

  lemma GroupedValue()
    ensures DecimalValue("1" + "234", "56") == 1234.56
  {
    assert "1" + "234" == "1234";
    DigitsValue4("1234");
    DigitsValue2("56");
  }

  lemma GroupedAmount()
    ensures ParseAmount("\U{00A3}1,234.56") == Some(1234.56)
  {
    assert "\U{00A3}1,234.56" == ['\U{00A3}'] + "1" + [','] + "234" + ['.'] + "56";
    ParseAmountOfGrouped('\U{00A3}', "1", "234", "56");
    GroupedValue();
  }

  lemma WordAmount()
    ensures ParseAmount("not-a-number").None?
  {
    ParseAmountNeedsDigit("not-a-number");
  }

  /** A value without any digit gives None. */
  lemma ParseAmountNeedsDigit(v: string)
    requires forall x :: x in v ==> !IsDigit(x)
    ensures ParseAmount(v).None?
  {
    var dropped := DropWhile(Remove(Strip(v), ','), IsCurrencySymbol);
    forall x | x in Strip(dropped) ensures !IsDigit(x) {
      StripKeeps(dropped, x);
      RemoveKeeps(Strip(v), ',', x);
      StripKeeps(v, x);
    }
    ParseFloatNeedsDigit(Strip(dropped));
  }

  /** The amount after the last occurrence of any of the labels, if it parses. */
  function AmountFor(labels: seq<seq<string>>, t: string): (r: Option<real>)
  {
    match FindLast(LabelledAmount(labels), t)
    case None => None
    case Some(m) => if m == [] then None else ParseAmount(m)
  }

  /** Digits and thousands commas beginning with a digit, as `\d[\d,]*` matches them. */
  predicate GroupedDigits(w: string) {
    w != [] && IsDigit(w[0]) && forall k :: 0 <= k < |w| ==> IsDigitOrComma(w[k])
  }

  /** A point and two digits, as `\.\d{2}` matches them. */
  predicate Cents(f: string) {
    |f| == 3 && f[0] == '.' && IsDigit(f[1]) && IsDigit(f[2])
  }

  /** Dropping the commas of grouped digits leaves digits, the first one kept. */
  lemma {:induction false} CommasDropped(w: string)
    requires GroupedDigits(w)
    ensures var rw := Remove(w, ','); rw != [] && rw[0] == w[0] && AllDigits(rw)
  {
    var rw := Remove(w, ',');
    assert rw == [w[0]] + Remove(w[1..], ',');
    forall k | 0 <= k < |rw| ensures IsDigit(rw[k]) {
      RemoveKeeps(w, ',', rw[k]);
    }
  }

  /** The digits and cents once their commas are gone: what float() is given. */
  lemma {:induction false} CleanDigits(w: string, f: string)
    requires GroupedDigits(w) && Cents(f)
    ensures var tail := Remove(w, ',') + f;
      && Remove(w + f, ',') == tail && tail[0] == w[0] && tail[|tail| - 1] == f[2] && ',' !in tail
  {
    CommasDropped(w);
    assert ',' !in f;
    RemoveAbsent(f, ',');
    RemoveAppend(w, f, ',');
  }

  /** A text with nothing to strip, no comma and no leading symbol is handed to float() unchanged. */
  lemma {:induction false} CleanOfPlain(s: string)
    requires s != [] && !IsSpace(s[0]) && !IsSpace(s[|s| - 1]) && ',' !in s && !IsCurrencySymbol(s[0])
    ensures CleanAmount(s) == s
  {
    StripOfTrimmed(s);
    RemoveAbsent(s, ',');
    DropWhileAt(s, IsCurrencySymbol, 0);
  }

  /** Digits and cents are handed to float() as they are, their commas dropped. */
  lemma {:induction false} CleanJoined(w: string, f: string)
    requires GroupedDigits(w) && Cents(f)
    ensures CleanAmount(w + f) == Remove(w, ',') + f
  {
    var s := w + f;
    assert s[0] == w[0] && s[|s| - 1] == f[2];
    StripOfTrimmed(s);
    CleanDigits(w, f);
    var tail := Remove(w, ',') + f;
    DropWhileAt(tail, IsCurrencySymbol, 0);
    StripOfTrimmed(tail);
  }

  /** A token with a currency symbol has nothing to strip. */
  lemma {:induction false} SymbolTokenTrimmed(a: string, w: string, f: string)
    requires a != [] && IsCurrencySymbol(a[0]) && GroupedDigits(w) && Cents(f)
    ensures Strip(a + w + f) == a + w + f
  {
    var v := a + w + f;
    assert v[0] == a[0] && v[|v| - 1] == f[2];
    StripOfTrimmed(v);
  }

  /** The commas of a symbol token are all in its digits. */
  lemma {:induction false} SymbolTokenRemoved(a: string, w: string, f: string)
    requires a != [] && IsCurrencySymbol(a[0]) && Blank(a[1..]) && GroupedDigits(w) && Cents(f)
    ensures Remove(a + w + f, ',') == a + (Remove(w, ',') + f)
  {
    CleanDigits(w, f);
    Associate(a, w, f);
    assert forall k :: 1 <= k < |a| ==> a[k] == a[1..][k - 1];
    assert ',' !in a;
    RemoveAbsent(a, ',');
    RemoveAppend(a, w + f, ',');
  }

  /** Only the one leading symbol is dropped: whitespace or a digit follows it. */
  lemma {:induction false} SymbolDroppedOnce(a: string, s: string)
    requires a != [] && IsCurrencySymbol(a[0]) && Blank(a[1..])
    requires s != [] && IsDigit(s[0])
    ensures DropWhile(a + s, IsCurrencySymbol) == a[1..] + s
  {
    var u := a + s;
    var rest := a[1..] + s;
    assert u[0] == a[0] && u[1..] == rest;
    assert !IsCurrencySymbol(rest[0]) by {
      if 1 < |a| { assert rest[0] == a[1..][0]; } else { assert rest[0] == s[0]; }
    }
    assert DropWhile(u, IsCurrencySymbol) == rest;
  }

  /** The symbol and the whitespace after it go; the digits lose their commas. */
  lemma {:induction false} CleanSymbolJoined(a: string, w: string, f: string)
    requires a != [] && IsCurrencySymbol(a[0]) && Blank(a[1..]) && GroupedDigits(w) && Cents(f)
    ensures CleanAmount(a + w + f) == Remove(w, ',') + f
  {
    CleanDigits(w, f);
    var tail := Remove(w, ',') + f;
    SymbolDroppedOnce(a, tail);
    StripBlankPrefix(a[1..], tail);
    SymbolTokenRemoved(a, w, f);
    SymbolTokenTrimmed(a, w, f);
  }

  /** A token without a symbol: strip() drops the leading whitespace. */
  lemma {:induction false} BlankTokenStripped(a: string, w: string, f: string)
    requires Blank(a) && GroupedDigits(w) && Cents(f)
    ensures Strip(a + w + f) == w + f
  {
    var s := w + f;
    assert s[0] == w[0] && s[|s| - 1] == f[2];
    Associate(a, w, f);
    StripBlankPrefix(a, s);
  }

  /** What `[£$€]?\s*` matches in front of the digits: at most one symbol, then whitespace. */
  predicate SymbolPadding(a: string) {
    forall k :: 0 <= k < |a| ==> IsSpace(a[k]) || (k == 0 && IsCurrencySymbol(a[k]))
  }

  /** The text float() is given for a money token: its digits without commas, and its cents. */
  lemma {:induction false} CleanTokenText(a: string, w: string, f: string)
    requires SymbolPadding(a) && GroupedDigits(w) && Cents(f)
    ensures Strip(a + w + f) != []
    ensures CleanAmount(Strip(a + w + f)) == Remove(w, ',') + f
  {
    if a != [] && IsCurrencySymbol(a[0]) {
      assert Blank(a[1..]) by {
        assert forall k :: 0 <= k < |a| - 1 ==> a[1..][k] == a[k + 1];
      }
      SymbolTokenTrimmed(a, w, f);
      CleanSymbolJoined(a, w, f);
    } else {
      BlankTokenStripped(a, w, f);
      CleanJoined(w, f);
    }
  }

  /**
   * A money token as the amount pattern captures it (an optional currency
   * symbol, whitespace, a digit, digits and commas, a point and two digits)
   * survives strip() and reads as the number its digits spell.
   */
  lemma {:induction false} CleanToken(a: string, w: string, f: string)
    requires SymbolPadding(a) && GroupedDigits(w) && Cents(f)
    ensures Strip(a + w + f) != []
    ensures AllDigits(Remove(w, ','))
    ensures ParseAmount(Strip(a + w + f)) == Some(DecimalValue(Remove(w, ','), f[1..]))
  {
    CommasDropped(w);
    var rw := Remove(w, ',');
    assert rw + f == rw + ['.'] + f[1..];
    ParseFloatPoint(rw, f[1..]);
    CleanTokenText(a, w, f);
  }

  /** Wherever the amount pattern matches, its stripped capture parses. */
  lemma {:induction false} AmountTokenParses(t: string, q: nat)
    requires q <= |t| && AmountAt(t, q).Some?
    ensures Strip(t[q..AmountAt(t, q).value]) != []
    ensures ParseAmount(Strip(t[q..AmountAt(t, q).value])).Some?
  {
    var e := AmountAt(t, q).value;
    var s1 := if q < |t| && IsCurrencySymbol(t[q]) then q + 1 else q;
    var s2 := SkipSpaces(t, s1);
    var s3 := SkipWhile(t, s2 + 1, IsDigitOrComma);
    assert e == s3 + 3;
    var a, w, f := t[q..s2], t[s2..s3], t[s3..e];
    forall k | 0 <= k < |a| ensures IsSpace(a[k]) || (k == 0 && IsCurrencySymbol(a[k])) {
      assert a[k] == t[q + k];
      if q + k >= s1 { assert IsSpace(t[q + k]); }
    }
    forall k | 0 <= k < |w| ensures IsDigitOrComma(w[k]) {
      assert w[k] == t[s2 + k];
      if k > 0 { assert IsDigitOrComma(t[s2 + k]); }
    }
    assert t[q..e] == a + w + f;
    CleanToken(a, w, f);
  }

  /**
   * `_extract_labeled_amount` finds an amount exactly when one of the labels
   * is followed by a money token somewhere, and then it is the value of the
   * last such token: every token the pattern accepts parses.
   */
  lemma AmountForFound(labels: seq<seq<string>>, t: string)
    ensures AmountFor(labels, t).Some? <==> exists j :: 0 <= j <= |t| && MatchAt(LabelledAmount(labels), t, j).Some?
    ensures AmountFor(labels, t).Some? ==>
              var h := LastHit(LabelledAmount(labels), t).value;
              AmountFor(labels, t) == ParseAmount(Strip(t[h.groupStart..h.groupEnd]))
  {
    var p := LabelledAmount(labels);
    FindLastNone(p, t);
    match LastHit(p, t)
    case None =>
    case Some(h) =>
      assert LabelledAmountAt(t, h.begin, labels) == Some(h);
      AmountTokenParses(t, h.groupStart);
  }

  /**
   * The label "total" also matches inside "Subtotal": wherever a subtotal is
   * labelled, a total is labelled three characters later.
   */
  lemma SubtotalIsAlsoTotal(t: string, i: nat)
    requires i <= |t| && MatchAt(LabelledAmount(SUBTOTAL_LABELS), t, i).Some?
    ensures MatchAt(LabelledAmount(TOTAL_LABELS), t, i + 3).Some?
    ensures FindLast(LabelledAmount(TOTAL_LABELS), t).Some?
  {
    assert LiteralAt(t, i, "subtotal");
    assert Lower(t[i + 3..i + 8]) == Lower(t[i..i + 8])[3..];
    assert LiteralAt(t, i + 3, "total");
    assert WordsAt(t, i + 3, ["total"]) == Some(i + 8);
    FindLastOverrides(LabelledAmount(TOTAL_LABELS), t, i + 3);
  }

  // ---------------------------------------------------------------------
  // Currency (_detect_currency)
  // ---------------------------------------------------------------------

  /** GBP if a pound sign occurs anywhere, else USD for a dollar sign, else EUR for a euro sign. */
  function DetectCurrency(t: string): (r: Option<Currency>)
  {
    if '\U{00A3}' in t then Some(GBP)
    else if '$' in t then Some(USD)
    else if '\U{20AC}' in t then Some(EUR)
    else None
  }

  /**
   * Symbol priority decides, not position: each currency is reported exactly
   * when its symbol occurs and no symbol of higher priority does.
   */
  lemma CurrencyPriority(t: string)
    ensures DetectCurrency(t) == Some(GBP) <==> '\U{00A3}' in t
    ensures DetectCurrency(t) == Some(USD) <==> '\U{00A3}' !in t && '$' in t
    ensures DetectCurrency(t) == Some(EUR) <==> '\U{00A3}' !in t && '$' !in t && '\U{20AC}' in t
    ensures DetectCurrency(t).None? <==> forall k :: 0 <= k < |t| ==> !IsCurrencySymbol(t[k])
  {
  }

  /** Reordering the text never changes the detected currency. */
  lemma CurrencyIgnoresOrder(a: string, b: string)
    requires multiset(a) == multiset(b)
    ensures DetectCurrency(a) == DetectCurrency(b)
  {
    assert forall c :: c in a <==> c in multiset(a);
    assert forall c :: c in b <==> c in multiset(b);
  }

  // ---------------------------------------------------------------------
  // Line items (_extract_line_items)
  // ---------------------------------------------------------------------

  /** The item a matched row gives: the stripped description and the three parsed numbers. */
  function ItemOf(g: LineItemGroups): LineItem {
    LineItem(Strip(g.description), ParseAmount(g.quantity), ParseAmount(g.unitPrice), ParseAmount(g.amount))
  }

  /** A reported item: its description is not empty and is already stripped. */
  predicate WellFormedItem(item: LineItem) {
    item.description != [] && Strip(item.description) == item.description
  }

  /** The item on one line of the text, if the stripped line is a table row. */
  function LineItemOf(line: string): (r: Option<LineItem>)
    ensures r.Some? ==> WellFormedItem(r.value)
  {
    var s := Strip(line);
    if s == [] then None
    else
      match MatchLineItem(s)
      case None => None
      case Some(g) =>
        assert g.description[0] == s[0];
        StripIdempotent(g.description);
        Some(ItemOf(g))
  }

  /** The items `read` finds on the lines, in line order. */
  function Collect(read: string -> Option<LineItem>, lines: seq<string>): (items: seq<LineItem>)
    ensures |items| <= |lines|
  {
    if lines == [] then []
    else
      var init := Collect(read, lines[..|lines| - 1]);
      match read(lines[|lines| - 1])
      case None => init
      case Some(item) => init + [item]
  }

  /** Collecting one more line adds that line's item, if it has one. */
  lemma CollectStep(read: string -> Option<LineItem>, lines: seq<string>, i: nat, r: Option<LineItem>)
    requires i < |lines| && read(lines[i]) == r
    ensures Collect(read, lines[..i + 1]) == Collect(read, lines[..i]) + (if r.Some? then [r.value] else [])
  {
    assert lines[..i + 1][..i] == lines[..i];
  }

  /** Every collected item is the item of some line. */
  lemma {:induction false} CollectWellFormed(read: string -> Option<LineItem>, lines: seq<string>)
    requires forall line :: read(line).Some? ==> WellFormedItem(read(line).value)
    ensures forall k :: 0 <= k < |Collect(read, lines)| ==> WellFormedItem(Collect(read, lines)[k])
  {
    if lines != [] {
      CollectWellFormed(read, lines[..|lines| - 1]);
    }
  }

  lemma {:induction false} CollectAppend(read: string -> Option<LineItem>, a: seq<string>, b: seq<string>)
    ensures Collect(read, a + b) == Collect(read, a) + Collect(read, b)
    decreases |b|
  {
    if b == [] {
      assert a + b == a;
    } else {
      var b' := b[..|b| - 1];
      assert (a + b)[..|a + b| - 1] == a + b';
      assert (a + b)[|a + b| - 1] == b[|b| - 1];
      CollectAppend(read, a, b');
    }
  }

  /** The items on the first lines are the first items. */
  lemma CollectPrefix(read: string -> Option<LineItem>, lines: seq<string>, n: nat)
    requires n <= |lines|
    ensures |Collect(read, lines[..n])| <= |Collect(read, lines)|
    ensures Collect(read, lines)[..|Collect(read, lines[..n])|] == Collect(read, lines[..n])
  {
    assert lines == lines[..n] + lines[n..];
    CollectAppend(read, lines[..n], lines[n..]);
  }

  /** The first 25 items of the text, in line order. */
  function LineItemsOf(t: string): (items: seq<LineItem>)
  {
    Take(Collect(LineItemOf, SplitLines(t)), MAX_LINE_ITEMS)
  }

  /**
   * At most 25 items, the first items of the text in line order, each with
   * a non-empty stripped description.
   */
  lemma LineItemsShape(t: string)
    ensures |LineItemsOf(t)| <= MAX_LINE_ITEMS
    ensures LineItemsOf(t) <= Collect(LineItemOf, SplitLines(t))
    ensures forall k :: 0 <= k < |LineItemsOf(t)| ==> WellFormedItem(LineItemsOf(t)[k])
  {
    CollectWellFormed(LineItemOf, SplitLines(t));
  }

  /** Once the items on the first `n` lines reach the cap, they are the first items. */
  lemma CollectCapped(read: string -> Option<LineItem>, lines: seq<string>, n: nat, cap: nat)
    requires n <= |lines| && |Collect(read, lines[..n])| == cap
    ensures Take(Collect(read, lines), cap) == Collect(read, lines[..n])
  {
    CollectPrefix(read, lines, n);
  }

  /**
   * Reads the lines in order with `read`, keeping each item found, and
   * stops as soon as `cap` items are kept.
   */
  method TakeItems(lines: seq<string>, read: string -> Option<LineItem>, cap: nat) returns (items: seq<LineItem>)
    ensures items == Take(Collect(read, lines), cap)
  {
    items := [];
    var i := 0;
    assert lines[..0] == [];
    while i < |lines| && |items| < cap
      invariant i <= |lines|
      invariant items == Collect(read, lines[..i])
      invariant |items| <= cap
    {
      var r := read(lines[i]);
      CollectStep(read, lines, i, r);
      if r.Some? {
        items := items + [r.value];
      }
      i := i + 1;
    }
    if |items| == cap {
      CollectCapped(read, lines, i, cap);
    } else {
      assert lines[..i] == lines;
    }
  }

  /**
   * Scans the lines of the text in order, keeping the item of each line
   * that is a table row, and stops as soon as 25 items are kept.
   */
  method ExtractLineItems(t: string) returns (items: seq<LineItem>)
    ensures items == LineItemsOf(t)
  {
    items := TakeItems(SplitLines(t), LineItemOf, MAX_LINE_ITEMS);
  }

  // ---------------------------------------------------------------------
  // Confidence (_estimate_confidence)
  // ---------------------------------------------------------------------

  /** Python truthiness of an optional text: present and not empty. */
  predicate TextFound(v: Option<string>) { v.Some? && v.value != [] }

  /** Python truthiness of an optional number: present and not zero. */
  predicate NumberFound(v: Option<real>) { v.Some? && v.value != 0.0 }

  /** How many of the five key fields were found. */
  function FoundKeyFields(invoiceNumber: Option<string>, poNumber: Option<string>, vendorName: Option<string>,
                          invoiceDate: Option<string>, total: Option<real>): (n: nat)
    ensures n <= 5
  {
    (if TextFound(invoiceNumber) then 1 else 0) + (if TextFound(poNumber) then 1 else 0)
    + (if TextFound(vendorName) then 1 else 0) + (if TextFound(invoiceDate) then 1 else 0)
    + (if NumberFound(total) then 1 else 0)
  }

  /** The share of the five key fields found, rounded to two decimals. */
  function EstimateConfidence(invoiceNumber: Option<string>, poNumber: Option<string>, vendorName: Option<string>,
                              invoiceDate: Option<string>, total: Option<real>): (c: real)
    ensures c * 5.0 == FoundKeyFields(invoiceNumber, poNumber, vendorName, invoiceDate, total) as real
    ensures c in {0.0, 0.2, 0.4, 0.6, 0.8, 1.0}
  {
    var n := FoundKeyFields(invoiceNumber, poNumber, vendorName, invoiceDate, total);
    Round2Cents(20 * n);
    assert (20 * n) as real / 100.0 == n as real / 5.0;
    Round2(n as real / 5.0)
  }

  /** Full confidence exactly when all five key fields are found, none exactly when none is. */
  lemma ConfidenceExtremes(invoiceNumber: Option<string>, poNumber: Option<string>, vendorName: Option<string>,
                           invoiceDate: Option<string>, total: Option<real>)
    ensures EstimateConfidence(invoiceNumber, poNumber, vendorName, invoiceDate, total) == 1.0
            <==> TextFound(invoiceNumber) && TextFound(poNumber) && TextFound(vendorName)
                 && TextFound(invoiceDate) && NumberFound(total)
    ensures EstimateConfidence(invoiceNumber, poNumber, vendorName, invoiceDate, total) == 0.0
            <==> !TextFound(invoiceNumber) && !TextFound(poNumber) && !TextFound(vendorName)
                 && !TextFound(invoiceDate) && !NumberFound(total)
  {
  }

  // ---------------------------------------------------------------------
  // The whole record (extract_invoice_fields)
  // ---------------------------------------------------------------------

  /** `text or ""`: a missing text is read as the empty text. */
  function CleanedText(text: Option<string>): string {
    match text
    case None => []
    case Some(s) => s
  }

  /** The record extracted from a text, every field from the rules above. */
  function Extraction(text: Option<string>): (r: InvoiceFields)
  {
    var t := CleanedText(text);
    var invoiceNumber := FirstCapture(INVOICE_NUMBER_PATTERNS, t);
    var poNumber := FirstCapture(PO_NUMBER_PATTERNS, t);
    var vendorName := VendorOf(t);
    var invoiceDate := LabelledDate(INVOICE_DATE_LABEL, t);
    var total := AmountFor(TOTAL_LABELS, t);
    InvoiceFields(
      invoiceNumber, poNumber, vendorName, invoiceDate, LabelledDate(DUE_DATE_LABEL, t),
      AmountFor(SUBTOTAL_LABELS, t), AmountFor(TAX_LABELS, t), total,
      DetectCurrency(t), LineItemsOf(t),
      EstimateConfidence(invoiceNumber, poNumber, vendorName, invoiceDate, total))
  }

  /** Runs every extraction rule on the text and attaches the confidence score. */
  method ExtractInvoiceFields(text: Option<string>) returns (r: InvoiceFields)
    ensures r == Extraction(text)
    ensures r.extractionConfidence * 5.0
            == FoundKeyFields(r.invoiceNumber, r.poNumber, r.vendorName, r.invoiceDate, r.total) as real
    ensures |r.lineItems| <= MAX_LINE_ITEMS
  {
    var t := CleanedText(text);
    var invoiceNumber := FindFirst(INVOICE_NUMBER_PATTERNS, t);
    var poNumber := FindFirst(PO_NUMBER_PATTERNS, t);
    var vendorName := ExtractVendor(t);
    var invoiceDate := ExtractLabeledDate(INVOICE_DATE_LABEL, t);
    var dueDate := ExtractLabeledDate(DUE_DATE_LABEL, t);
    var subtotal := AmountFor(SUBTOTAL_LABELS, t);
    var tax := AmountFor(TAX_LABELS, t);
    var total := AmountFor(TOTAL_LABELS, t);
    var currency := DetectCurrency(t);
    var lineItems := ExtractLineItems(t);
    var confidence := EstimateConfidence(invoiceNumber, poNumber, vendorName, invoiceDate, total);
    r := InvoiceFields(invoiceNumber, poNumber, vendorName, invoiceDate, dueDate,
                       subtotal, tax, total, currency, lineItems, confidence);
  }

}
