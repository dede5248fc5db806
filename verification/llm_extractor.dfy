/**
 * The normaliser applied to the JSON object a language model returns:
 * the payload is projected onto the ten supported field names, the
 * line items are reshaped, and the money fields are coerced to numbers.
 */
module LlmExtractor {
  import opened Wrappers
  import opened Text
  import opened Numbers

  /** A value `json.loads` can produce: null, bool, int, float, str, list, dict. */
  datatype Json =
    | Null
    | Bool(b: bool)
    | Int(i: int)
    | Num(r: real)
    | Str(s: string)
    | Arr(items: seq<Json>)
    | Obj(fields: map<string, Json>)

  /** The field names the normalised record has, no more and no fewer. */
  const SUPPORTED_FIELDS: set<string> :=
    {"invoice_number", "po_number", "vendor_name", "invoice_date", "due_date",
     "subtotal", "tax", "total", "currency", "line_items"}

  /** The top-level money fields, coerced in this order. */
  const MONEY_FIELDS: seq<string> := ["subtotal", "tax", "total"]

  /** The keys of a normalised line item. */
  const ITEM_FIELDS: set<string> := {"description", "quantity", "unit_price", "amount"}

  /** dict.get(key): the value, or None when the key is missing. */
  function Get(m: map<string, Json>, key: string): (v: Json)
    ensures key !in m ==> v == Null
  {
    if key in m then m[key] else Null
  }

  /** A float or None, as a JSON value. */
  function NumberJson(x: Option<real>): (v: Json)
    ensures v.Null? || v.Num?
  {
    match x
    case None => Null
    case Some(r) => Num(r)
  }

  /**
   * Coercion of one value to a float. None stays None; a bool or an int
   * is converted (True is 1.0); anything else is written as a string,
   * stripped of commas and parsed, and is None when that fails. A list
   * or a dict is written starting with a bracket, which never parses.
   */
  function ToNumber(v: Json): (r: Option<real>)
    ensures v.Null? || v.Arr? || v.Obj? ==> r.None?
    ensures v.Bool? || v.Int? || v.Num? ==> r.Some?
  {
    match v
    case Null => None
    case Bool(b) => Some(if b then 1.0 else 0.0)
    case Int(i) => Some(i as real)
    case Num(r) => Some(r)
    case Str(s) => ParseFloat(Remove(s, ','))
    case Arr(_) => None
    case Obj(_) => None
  }

  /** A float and None are left as they are by the coercion. */
  lemma ToNumberFixes(x: Option<real>)
    ensures ToNumber(NumberJson(x)) == x
  {
  }

  /**
   * A comma among the whole digits of a numeric string is ignored: "1,234.5"
   * coerces to what "1234.5" does.
   */
  lemma ToNumberOfGrouped(high: string, low: string, frac: string)
    requires AllDigits(high) && AllDigits(low) && AllDigits(frac) && high != []
    ensures ToNumber(Str(high + [','] + low + ['.'] + frac)) == Some(DecimalValue(high + low, frac))
  {
    var whole := high + low;
    AllDigitsAppend(high, low);
    var rest := low + ['.'] + frac;
    assert ',' !in high && ',' !in low && ',' !in frac;
    assert ',' !in rest;
    assert high + [','] + low + ['.'] + frac == high + [','] + rest;
    RemoveBetween(high, rest, ',');
    assert high + rest == whole + ['.'] + frac;
    ParseFloatPoint(whole, frac);
  }

  /**
   * Text that does not start like a number coerces to None instead of
   * raising: a first character that is no digit, sign or point.
   */
  lemma ToNumberOfNonNumeric(s: string)
    requires ',' !in s && s != [] && !IsSpace(s[0]) && !IsSpace(s[|s| - 1])
    requires !IsDigit(s[0]) && s[0] != '+' && s[0] != '-' && s[0] != '.'
    ensures ToNumber(Str(s)).None?
  {
    RemoveAbsent(s, ',');
    StripOfTrimmed(s);
    var k := IndexOf(s, '.');
    assert k > 0;
    assert s[..k][0] == s[0];
  }

  /** "n/a" coerces to None. */
  lemma ToNumberOfWord()
    ensures ToNumber(Str("n/a")).None?
  {
    ToNumberOfNonNumeric("n/a");
  }

  /** `_to_number` with its result put back into the record. */
  function CoerceNumber(v: Json): (r: Json)
    ensures r.Null? || r.Num?
  {
    NumberJson(ToNumber(v))
  }

  /** One line item: its description copied, its three numbers coerced. */
  function NormalizeItem(m: map<string, Json>): (r: map<string, Json>)
    ensures r.Keys == ITEM_FIELDS
  {
    map["description" := Get(m, "description"),
        "quantity" := CoerceNumber(Get(m, "quantity")),
        "unit_price" := CoerceNumber(Get(m, "unit_price")),
        "amount" := CoerceNumber(Get(m, "amount"))]
  }

  /** The list comprehension over line items: dicts are reshaped, anything else is dropped. */
  function NormalizeItems(xs: seq<Json>): (r: seq<Json>)
    ensures |r| <= |xs|
    ensures forall k :: 0 <= k < |r| ==> r[k].Obj? && r[k].fields.Keys == ITEM_FIELDS
  {
    if xs == [] then []
    else
      var rest := NormalizeItems(xs[1..]);
      match xs[0]
      case Obj(m) => [Obj(NormalizeItem(m))] + rest
      case _ => rest
  }

  /** The comprehension works entry by entry, so the kept items stay in input order. */
  lemma {:induction false} NormalizeItemsAppend(xs: seq<Json>, ys: seq<Json>)
    ensures NormalizeItems(xs + ys) == NormalizeItems(xs) + NormalizeItems(ys)
  {
    if xs == [] {
      assert xs + ys == ys;
    } else {
      assert (xs + ys)[1..] == xs[1..] + ys;
      NormalizeItemsAppend(xs[1..], ys);
    }
  }

  /** A single entry: a dict gives one reshaped item, anything else gives none. */
  lemma NormalizeItemsSingle(x: Json)
    ensures NormalizeItems([x]) == if x.Obj? then [Obj(NormalizeItem(x.fields))] else []
  {
    assert [x][1..] == [];
  }

  /** Normalising normalised items changes nothing. */
  lemma {:induction false} NormalizeItemsIdempotent(xs: seq<Json>)
    ensures NormalizeItems(NormalizeItems(xs)) == NormalizeItems(xs)
  {
    if xs != [] {
      NormalizeItemsIdempotent(xs[1..]);
      if xs[0].Obj? {
        var item := NormalizeItem(xs[0].fields);
        ToNumberFixes(ToNumber(Get(xs[0].fields, "quantity")));
        ToNumberFixes(ToNumber(Get(xs[0].fields, "unit_price")));
        ToNumberFixes(ToNumber(Get(xs[0].fields, "amount")));
        assert NormalizeItem(item) == item;
        var rest := NormalizeItems(xs[1..]);
        assert ([Obj(item)] + rest)[1..] == rest;
      }
    }
  }

  /** `line_items` as the payload holds it, reduced to a list: anything but a list is empty. */
  function PayloadItems(payload: map<string, Json>): (xs: seq<Json>)
    ensures !Get(payload, "line_items").Arr? ==> xs == []
  {
    match Get(payload, "line_items")
    case Arr(items) => items
    case _ => []
  }

  /** The value of one supported field in the normalised record. */
  function NormalizedField(payload: map<string, Json>, key: string): (v: Json)
  {
    if key == "line_items" then Arr(NormalizeItems(PayloadItems(payload)))
    else if key in MONEY_FIELDS then CoerceNumber(Get(payload, key))
    else Get(payload, key)
  }

  /** The normalised record: every supported field, and nothing else. */
  function NormalizedPayload(payload: map<string, Json>): (r: map<string, Json>)
    ensures r.Keys == SUPPORTED_FIELDS
  {
    map key | key in SUPPORTED_FIELDS :: NormalizedField(payload, key)
  }

  /**
   * The record part way through the coercion loop: it has the keys of
   * `final`, and every field already holds its value in `final`, except
   * the money fields from `done` on, which still hold the payload's value.
   */
  predicate CoercedUpTo(payload: map<string, Json>, normalized: map<string, Json>, final: map<string, Json>, done: nat)
    requires done <= |MONEY_FIELDS|
  {
    normalized.Keys == final.Keys
    && forall key :: key in normalized ==>
      normalized[key] == (if key in MONEY_FIELDS[done..] then Get(payload, key) else final[key])
  }

  /** Coercing the next money field moves the loop on by one. */
  lemma CoercedStep(payload: map<string, Json>, normalized: map<string, Json>, final: map<string, Json>,
                    coerce: Json -> Json, done: nat)
    requires done < |MONEY_FIELDS| && CoercedUpTo(payload, normalized, final, done)
    requires MONEY_FIELDS[done] in final && final[MONEY_FIELDS[done]] == coerce(Get(payload, MONEY_FIELDS[done]))
    ensures CoercedUpTo(payload, normalized[MONEY_FIELDS[done] := coerce(Get(normalized, MONEY_FIELDS[done]))], final, done + 1)
  {
    var field := MONEY_FIELDS[done];
    var next := normalized[field := coerce(Get(normalized, field))];
    assert MONEY_FIELDS[done..] == [field] + MONEY_FIELDS[done + 1..];
    assert field !in MONEY_FIELDS[done + 1..];
    forall key | key in next
      ensures next[key] == (if key in MONEY_FIELDS[done + 1..] then Get(payload, key) else final[key])
    {
      if key != field {
        assert key in MONEY_FIELDS[done + 1..] <==> key in MONEY_FIELDS[done..];
      }
    }
  }

  /** Before the loop: the projection with the reshaped line items. */
  lemma CoercedStart(payload: map<string, Json>, items: seq<Json>)
    requires items == PayloadItems(payload)
    ensures CoercedUpTo(payload, (map key | key in SUPPORTED_FIELDS :: Get(payload, key))["line_items" := Arr(NormalizeItems(items))],
                        NormalizedPayload(payload), 0)
  {
    assert MONEY_FIELDS[0..] == MONEY_FIELDS;
  }

  /** The money fields of the normalised record hold the coerced payload values. */
  lemma CoercedMoney(payload: map<string, Json>, done: nat)
    requires done < |MONEY_FIELDS|
    ensures MONEY_FIELDS[done] in NormalizedPayload(payload)
    ensures NormalizedPayload(payload)[MONEY_FIELDS[done]] == CoerceNumber(Get(payload, MONEY_FIELDS[done]))
  {
  }

  /**
   * Projects the payload onto the supported fields, reshapes the line
   * items, then coerces the money fields one after another in place.
   */
  method NormalizePayload(payload: map<string, Json>) returns (normalized: map<string, Json>)
    ensures normalized == NormalizedPayload(payload)
  {
    normalized := map key | key in SUPPORTED_FIELDS :: Get(payload, key);
    var lineItems := Get(payload, "line_items");
    if !lineItems.Arr? {
      lineItems := Arr([]);
    }
    CoercedStart(payload, lineItems.items);
    normalized := normalized["line_items" := Arr(NormalizeItems(lineItems.items))];
    CoercedMoney(payload, 0);
    CoercedMoney(payload, 1);
    CoercedMoney(payload, 2);
    normalized := CoerceMoney(payload, normalized, NormalizedPayload(payload), CoerceNumber);
  }

  /** The loop over the money fields, each replaced by its coerced value. */
  method CoerceMoney(payload: map<string, Json>, start: map<string, Json>, final: map<string, Json>,
                     coerce: Json -> Json) returns (normalized: map<string, Json>)
    requires CoercedUpTo(payload, start, final, 0)
    requires forall i :: 0 <= i < |MONEY_FIELDS| ==>
      MONEY_FIELDS[i] in final && final[MONEY_FIELDS[i]] == coerce(Get(payload, MONEY_FIELDS[i]))
    ensures normalized == final
  {
    normalized := start;
    for i := 0 to |MONEY_FIELDS|
      invariant CoercedUpTo(payload, normalized, final, i)
    {
      CoercedStep(payload, normalized, final, coerce, i);
      var field := MONEY_FIELDS[i];
      normalized := normalized[field := coerce(Get(normalized, field))];
    }
    assert MONEY_FIELDS[|MONEY_FIELDS|..] == [];
  }

  /** Extra payload keys are dropped and missing supported keys read as None. */
  lemma NormalizedKeys(payload: map<string, Json>, key: string)
    ensures key in NormalizedPayload(payload) <==> key in SUPPORTED_FIELDS
    ensures key in SUPPORTED_FIELDS && key !in payload ==>
      NormalizedPayload(payload)[key] == (if key == "line_items" then Arr([]) else Null)
  {
  }

  /** A `line_items` value that is not a list becomes the empty list. */
  lemma NonListItems(payload: map<string, Json>)
    requires !Get(payload, "line_items").Arr?
    ensures NormalizedPayload(payload)["line_items"] == Arr([])
  {
  }

  /** The money fields hold a float or None, whatever the payload held. */
  lemma MoneyFieldsNumeric(payload: map<string, Json>, key: string)
    requires key in MONEY_FIELDS
    ensures NormalizedPayload(payload)[key].Num? || NormalizedPayload(payload)[key].Null?
    ensures NormalizedPayload(payload)[key] == CoerceNumber(Get(payload, key))
  {
  }

  /** The six text fields are copied unchanged. */
  lemma TextFieldsCopied(payload: map<string, Json>, key: string)
    requires key in SUPPORTED_FIELDS && key !in MONEY_FIELDS && key != "line_items"
    ensures NormalizedPayload(payload)[key] == Get(payload, key)
  {
  }

  /** Normalising a normalised record changes nothing. */
  lemma NormalizedIdempotent(payload: map<string, Json>)
    ensures NormalizedPayload(NormalizedPayload(payload)) == NormalizedPayload(payload)
  {
    var once := NormalizedPayload(payload);
    var twice := NormalizedPayload(once);
    NormalizeItemsIdempotent(PayloadItems(payload));
    forall key | key in SUPPORTED_FIELDS
      ensures twice[key] == once[key]
    {
      if key in MONEY_FIELDS {
        ToNumberFixes(ToNumber(Get(payload, key)));
      }
    }
  }

}
