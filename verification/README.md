# Invoice field extraction and PO reconciliation, modelled in Dafny

This project models the decision logic of the invoice OCR service:

- **The pattern extractor** (`app/services/ai_extractor.py`). It takes raw invoice text and builds a field record: invoice and PO numbers, vendor, invoice and due dates, subtotal, tax, total, currency and line items. It also computes a completeness confidence score.
- **The normaliser for language-model payloads** (`app/services/llm_extractor.py`). It projects a JSON object onto the ten supported fields, reshapes the line items and coerces the money fields to numbers.
- **The PO matcher** (`app/services/matcher.py`). It looks an invoice's PO number up in the purchase-order store and scores the vendor name and the total against the record found.

Modules:

| module | file | what it holds |
|---|---|---|
| `Wrappers` | wrappers.dfy | `Option` |
| `Text` | text.dfy | Python's `str.isspace`, `strip`, `splitlines`, `replace(c, "")` and ASCII lower-casing |
| `Numbers` | numbers.dfy | digit runs, `float()` on decimal text, `round(x, 2)` |
| `Patterns` | patterns.dfy | every fixed regular expression of the extractor, written out as the match Python's `re` reports; `re.search` and `re.findall` |
| `Dates` | dates.dfy | `datetime.strptime` with the five date formats, and `date.isoformat()` |
| `AiExtractor` | ai_extractor.dfy | `extract_invoice_fields` and its helpers |
| `LlmExtractor` | llm_extractor.dfy | `_normalize_payload` and `_to_number` over a JSON value type |
| `Matcher` | matcher.dfy | `match_invoice`, `_similarity`, `_total_score`, the stub PO table |

How the loops are modelled:

- Each loop of the source is a `method` with a `for` or `while` loop. Its `ensures` ties the result to a specification function. Examples: `FindFirst`, `ExtractVendor`, `ExtractLabeledDate`, `NormalizeDate`, `ExtractLineItems`, `NormalizePayload`.
- The properties of the extractor are lemmas about those functions.

## Model

| member | source | states |
|---|---|---|
| AiExtractor.ExtractInvoiceFields | app/services/ai_extractor.py:30-59 | The record is the one the extraction rules define, field by field. A missing text reads as "". Its confidence is the number of key fields found divided by 5. It holds at most 25 line items. |
| AiExtractor.FindFirst | app/services/ai_extractor.py:62-67 | Returns the stripped capture of the first pattern, in list order, that matches anywhere. Returns None when none matches. |
| AiExtractor.FirstFoundWins | app/services/ai_extractor.py:62-67 | A pattern that matches decides the result when every earlier pattern found nothing. List order wins, not position in the text. |
| AiExtractor.FirstFoundNone | app/services/ai_extractor.py:62-67 | Nothing is found if and only if every pattern's search fails. |
| Patterns.Search | app/services/ai_extractor.py:64 | `re.search` gives no capture if and only if the pattern matches at no start position. Otherwise it gives the capture of the match at the leftmost start position where the pattern matches. |
| AiExtractor.AmountForFound | app/services/ai_extractor.py:116-120 | `_extract_labeled_amount` gives a value if and only if one of the labels followed by a money token matches somewhere. The value is the parsed, stripped capture of the last such match: every token the amount pattern accepts parses. |
| AiExtractor.AmountTokenParses | app/services/ai_extractor.py:23 | Wherever the amount pattern matches, its stripped capture is non-empty and `_parse_amount` reads it as a number. |
| AiExtractor.CleanToken | app/services/ai_extractor.py:123-129 | A money token (optional symbol, whitespace, digits and commas, a point and two decimals) parses to the decimal value of its digits with the commas removed. |
| AiExtractor.FindLastNone | app/services/ai_extractor.py:70-74 | `_find_last` gives None if and only if the pattern matches nowhere in the text. |
| AiExtractor.FindLastOverrides | app/services/ai_extractor.py:70-74 | Wherever a match could begin, the reported value is the capture of a match that ends after that position. A later restatement of a label overrides an earlier one. |
| Patterns.LastHitCovers | app/services/ai_extractor.py:71-74 | The last `re.findall` match exists whenever the pattern matches somewhere, and it ends after every position where a match begins. |
| Patterns.ScanLastCovers | app/services/ai_extractor.py:71 | The left-to-right findall scan, resuming at each match's end, reports a match that ends past any position where a match begins. |
| AiExtractor.SubtotalIsAlsoTotal | app/services/ai_extractor.py:38-40 | Wherever "Subtotal" with an amount matches, the total label "total" matches three characters later. So a text with a subtotal always has a total. |
| AiExtractor.ExtractVendor | app/services/ai_extractor.py:77-86 | Tries Vendor, From and Supplier in turn. Otherwise it falls back to the first non-blank stripped line, cut to 120 characters. |
| AiExtractor.VendorNoneIffBlank | app/services/ai_extractor.py:77-86 | No vendor is reported if and only if the text is blank. |
| AiExtractor.VendorFallbackShape | app/services/ai_extractor.py:83-85 | Without a label, the vendor is non-empty, at most 120 characters long and starts with a non-space character. |
| AiExtractor.NonBlankLinesEmpty | app/services/ai_extractor.py:83 | The list of stripped non-blank lines is empty if and only if every line is blank. |
| Text.SplitLinesAllBlank | app/services/ai_extractor.py:83 | Every line `splitlines` yields is blank if and only if the whole text is blank. |
| AiExtractor.ExtractLabeledDate | app/services/ai_extractor.py:89-103 | The labelled candidate if it normalises, else the first date shape whose first match normalises, else None. |
| AiExtractor.ExtractShapeDate | app/services/ai_extractor.py:97-103 | Tries the three date shapes in order and keeps the first whose first match normalises. |
| AiExtractor.FirstDateWins | app/services/ai_extractor.py:97-103 | The first shape whose match normalises gives the date, whatever the later shapes match. |
| AiExtractor.LabelledDateNormalised | app/services/ai_extractor.py:89-113 | A reported date is already in ISO form: normalising it again gives it back. |
| Dates.NormalizeDate | app/services/ai_extractor.py:106-113 | Tries the five formats in order on the stripped text. Returns the ISO form of the first date that exists, or None. |
| Dates.TryFormats | app/services/ai_extractor.py:107-112 | The loop over the formats returns the date the first accepting format reads. |
| Dates.FirstParseNone | app/services/ai_extractor.py:107-113 | No date is found if and only if every format rejects the text. |
| Dates.IsoRoundTrip | app/services/ai_extractor.py:106-113 | The ISO text of any valid date normalises back to itself. |
| Dates.NormalizedDateIdempotent | app/services/ai_extractor.py:106-113 | Normalising a normalised date changes nothing. |
| Dates.DayFirstExample | app/services/ai_extractor.py:107 | "05/01/2024" is 5 January 2024, because %d/%m/%Y is tried before %m/%d/%Y. |
| Dates.MonthFirstExample | app/services/ai_extractor.py:107 | "12/31/2024" has no month 31, so the month-first format reads it as 2024-12-31. |
| Dates.InvalidDateExample | app/services/ai_extractor.py:107-113 | "31/02/2024" is no calendar date in either order and gives None. |
| Dates.PiecesOf | app/services/ai_extractor.py:109 | A text with two separators splits at exactly those two. |
| AiExtractor.ParseAmountOfGrouped | app/services/ai_extractor.py:123-129 | A currency symbol, digits with a thousands comma and a decimal point read as the decimal value of the digits without the comma. |
| AiExtractor.ParseAmountOfPlain | app/services/ai_extractor.py:123-129 | A currency symbol, digits and a decimal point read as the decimal value of the digits. |
| AiExtractor.ParseAmountNeedsDigit | app/services/ai_extractor.py:123-129 | A value without a digit gives None, the ValueError path. |
| AiExtractor.GroupedAmount | app/services/ai_extractor.py:123-129 | "£1,234.56" reads as 1234.56. |
| AiExtractor.ZeroAmount | app/services/ai_extractor.py:123-129 | "$0.00" reads as 0.0. |
| AiExtractor.WordAmount | app/services/ai_extractor.py:123-129 | "not-a-number" gives None. |
| Numbers.ParseFloatNeedsDigit | app/services/ai_extractor.py:126-129 | `float()` of a text without a digit raises ValueError, modelled as None. |
| AiExtractor.CurrencyPriority | app/services/ai_extractor.py:132-139 | Each currency is reported if and only if its symbol occurs and no symbol of higher priority (£, then $, then €) does. None if and only if no symbol occurs. |
| AiExtractor.CurrencyIgnoresOrder | app/services/ai_extractor.py:132-139 | Two texts with the same characters in any order get the same currency. |
| AiExtractor.ExtractLineItems | app/services/ai_extractor.py:142-159 | The items are the first 25 items of the text's lines, in line order. |
| AiExtractor.TakeItems | app/services/ai_extractor.py:144-158 | The loop that stops once `cap` items are kept returns the first `cap` items that reading every line would give. |
| AiExtractor.LineItemsShape | app/services/ai_extractor.py:142-159 | At most 25 items, each with a non-empty stripped description. They are a prefix of all the items of the text. |
| AiExtractor.LineItemOf | app/services/ai_extractor.py:145-157 | A line that is a table row gives an item whose description is non-empty and already stripped. |
| Patterns.MatchLineItem | app/services/ai_extractor.py:25-27 | The description group of an anchored row match is a non-empty prefix of the line. |
| Patterns.MatchLineItemShortest | app/services/ai_extractor.py:25-27 | The lazy `.+?` takes the shortest description after which the rest of the row matches. The groups are those of that row tail, every shorter description fails, and the description stays on the first line. No match means no description up to the first newline has a matching tail. |
| Patterns.PlainRow | app/services/ai_extractor.py:25-27 | A description without spaces, a space, a whole quantity, a space, a price with two decimals, a space and an amount with two decimals match as exactly those four groups. |
| Patterns.WidgetRow | app/services/ai_extractor.py:25-27 | "Widget 2 10.00 20.00" gives description "Widget", quantity "2", unit price "10.00" and amount "20.00". |
| AiExtractor.CollectAppend | app/services/ai_extractor.py:144-158 | Reading two runs of lines gives the items of the first run followed by those of the second. |
| AiExtractor.EstimateConfidence | app/services/ai_extractor.py:162-171 | The confidence times 5 is the number of the five key fields that are truthy. So it is one of 0, 0.2, 0.4, 0.6, 0.8 or 1. |
| AiExtractor.ConfidenceExtremes | app/services/ai_extractor.py:162-171 | The confidence is 1.0 if and only if all five key fields are found, and 0.0 if and only if none is. |
| LlmExtractor.NormalizePayload | app/services/llm_extractor.py:58-78 | The loop-and-update procedure returns the normalised record that the per-field rules define. |
| LlmExtractor.CoerceMoney | app/services/llm_extractor.py:75-76 | Coercing the money fields one after another in place reaches the record in which every money field holds its coerced value. |
| LlmExtractor.NormalizedKeys | app/services/llm_extractor.py:7-18 | The record has exactly the ten supported keys. A supported key missing from the payload reads as None, or as [] for line_items. |
| LlmExtractor.NonListItems | app/services/llm_extractor.py:61-63 | A `line_items` value that is not a list becomes []. |
| LlmExtractor.NormalizeItems | app/services/llm_extractor.py:64-73 | Only dict entries are kept. Each becomes an object with exactly the four item keys. |
| LlmExtractor.NormalizeItemsAppend | app/services/llm_extractor.py:64-73 | The comprehension works entry by entry: kept items stay in input order. |
| LlmExtractor.NormalizeItemsSingle | app/services/llm_extractor.py:64-73 | A dict entry gives its one reshaped item, and any other entry gives none. |
| LlmExtractor.MoneyFieldsNumeric | app/services/llm_extractor.py:75-76 | subtotal, tax and total hold a float or None, namely the coerced payload value. |
| LlmExtractor.TextFieldsCopied | app/services/llm_extractor.py:59 | The six other fields are copied unchanged. |
| LlmExtractor.NormalizedIdempotent | app/services/llm_extractor.py:58-78 | Normalising a normalised record changes nothing. |
| LlmExtractor.ToNumber | app/services/llm_extractor.py:81-89 | None, a list or a dict gives None. A bool, an int or a float always gives a number. |
| LlmExtractor.ToNumberFixes | app/services/llm_extractor.py:81-85 | A float or None is left as it is by the coercion. |
| LlmExtractor.ToNumberOfGrouped | app/services/llm_extractor.py:86-87 | A comma among the whole digits is ignored: "1,234.5" coerces to the value of "1234.5". |
| LlmExtractor.ToNumberOfNonNumeric | app/services/llm_extractor.py:86-89 | Text that does not start with a digit, sign or point coerces to None instead of raising. |
| LlmExtractor.ToNumberOfWord | app/services/llm_extractor.py:86-89 | "n/a" coerces to None. |
| Matcher.MatchInvoice | app/services/matcher.py:11-43 | A PO record is attached if and only if the PO number is present and in the store, and it is the store's record for that number. |
| Matcher.Outcomes | app/services/matcher.py:11-43 | A missing PO number needs review with 0.2 and the message "Missing PO number". An unknown one is pending with 0.3 and a message naming it. A found one gets the rounded mean of the two scores, is matched if and only if that mean reaches 0.7, and gets the message that goes with its status. |
| Matcher.ConfidenceBounds | app/services/matcher.py:31-35 | The confidence lies in [0, 1] when the ratio lies in [0, 1] and every stored total is positive. |
| Matcher.Similarity | app/services/matcher.py:46-49 | 0.4 when either name is missing or empty. |
| Matcher.SimilarityBounds | app/services/matcher.py:46-49 | The vendor score lies in [0, 1]. |
| Matcher.SimilaritySameName | app/services/matcher.py:46-49 | Names equal up to case score 1. |
| Matcher.TotalScore | app/services/matcher.py:52-58 | The score is never negative. It is 0.4 when either total is missing or the expected total is 0. |
| Matcher.TotalScoreBounds | app/services/matcher.py:52-58 | For a positive expected total the score lies in [0, 1]. |
| Matcher.TotalScoreExact | app/services/matcher.py:52-58 | Billing exactly the expected total scores 1. |
| Matcher.TotalScoreSymmetric | app/services/matcher.py:57-58 | Over-billing and under-billing by the same amount score the same. |
| Matcher.StubTotalsPositive | app/services/matcher.py:4-8 | Every PO in the stub table has a positive total, so `ConfidenceBounds` applies to it. |
| Matcher.UnderBilledExample | app/services/matcher.py:4-43 | "Acme Supplies" billed 1000.00 against PO-1001 (1250.00) gives total score 0.8, confidence 0.9, matched. |
| Matcher.ExactExample | app/services/matcher.py:4-43 | The same invoice billed 1250.00 gives confidence 1.0, matched. |
| Numbers.Round2Monotone | app/services/matcher.py:58 | `round(x, 2)` preserves order. |
| Numbers.Round2UnitInterval | app/services/matcher.py:33 | Rounding a value in [0, 1] stays in [0, 1]. |

## Left out

- **Case-insensitive matching.** IGNORECASE and `str.lower()` are modelled for ASCII letters only. Non-ASCII case folding is not modelled.
- **Unicode classes.** `\d` and `\w` are modelled as ASCII digits and word characters; Python also accepts other Unicode digits and letters. `strptime` is modelled for ASCII digits only.
- **`float()` on text.** Only an optional sign, digits and one decimal point, with surrounding whitespace, are read. Exponents, `inf`/`nan`, digit-group underscores and non-ASCII digits are not, so such text gives None in the model.
- **Floating point.** Amounts are exact reals, not binary floats.
- Numbers.Round2: `round(x, 2)` rounds halves up on exact reals. Python rounds the binary float half to even, so ties can differ.
- **Similarity ratio.** `difflib.SequenceMatcher.ratio` is a function parameter. The only assumptions about it are that it lies in [0, 1] and that a string compared with itself gives 1 (`Matcher.IsRatio`).
- **PO store.** `Matcher.MatchInvoice` takes the store as a parameter. The constant `STUB_PO_DATA` is the table the source uses.
- Matcher.MatchInvoice: the invoice is reduced to the three values it reads: PO number, vendor name and total. A PO number or vendor name that is not a string is not modelled.
- **Calls to the language model.** `extract_invoice_fields_llm` is not modelled: environment variables, the OpenAI client, the prompt, and `json.loads`. Only its pure half, `_normalize_payload` with `_to_number`, is.
- **Non-dict payloads.** A top-level payload that is not a dict would raise in the source. The model takes a dict.
- **Line items in the JSON payload.** An item's `description` may hold any JSON value, and it is copied as is.
- LlmExtractor.ToNumber: `str()` of a non-string scalar is not modelled; bools, ints and floats are converted directly. A huge int, where `float()` raises OverflowError, is converted exactly.
- **Regex engine.** There is no general regex engine. Each fixed pattern is written out as the match `re` reports for it. The text says why its backtracking order gives that match.
- **Merging records.** The source has no function that merges an extracted record with a language-model record, so none is modelled.

## Notes on the source

- `match_invoice` reads only `po_number`, `vendor_name` and `total` from the record it is given.
- `_detect_currency` returns None when no symbol occurs.
