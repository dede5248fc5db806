/**
 * The fixed regular expressions of the extractor, each written out as the
 * match Python's `re` finds for it. No general regular-expression engine:
 * every pattern here is a short sequence of greedy runs, and working
 * through the backtracking order shows that the first match `re` reports
 * at a start position is the one described below (letters are compared
 * without regard to ASCII case wherever the source passes IGNORECASE).
 *
 * `re.search` is the match at the leftmost start position that has one
 * (Search); `re.findall` is the left-to-right scan that resumes at the
 * end of each match (ScanFrom).
 */
module Patterns {
  import opened Wrappers
  import opened Text

  /** A match: where it begins, the span of its capture group, and where it ends. */
  datatype Hit = Hit(begin: nat, groupStart: nat, groupEnd: nat, end: nat)

  /** `h` is a match beginning at `i` whose capture group is non-empty. */
  predicate WellPlaced(t: string, i: nat, h: Hit) {
    h.begin == i && i <= h.groupStart < h.groupEnd <= h.end <= |t|
  }

  function Group(t: string, h: Hit): string
    requires h.groupStart <= h.groupEnd <= |t|
  {
    t[h.groupStart..h.groupEnd]
  }

  /** `[:\s]` */
  predicate IsColonOrSpace(c: char) { c == ':' || IsSpace(c) }

  /** `[A-Z0-9-]` under IGNORECASE */
  predicate IsIdChar(c: char) { IsAsciiLetter(c) || IsDigit(c) || c == '-' }

  /** `[\w/-]` */
  predicate IsDateTokenChar(c: char) {
    IsAsciiLetter(c) || IsDigit(c) || c == '_' || c == '/' || c == '-'
  }

  /** `[£$€]` */
  predicate IsCurrencySymbol(c: char) { c == '\U{00A3}' || c == '$' || c == '\U{20AC}' }

  /** `[\d,]` */
  predicate IsDigitOrComma(c: char) { IsDigit(c) || c == ',' }

  /** `.`, which does not match a newline */
  predicate NotNewline(c: char) { c != '\n' }

  /** The end of the longest run from `i` whose characters satisfy `p`. */
  function SkipWhile(t: string, i: nat, p: char -> bool): (j: nat)
    requires i <= |t|
    ensures i <= j <= |t|
    ensures forall k {:trigger p(t[k])} :: i <= k < j ==> p(t[k])
    ensures j < |t| ==> !p(t[j])
    decreases |t| - i
  {
    if i < |t| && p(t[i]) then SkipWhile(t, i + 1, p) else i
  }

  function SkipSpaces(t: string, i: nat): (j: nat)
    requires i <= |t|
    ensures i <= j <= |t|
  {
    SkipWhile(t, i, IsSpace)
  }

  /** The lower-case word `w` occurs at `i`, ignoring ASCII case. */
  predicate LiteralAt(t: string, i: nat, w: string) {
    i + |w| <= |t| && Lower(t[i..i + |w|]) == w
  }

  /** Words separated by optional whitespace; the position after the last word. */
  function WordsAt(t: string, i: nat, words: seq<string>): (r: Option<nat>)
    requires i <= |t|
    ensures r.Some? ==> i <= r.value <= |t|
    decreases |words|
  {
    if words == [] then Some(i)
    else if !LiteralAt(t, i, words[0]) then None
    else if |words| == 1 then Some(i + |words[0]|)
    else WordsAt(t, SkipSpaces(t, i + |words[0]|), words[1..])
  }

  /** An identifier `[A-Z0-9-]+` at `q`, as long as possible, for a match begun at `i`. */
  function IdRun(t: string, i: nat, q: nat): (r: Option<Hit>)
    requires i <= q <= |t|
    ensures r.Some? ==> WellPlaced(t, i, r.value) && r.value.groupStart == q
  {
    var e := SkipWhile(t, q, IsIdChar);
    if e > q then Some(Hit(i, q, e, e)) else None
  }

  /** The tags that may stand between a label and an identifier: No, #, Number. */
  const ID_TAGS: seq<string> := ["no", "#", "number"]

  /** The first of `tags` at `p` that is followed by `[:\s]*` and an identifier. */
  function TaggedId(t: string, i: nat, p: nat, tags: seq<string>): (r: Option<Hit>)
    requires i <= p <= |t|
    ensures r.Some? ==> WellPlaced(t, i, r.value)
    decreases |tags|
  {
    if tags == [] then None
    else
      var h := if LiteralAt(t, p, tags[0])
               then IdRun(t, i, SkipWhile(t, p + |tags[0]|, IsColonOrSpace))
               else None;
      if h.Some? then h else TaggedId(t, i, p, tags[1..])
  }

  /**
   * The last position in [lo, c] where a capture `.+` can start: the
   * backtracking of a greedy `[:\s]+` that ran up to `c` gives characters
   * back, one at a time, until `.` can match.
   */
  function CaptureStart(t: string, lo: nat, c: nat): (r: Option<nat>)
    requires lo <= c <= |t|
    ensures r.Some? ==> lo <= r.value <= c && r.value < |t| && t[r.value] != '\n'
    ensures r.Some? ==> forall k :: r.value < k <= c ==> k == |t| || t[k] == '\n'
    ensures r.None? ==> forall k :: lo <= k <= c ==> k == |t| || t[k] == '\n'
    decreases c
  {
    if c < |t| && t[c] != '\n' then Some(c)
    else if c == lo then None
    else CaptureStart(t, lo, c - 1)
  }

  /** `$` on a text: the end, or just before a final newline. */
  predicate AtEnd(t: string, f: nat) {
    f == |t| || (f + 1 == |t| && t[f] == '\n')
  }

  /**
   * A money token `[£$€]?\s*\d[\d,]*\.\d{2}` at `q`; its end. At most one
   * currency symbol, any number of commas among the whole digits, exactly
   * two digits after the point.
   */
  function AmountAt(t: string, q: nat): (r: Option<nat>)
    requires q <= |t|
    ensures r.Some? ==> q < r.value <= |t|
  {
    var s1 := if q < |t| && IsCurrencySymbol(t[q]) then q + 1 else q;
    var s2 := SkipSpaces(t, s1);
    if s2 < |t| && IsDigit(t[s2]) then
      var s3 := SkipWhile(t, s2 + 1, IsDigitOrComma);
      if s3 + 3 <= |t| && t[s3] == '.' && IsDigit(t[s3 + 1]) && IsDigit(t[s3 + 2])
      then Some(s3 + 3)
      else None
    else
      None
  }

  /** Of the label alternatives, the first followed by `\s*[:\s]*` and a money token. */
  function LabelledAmountAt(t: string, i: nat, labels: seq<seq<string>>): (r: Option<Hit>)
    requires i <= |t|
    ensures r.Some? ==> WellPlaced(t, i, r.value)
    ensures r.Some? ==> AmountAt(t, r.value.groupStart) == Some(r.value.groupEnd)
    decreases |labels|
  {
    if labels == [] then None
    else
      var h :=
        match WordsAt(t, i, labels[0])
        case None => None
        case Some(p) =>
          var q := SkipWhile(t, p, IsColonOrSpace);
          match AmountAt(t, q)
          case None => None
          case Some(e) => Some(Hit(i, q, e, e));
      if h.Some? then h else LabelledAmountAt(t, i, labels[1..])
  }

  /** In a date shape of ten characters, the two slots that hold the separator. */
  predicate SeparatorSlot(k: int, yearFirst: bool) {
    if yearFirst then k == 4 || k == 7 else k == 2 || k == 5
  }

  /** `\d{4}-\d{2}-\d{2}` (yearFirst) or `\d{2}S\d{2}S\d{4}` with separator S at `i`. */
  predicate DateShapeAt(t: string, i: nat, sep: char, yearFirst: bool) {
    i + 10 <= |t|
    && forall k :: 0 <= k < 10 ==>
         if SeparatorSlot(k, yearFirst) then t[i + k] == sep else IsDigit(t[i + k])
  }

  /** The patterns the extractor searches for. */
  datatype Pattern =
      /** a label, whitespace, then one of No/#/Number (optional unless `tagRequired`), `[:\s]*`, an identifier */
    | TaggedIdentifier(words: seq<string>, tagRequired: bool)
      /** a label, whitespace, `#`, whitespace, an identifier */
    | HashIdentifier(word: string)
      /** a label, at least one of `[:\s]`, then the rest of a line */
    | LabelledLine(word: string)
      /** a label, `[:\s]*`, then a run of `[\w/-]` */
    | LabelledToken(words: seq<string>)
      /** a ten-character date of digits and separators */
    | DateShape(sep: char, yearFirst: bool)
      /** one of several labels, `[:\s]*`, then a money token */
    | LabelledAmount(labels: seq<seq<string>>)

  /** The match of `p` beginning exactly at `i`, if there is one. */
  function MatchAt(p: Pattern, t: string, i: nat): (r: Option<Hit>)
    requires i <= |t|
    ensures r.Some? ==> WellPlaced(t, i, r.value)
  {
    match p
    case TaggedIdentifier(words, tagRequired) =>
      (match WordsAt(t, i, words)
       case None => None
       case Some(e) =>
         var q := SkipSpaces(t, e);
         var tagged := TaggedId(t, i, q, ID_TAGS);
         if tagged.Some? || tagRequired then tagged
         else IdRun(t, i, SkipWhile(t, q, IsColonOrSpace)))
    case HashIdentifier(word) =>
      if !LiteralAt(t, i, word) then None
      else
        var q := SkipSpaces(t, i + |word|);
        if q < |t| && t[q] == '#' then IdRun(t, i, SkipSpaces(t, q + 1)) else None
    case LabelledLine(word) =>
      if !LiteralAt(t, i, word) then None
      else
        var e := i + |word|;
        var q := SkipWhile(t, e, IsColonOrSpace);
        if q == e then None
        else
          (match CaptureStart(t, e + 1, q)
           case None => None
           case Some(c) =>
             var f := SkipWhile(t, c, NotNewline);
             Some(Hit(i, c, f, f)))
    case LabelledToken(words) =>
      (match WordsAt(t, i, words)
       case None => None
       case Some(e) =>
         var q := SkipWhile(t, e, IsColonOrSpace);
         var f := SkipWhile(t, q, IsDateTokenChar);
         if f > q then Some(Hit(i, q, f, f)) else None)
    case DateShape(sep, yearFirst) =>
      if DateShapeAt(t, i, sep, yearFirst) then Some(Hit(i, i, i + 10, i + 10)) else None
    case LabelledAmount(labels) =>
      LabelledAmountAt(t, i, labels)
  }

  /** The match of `p` at every start position of `t`, the end included. */
  function Matches(p: Pattern, t: string): (ms: seq<Option<Hit>>)
    ensures Placed(ms, t)
    ensures forall j :: 0 <= j <= |t| ==> ms[j] == MatchAt(p, t, j)
  {
    seq(|t| + 1, j requires 0 <= j <= |t| => MatchAt(p, t, j))
  }

  /** Every match recorded at position j begins at j and lies inside `t`. */
  predicate Placed(ms: seq<Option<Hit>>, t: string) {
    |ms| == |t| + 1
    && forall j :: 0 <= j < |ms| && ms[j].Some? ==> WellPlaced(t, j, ms[j].value)
  }

  /** The leftmost position from `i` on where a match begins, if any. */
  function FirstFrom(ms: seq<Option<Hit>>, i: nat): (r: Option<nat>)
    requires i < |ms|
    ensures r.Some? ==> i <= r.value < |ms| && ms[r.value].Some?
    ensures r.Some? ==> forall j :: i <= j < r.value ==> ms[j].None?
    ensures r.None? ==> forall j :: i <= j < |ms| ==> ms[j].None?
    decreases |ms| - i
  {
    if ms[i].Some? then Some(i)
    else if i == |ms| - 1 then None
    else FirstFrom(ms, i + 1)
  }

  /** `re.search(p, t).group(1)`, or None when nothing matches. */
  function Search(p: Pattern, t: string): (r: Option<string>)
    ensures r.None? <==> forall j :: 0 <= j <= |t| ==> MatchAt(p, t, j).None?
    ensures r.Some? ==> exists k :: 0 <= k <= |t| && MatchAt(p, t, k).Some?
                          && (forall j :: 0 <= j < k ==> MatchAt(p, t, j).None?)
                          && r.value == Group(t, MatchAt(p, t, k).value)
  {
    var ms := Matches(p, t);
    match FirstFrom(ms, 0)
    case None => None
    case Some(k) => Some(Group(t, ms[k].value))
  }

  /**
   * The matches `re.findall` reports from position `i`: each one is the
   * leftmost match not before the end of the previous one.
   */
  function ScanFrom(ms: seq<Option<Hit>>, t: string, i: nat): (hits: seq<Hit>)
    requires Placed(ms, t) && i <= |t|
    ensures forall k :: 0 <= k < |hits| ==>
              i <= hits[k].begin && WellPlaced(t, hits[k].begin, hits[k]) && ms[hits[k].begin] == Some(hits[k])
    decreases |t| - i
  {
    match ms[i]
    case Some(h) => [h] + ScanFrom(ms, t, h.end)
    case None => if i == |t| then [] else ScanFrom(ms, t, i + 1)
  }

  /**
   * The last match `re.findall(p, t)` reports (its group is the list's last
   * element), or None when the list is empty.
   */
  function LastHit(p: Pattern, t: string): (r: Option<Hit>)
    ensures r.Some? ==> WellPlaced(t, r.value.begin, r.value)
    ensures r.Some? ==> MatchAt(p, t, r.value.begin) == Some(r.value)
  {
    var hits := ScanFrom(Matches(p, t), t, 0);
    if hits == [] then None else Some(hits[|hits| - 1])
  }

  /**
   * Wherever a match could begin at or after `i`, the scan from `i` reports
   * some match, and its last match ends beyond that position: a match that
   * ends before a later one begins is never the last.
   */
  lemma {:induction false} ScanLastCovers(ms: seq<Option<Hit>>, t: string, i: nat, j: nat)
    requires Placed(ms, t) && i <= j <= |t| && ms[j].Some?
    ensures ScanFrom(ms, t, i) != []
    ensures ScanFrom(ms, t, i)[|ScanFrom(ms, t, i)| - 1].end > j
    decreases |t| - i
  {
    var hits := ScanFrom(ms, t, i);
    match ms[i]
    case Some(h) =>
      assert hits == [h] + ScanFrom(ms, t, h.end);
      if h.end <= j {
        ScanLastCovers(ms, t, h.end, j);
      } else if ScanFrom(ms, t, h.end) != [] {
        var rest := ScanFrom(ms, t, h.end);
        assert hits[|hits| - 1] == rest[|rest| - 1];
      }
    case None =>
      ScanLastCovers(ms, t, i + 1, j);
  }

  /** Where no match begins from `i` on, the scan reports nothing. */
  lemma {:induction false} ScanNone(ms: seq<Option<Hit>>, t: string, i: nat)
    requires Placed(ms, t) && i <= |t|
    requires forall j :: i <= j <= |t| ==> ms[j].None?
    ensures ScanFrom(ms, t, i) == []
    decreases |t| - i
  {
    if i < |t| {
      ScanNone(ms, t, i + 1);
    }
  }

  /**
   * `re.findall` reports a last match exactly when the pattern matches
   * somewhere, and that last match ends after every position where a match
   * could begin: a later restatement overrides an earlier one.
   */
  lemma LastHitCovers(p: Pattern, t: string, j: nat)
    requires j <= |t| && MatchAt(p, t, j).Some?
    ensures LastHit(p, t).Some? && LastHit(p, t).value.end > j
  {
    var ms := Matches(p, t);
    assert ms[j].Some?;
    ScanLastCovers(ms, t, 0, j);
    var hits := ScanFrom(ms, t, 0);
    assert LastHit(p, t) == Some(hits[|hits| - 1]);
  }

  lemma LastHitNone(p: Pattern, t: string)
    requires forall j :: 0 <= j <= |t| ==> MatchAt(p, t, j).None?
    ensures LastHit(p, t).None?
  {
    ScanNone(Matches(p, t), t, 0);
  }

  /**
   * A line-item row split into its four groups: description, quantity,
   * unit price and amount.
   */
  datatype LineItemGroups = LineItemGroups(description: string, quantity: string, unitPrice: string, amount: string)

  /**
   * Where the groups of a row lie: the description is `line[..descEnd]`,
   * each other group is the span between its start and end.
   */
  datatype RowSpans = RowSpans(descEnd: nat, quantityStart: nat, quantityEnd: nat,
                               priceStart: nat, priceEnd: nat, amountStart: nat, amountEnd: nat)

  /** The spans follow one another, each non-empty, inside the line. */
  predicate RowPlaced(line: string, sp: RowSpans) {
    0 < sp.descEnd < sp.quantityStart < sp.quantityEnd < sp.priceStart < sp.priceEnd
      < sp.amountStart < sp.amountEnd <= |line|
  }

  /** The four groups the spans select. */
  function Groups(line: string, sp: RowSpans): LineItemGroups
    requires RowPlaced(line, sp)
  {
    LineItemGroups(line[..sp.descEnd], line[sp.quantityStart..sp.quantityEnd],
                   line[sp.priceStart..sp.priceEnd], line[sp.amountStart..sp.amountEnd])
  }

  /** `\d+(?:\.\d+)?` at `a`: its end. */
  function QuantityEnd(t: string, a: nat): (b: nat)
    requires a < |t| && IsDigit(t[a])
    ensures a < b <= |t|
  {
    var b := SkipWhile(t, a, IsDigit);
    if b + 1 < |t| && t[b] == '.' && IsDigit(t[b + 1]) then SkipWhile(t, b + 1, IsDigit) else b
  }

  /**
   * With the description taken as `line[..d]`, the rest of the row: whitespace,
   * quantity, whitespace, unit price, whitespace, amount, end of line.
   */
  function LineItemTail(line: string, d: nat): (r: Option<RowSpans>)
    requires 0 < d <= |line|
    ensures r.Some? ==> RowPlaced(line, r.value) && r.value.descEnd == d
  {
    if !(d < |line| && IsSpace(line[d])) then None
    else
      var a := SkipSpaces(line, d);
      if !(a < |line| && IsDigit(line[a])) then None
      else
        var b := QuantityEnd(line, a);
        if !(b < |line| && IsSpace(line[b])) then None
        else
          var c := SkipSpaces(line, b);
          match AmountAt(line, c)
          case None => None
          case Some(e) =>
            if !(e < |line| && IsSpace(line[e])) then None
            else
              var f := SkipSpaces(line, e);
              match AmountAt(line, f)
              case None => None
              case Some(g) =>
                if AtEnd(line, g) then Some(RowSpans(d, a, b, c, e, f, g)) else None
  }

  /**
   * The lazy description `.+?` grows one character at a time from `d` until
   * the rest of the row matches; it cannot take in a newline.
   */
  function LineItemFrom(line: string, d: nat): (r: Option<RowSpans>)
    requires 0 < d <= |line|
    ensures r.Some? ==> RowPlaced(line, r.value) && d <= r.value.descEnd
    decreases |line| - d
  {
    if line[d - 1] == '\n' then None
    else
      match LineItemTail(line, d)
      case Some(sp) => Some(sp)
      case None => if d == |line| then None else LineItemFrom(line, d + 1)
  }

  /** The line-item pattern anchored at the start of `line`. */
  function MatchLineItem(line: string): (r: Option<LineItemGroups>)
    ensures r.Some? ==> 0 < |r.value.description| <= |line| && r.value.description == line[..|r.value.description|]
  {
    if line == [] then None
    else
      match LineItemFrom(line, 1)
      case None => None
      case Some(sp) => Some(Groups(line, sp))
  }

  /** A row found by the search from `d` is the one the rest of the row gives after its description. */
  lemma {:induction false} LineItemFromFound(line: string, d: nat)
    requires 0 < d <= |line|
    ensures var r := LineItemFrom(line, d);
      r.Some? ==> LineItemTail(line, r.value.descEnd) == r
    decreases |line| - d
  {
    if line[d - 1] != '\n' && LineItemTail(line, d).None? && d < |line| {
      LineItemFromFound(line, d + 1);
    }
  }

  /** A row found by the search from `d` has its description end before the first newline from d - 1 on. */
  lemma {:induction false} LineItemFromNoNewline(line: string, d: nat)
    requires 0 < d <= |line|
    ensures var r := LineItemFrom(line, d);
      r.Some? ==> r.value.descEnd <= SkipWhile(line, d - 1, NotNewline)
    decreases |line| - d
  {
    if line[d - 1] != '\n' && LineItemTail(line, d).None? && d < |line| {
      assert SkipWhile(line, d - 1, NotNewline) == SkipWhile(line, d, NotNewline);
      LineItemFromNoNewline(line, d + 1);
    }
  }

  /** No shorter description of at least `d` characters lets the rest of the row match. */
  lemma {:induction false} LineItemFromFirst(line: string, d: nat)
    requires 0 < d <= |line|
    ensures var r := LineItemFrom(line, d);
      r.Some? ==> forall e :: d <= e < r.value.descEnd ==> LineItemTail(line, e).None?
    decreases |line| - d
  {
    if line[d - 1] != '\n' && LineItemTail(line, d).None? && d < |line| {
      LineItemFromFirst(line, d + 1);
    }
  }

  /** The search fails only when no description from `d` on, ending before a newline, works. */
  lemma {:induction false} LineItemFromNone(line: string, d: nat)
    requires 0 < d <= |line|
    ensures LineItemFrom(line, d).None? ==>
      forall e :: d <= e <= SkipWhile(line, d - 1, NotNewline) ==> LineItemTail(line, e).None?
    decreases |line| - d
  {
    if line[d - 1] != '\n' && LineItemTail(line, d).None? && d < |line| {
      assert SkipWhile(line, d - 1, NotNewline) == SkipWhile(line, d, NotNewline);
      LineItemFromNone(line, d + 1);
    }
  }

  /**
   * The lazy `.+?`: a matched row's description is the shortest one, ending
   * before the first newline, after which the rest of the row matches, and
   * the groups are the ones that rest gives; no match means no description
   * ending before the first newline works.
   */
  lemma MatchLineItemShortest(line: string)
    ensures var r := MatchLineItem(line);
      && (r.Some? ==> var n := |r.value.description|;
            n <= SkipWhile(line, 0, NotNewline) && LineItemTail(line, n).Some?
            && Groups(line, LineItemTail(line, n).value) == r.value
            && forall e :: 0 < e < n ==> LineItemTail(line, e).None?)
      && (r.None? ==> forall e :: 0 < e <= SkipWhile(line, 0, NotNewline) ==> LineItemTail(line, e).None?)
  {
    if line != [] {
      LineItemFromFound(line, 1);
      LineItemFromNoNewline(line, 1);
      LineItemFromFirst(line, 1);
      LineItemFromNone(line, 1);
    }
  }

  /** A run of characters satisfying `p` from `i` that stops at `j` is what SkipWhile skips. */
  lemma SkipWhileRun(t: string, i: nat, j: nat, p: char -> bool)
    requires i <= j <= |t| && (forall k :: i <= k < j ==> p(t[k])) && (j < |t| ==> !p(t[j]))
    ensures SkipWhile(t, i, p) == j
  {
  }

  /** Digits from `q` up to a point at `m`, then two digits: a money token ending at m + 3. */
  lemma AmountAtRun(t: string, q: nat, m: nat)
    requires q < m && m + 3 <= |t| && (forall k :: q <= k < m ==> IsDigit(t[k]))
    requires t[m] == '.' && IsDigit(t[m + 1]) && IsDigit(t[m + 2])
    ensures PlainAmountAt(t, q, m) && AmountAt(t, q) == Some(m + 3)
  {
    SkipWhileRun(t, q, q, IsSpace);
    SkipWhileRun(t, q + 1, m, IsDigitOrComma);
  }

  /** A space, a whole quantity from d + 1 to `b`, a space, then a digit. */
  lemma QuantityRun(line: string, d: nat, b: nat)
    requires d + 1 < b && b + 1 < |line| && line[d] == ' ' && line[b] == ' ' && IsDigit(line[b + 1])
    requires forall k :: d + 1 <= k < b ==> IsDigit(line[k])
    ensures SkipSpaces(line, d) == d + 1 && SkipWhile(line, d + 1, IsDigit) == b
    ensures QuantityEnd(line, d + 1) == b && SkipSpaces(line, b) == b + 1
  {
    SkipWhileRun(line, d, d + 1, IsSpace);
    SkipWhileRun(line, d + 1, b, IsDigit);
    SkipWhileRun(line, b, b + 1, IsSpace);
  }

  /** A plain price from b + 1 to `e`, a space, and a plain amount up to the end. */
  lemma PricesRun(line: string, b: nat, e: nat)
    requires b + 5 <= e && e + 5 <= |line| && line[e] == ' '
    requires forall k :: b + 1 <= k < e - 3 ==> IsDigit(line[k])
    requires line[e - 3] == '.' && IsDigit(line[e - 2]) && IsDigit(line[e - 1])
    requires forall k :: e + 1 <= k < |line| - 3 ==> IsDigit(line[k])
    requires line[|line| - 3] == '.' && IsDigit(line[|line| - 2]) && IsDigit(line[|line| - 1])
    ensures PlainAmountAt(line, b + 1, e - 3) && SkipSpaces(line, e) == e + 1
    ensures PlainAmountAt(line, e + 1, |line| - 3)
  {
    AmountAtRun(line, b + 1, e - 3);
    SkipWhileRun(line, e, e + 1, IsSpace);
    AmountAtRun(line, e + 1, |line| - 3);
  }

  /** What AmountAt reads of a plain token from `q` with its point at `m`. */
  predicate PlainAmountAt(t: string, q: nat, m: nat) {
    q < m && m + 3 <= |t| && IsDigit(t[q]) && !IsCurrencySymbol(t[q]) && SkipSpaces(t, q) == q
    && SkipWhile(t, q + 1, IsDigitOrComma) == m && t[m] == '.' && IsDigit(t[m + 1]) && IsDigit(t[m + 2])
  }

  /**
   * When a space follows a description of `d` characters, the quantity runs
   * from d + 1 to `b`, and a price from b + 1 to `e` and an amount from
   * e + 1 to the end follow, each after one space, the rest of the row has
   * those spans.
   */
  lemma RowTailAt(line: string, d: nat, b: nat, e: nat)
    requires 0 < d && d + 1 < b && b + 1 < e < |line|
    requires IsSpace(line[d]) && IsDigit(line[d + 1]) && IsSpace(line[b]) && IsSpace(line[e])
    requires SkipSpaces(line, d) == d + 1 && SkipWhile(line, d + 1, IsDigit) == b && line[b] == ' '
    requires QuantityEnd(line, d + 1) == b && SkipSpaces(line, b) == b + 1
    requires PlainAmountAt(line, b + 1, e - 3) && SkipSpaces(line, e) == e + 1
    requires PlainAmountAt(line, e + 1, |line| - 3)
    requires !IsSpace(line[d + 1]) && !IsSpace(line[b + 1]) && !IsSpace(line[e + 1]) && !IsDigit(line[b])
    ensures LineItemTail(line, d) == Some(RowSpans(d, d + 1, b, b + 1, e, e + 1, |line|))
  {
    assert AmountAt(line, b + 1) == Some(e);
    assert AmountAt(line, e + 1) == Some(|line|);
  }

  /** Where no space follows a description of `d` characters, the search moves on to d + 1. */
  lemma LineItemFromSkips(line: string, d: nat)
    requires 0 < d < |line| && !IsSpace(line[d]) && line[d - 1] != '\n'
    ensures LineItemFrom(line, d) == LineItemFrom(line, d + 1)
  {
    assert LineItemTail(line, d).None?;
  }

  /** The search passes over descriptions that no space follows. */
  lemma {:induction false} LineItemFromSkipsTo(line: string, d: nat, n: nat)
    requires 0 < d <= n < |line|
    requires forall k :: d <= k < n ==> !IsSpace(line[k])
    requires forall k :: d - 1 <= k < n - 1 ==> line[k] != '\n'
    ensures LineItemFrom(line, d) == LineItemFrom(line, n)
    decreases n - d
  {
    if d < n {
      LineItemFromSkips(line, d);
      LineItemFromSkipsTo(line, d + 1, n);
    }
  }

  /** The layout of a plain row: see PlainRow. */
  predicate PlainRowShape(line: string, d: nat, b: nat, e: nat) {
    && 0 < d && d + 1 < b && b + 5 <= e && e + 5 <= |line|
    && (forall k :: 0 < k < d ==> !IsSpace(line[k]))
    && (forall k :: 0 <= k < d ==> line[k] != '\n')
    && line[d] == ' ' && line[b] == ' ' && line[e] == ' '
    && (forall k :: d + 1 <= k < b ==> IsDigit(line[k]))
    && (forall k :: b + 1 <= k < e - 3 ==> IsDigit(line[k]))
    && line[e - 3] == '.' && IsDigit(line[e - 2]) && IsDigit(line[e - 1])
    && (forall k :: e + 1 <= k < |line| - 3 ==> IsDigit(line[k]))
    && line[|line| - 3] == '.' && IsDigit(line[|line| - 2]) && IsDigit(line[|line| - 1])
  }

  /** In a plain row the rest of the row after the description has the expected spans. */
  lemma PlainRowTail(line: string, d: nat, b: nat, e: nat)
    requires PlainRowShape(line, d, b, e)
    ensures LineItemTail(line, d) == Some(RowSpans(d, d + 1, b, b + 1, e, e + 1, |line|))
  {
    QuantityRun(line, d, b);
    PricesRun(line, b, e);
    RowTailAt(line, d, b, e);
  }

  /**
   * A plain row is recognised: a description without spaces or newlines, a
   * space, a whole quantity, a space, a price with two decimals, a space and
   * an amount with two decimals give those four groups.
   */
  lemma PlainRow(line: string, d: nat, b: nat, e: nat)
    requires PlainRowShape(line, d, b, e)
    ensures MatchLineItem(line) == Some(Groups(line, RowSpans(d, d + 1, b, b + 1, e, e + 1, |line|)))
  {
    LineItemFromSkipsTo(line, 1, d);
    PlainRowTail(line, d, b, e);
  }

  lemma WidgetRowShape(line: string)
    requires line == "Widget 2 10.00 20.00"
    ensures PlainRowShape(line, 6, 8, 14)
  {
  }

  lemma WidgetRowGroups(line: string)
    requires line == "Widget 2 10.00 20.00"
    ensures Groups(line, RowSpans(6, 7, 8, 9, 14, 15, 20)) == LineItemGroups("Widget", "2", "10.00", "20.00")
  {
    assert line[..6] == "Widget" && line[7..8] == "2" && line[9..14] == "10.00" && line[15..20] == "20.00";
  }

  /** "Widget 2 10.00 20.00" reads as description Widget, quantity 2, price 10.00, amount 20.00. */
  lemma WidgetRow(line: string)
    requires line == "Widget 2 10.00 20.00"
    ensures MatchLineItem(line) == Some(LineItemGroups("Widget", "2", "10.00", "20.00"))
  {
    WidgetRowShape(line);
    PlainRow(line, 6, 8, 14);
    WidgetRowGroups(line);
  }
}
