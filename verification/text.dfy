/**
 * The string primitives the extractor relies on, with Python's meaning:
 * what counts as whitespace (str.isspace, which is also what `\s` matches
 * in a str pattern), str.strip, str.lstrip with a character set,
 * str.replace of one character by nothing, and str.splitlines.
 */
module Text {

  /** Python's str.isspace() for one character: the Unicode whitespace set. */
  predicate IsSpace(c: char) {
    var n := c as int;
    (0x09 <= n <= 0x0D) || (0x1C <= n <= 0x20) || n == 0x85 || n == 0xA0 || n == 0x1680
    || (0x2000 <= n <= 0x200A) || n == 0x2028 || n == 0x2029 || n == 0x202F
    || n == 0x205F || n == 0x3000
  }

  /** The characters at which str.splitlines() breaks a line. */
  predicate IsLineBreak(c: char) {
    var n := c as int;
    (0x0A <= n <= 0x0D) || (0x1C <= n <= 0x1E) || n == 0x85 || n == 0x2028 || n == 0x2029
  }

  predicate IsDigit(c: char) { '0' <= c <= '9' }

  predicate IsAsciiLetter(c: char) { 'a' <= c <= 'z' || 'A' <= c <= 'Z' }

  /** ASCII lower-casing, the part of str.lower() this model keeps. */
  function LowerChar(c: char): (d: char)
    ensures 'A' <= c <= 'Z' ==> 'a' <= d <= 'z'
    ensures !('A' <= c <= 'Z') ==> d == c
  {
    if 'A' <= c <= 'Z' then (c as int + 32) as char else c
  }

  function Lower(s: string): (r: string)
    ensures |r| == |s|
    ensures forall k :: 0 <= k < |s| ==> r[k] == LowerChar(s[k])
  {
    if s == [] then [] else [LowerChar(s[0])] + Lower(s[1..])
  }

  /** Drops the longest prefix whose characters all satisfy `p`. */
  function DropWhile(s: string, p: char -> bool): (r: string)
    ensures |r| <= |s| && r == s[|s| - |r|..]
    ensures forall k :: 0 <= k < |s| - |r| ==> p(s[k])
    ensures r != [] ==> !p(r[0])
  {
    if s != [] && p(s[0]) then DropWhile(s[1..], p) else s
  }

  /** Drops the longest suffix whose characters all satisfy `p`. */
  function DropLastWhile(s: string, p: char -> bool): (r: string)
    ensures |r| <= |s| && r == s[..|r|]
    ensures forall k :: |r| <= k < |s| ==> p(s[k])
    ensures r != [] ==> !p(r[|r| - 1])
  {
    if s != [] && p(s[|s| - 1]) then DropLastWhile(s[..|s| - 1], p) else s
  }

  /** Python's str.strip(): whitespace removed at both ends. */
  function Strip(s: string): (r: string)
    ensures |r| <= |s|
    ensures r != [] ==> !IsSpace(r[0]) && !IsSpace(r[|r| - 1])
    ensures r == [] <==> Blank(s)
  {
    DropLastWhile(DropWhile(s, IsSpace), IsSpace)
  }

  lemma {:induction false} StripOfTrimmed(s: string)
    requires s != [] && !IsSpace(s[0]) && !IsSpace(s[|s| - 1])
    ensures Strip(s) == s
  {
  }

  /** Stripping twice is stripping once. */
  lemma StripIdempotent(s: string)
    ensures Strip(Strip(s)) == Strip(s)
  {
    if Strip(s) != [] {
      StripOfTrimmed(Strip(s));
    }
  }

  /** The prefix dropped is exactly the run before the first character failing `p`. */
  lemma {:induction false} DropWhileAt(s: string, p: char -> bool, n: nat)
    requires n <= |s| && (forall k :: 0 <= k < n ==> p(s[k])) && (n < |s| ==> !p(s[n]))
    ensures DropWhile(s, p) == s[n..]
    decreases n
  {
    if n > 0 {
      assert p(s[0]);
      assert forall k :: 0 <= k < n - 1 ==> s[1..][k] == s[k + 1];
      DropWhileAt(s[1..], p, n - 1);
      assert s[1..][n - 1..] == s[n..];
    }
  }

  /** Leading whitespace in front of an already trimmed text is all that strip() removes. */
  lemma StripBlankPrefix(a: string, s: string)
    requires Blank(a) && s != [] && !IsSpace(s[0]) && !IsSpace(s[|s| - 1])
    ensures Strip(a + s) == s
  {
    DropWhileAt(a + s, IsSpace, |a|);
    assert (a + s)[|a|..] == s;
  }

  /** Python's slice s[:n]: at most the first `n` elements. */
  function Take<T>(s: seq<T>, n: nat): (r: seq<T>)
    ensures |r| == if |s| <= n then |s| else n
    ensures r == s[..|r|]
  {
    if |s| <= n then s else s[..n]
  }

  /** Python's s.replace(c, ""): every occurrence of `c` removed, the rest kept in order. */
  function Remove(s: string, c: char): (r: string)
    ensures |r| <= |s|
    ensures c !in r
  {
    if s == [] then []
    else if s[0] == c then Remove(s[1..], c)
    else [s[0]] + Remove(s[1..], c)
  }

  lemma {:induction false} RemoveAppend(a: string, b: string, c: char)
    ensures Remove(a + b, c) == Remove(a, c) + Remove(b, c)
  {
    if a == [] {
      assert a + b == b;
    } else {
      assert (a + b)[0] == a[0] && (a + b)[1..] == a[1..] + b;
      RemoveAppend(a[1..], b, c);
      if a[0] != c {
        Associate([a[0]], Remove(a[1..], c), Remove(b, c));
      }
    }
  }

  lemma {:induction false} RemoveAbsent(s: string, c: char)
    requires c !in s
    ensures Remove(s, c) == s
  {
    if s != [] {
      RemoveAbsent(s[1..], c);
    }
  }

  lemma Associate(a: string, b: string, c: string)
    ensures a + b + c == a + (b + c)
  {
  }

  lemma Regroup(a: string, b: string, c: string, d: string)
    ensures a + (b + c + d) == a + b + c + d
  {
  }

  /** Removing the one `c` between two strings without `c` joins them. */
  lemma RemoveBetween(a: string, b: string, c: char)
    requires c !in a && c !in b
    ensures Remove(a + [c] + b, c) == a + b
  {
    RemoveAppend(a + [c], b, c);
    RemoveAppend(a, [c], c);
    RemoveAbsent(a, c);
    RemoveAbsent(b, c);
    assert Remove([c], c) == [];
    assert a + [] == a;
  }

  /** Stripping a trimmed text and removing its one `c` joins the two sides. */
  lemma StripRemove(a: string, b: string, c: char)
    requires c !in a && c !in b && a != [] && b != [] && !IsSpace(a[0]) && !IsSpace(b[|b| - 1])
    ensures Remove(Strip(a + [c] + b), c) == a + b
  {
    var v := a + [c] + b;
    assert v[0] == a[0] && v[|v| - 1] == b[|b| - 1];
    StripOfTrimmed(v);
    RemoveBetween(a, b, c);
  }

  /** Removal only drops characters: every character left was in the input. */
  lemma {:induction false} RemoveKeeps(s: string, c: char, x: char)
    requires x in Remove(s, c)
    ensures x in s
  {
    if s != [] {
      var head := if s[0] == c then [] else [s[0]];
      if x !in head {
        RemoveKeeps(s[1..], c, x);
      }
    }
  }

  /** Stripping only drops characters at the ends. */
  lemma StripKeeps(s: string, x: char)
    requires x in Strip(s)
    ensures x in s
  {
    var d := DropWhile(s, IsSpace);
    var r := DropLastWhile(d, IsSpace);
    assert r == Strip(s);
    var k :| 0 <= k < |r| && r[k] == x;
    assert r[k] == d[k];
    assert d[k] == s[|s| - |d| + k];
  }

  /** Index of the first line break in `s`, or |s| when there is none. */
  function LineBreakIndex(s: string): (k: nat)
    ensures k <= |s|
    ensures forall j :: 0 <= j < k ==> !IsLineBreak(s[j])
    ensures k < |s| ==> IsLineBreak(s[k])
  {
    if s == [] || IsLineBreak(s[0]) then 0 else 1 + LineBreakIndex(s[1..])
  }

  /**
   * Python's str.splitlines(): the text between line breaks, where "\r\n"
   * is one break and a break at the very end does not open an empty line.
   */
  function SplitLines(s: string): (lines: seq<string>)
    decreases |s|
  {
    if s == [] then []
    else
      var k := LineBreakIndex(s);
      if k == |s| then [s]
      else
        [s[..k]] + SplitLines(s[NextLineStart(s, k)..])
  }

  /** Every character is whitespace (an empty string is blank). */
  predicate Blank(s: string) {
    forall k :: 0 <= k < |s| ==> IsSpace(s[k])
  }

  /** Every line is blank. */
  predicate AllBlank(lines: seq<string>) {
    lines == [] || (Blank(lines[0]) && AllBlank(lines[1..]))
  }

  lemma BlankAppend(a: string, b: string)
    ensures Blank(a + b) <==> Blank(a) && Blank(b)
  {
    if Blank(a) && Blank(b) {
      forall k | 0 <= k < |a + b| ensures IsSpace((a + b)[k]) {
        if k >= |a| { assert (a + b)[k] == b[k - |a|]; }
      }
    }
    if Blank(a + b) {
      forall k | 0 <= k < |a| ensures IsSpace(a[k]) { assert (a + b)[k] == a[k]; }
      forall k | 0 <= k < |b| ensures IsSpace(b[k]) { assert (a + b)[|a| + k] == b[k]; }
    }
  }

  lemma LineBreakIsSpace(c: char)
    requires IsLineBreak(c)
    ensures IsSpace(c)
  {
  }

  lemma AllBlankCons(x: string, lines: seq<string>)
    ensures AllBlank([x] + lines) <==> Blank(x) && AllBlank(lines)
  {
    assert ([x] + lines)[1..] == lines;
  }

  /** Index just past the line break at `k` ("\r\n" is one break). */
  function NextLineStart(s: string, k: nat): (next: nat)
    requires k < |s|
    ensures k < next <= |s|
  {
    if s[k] == '\r' && k + 1 < |s| && s[k + 1] == '\n' then k + 2 else k + 1
  }

  lemma BlankAroundBreak(s: string, k: nat)
    requires k < |s| && IsLineBreak(s[k])
    ensures Blank(s) <==> Blank(s[..k]) && Blank(s[NextLineStart(s, k)..])
  {
    var next := NextLineStart(s, k);
    assert Blank(s[k..next]) by {
      LineBreakIsSpace(s[k]);
      forall j | k <= j < next ensures IsSpace(s[j]) {
        if j > k { assert s[j] == '\n'; }
      }
    }
    assert s == s[..k] + s[k..next] + s[next..];
    BlankAppend(s[..k], s[k..next]);
    BlankAppend(s[..k] + s[k..next], s[next..]);
  }

  /**
   * A text has a line that is not blank exactly when it has a character
   * that is not whitespace: every line break is itself whitespace.
   */
  lemma {:induction false} SplitLinesAllBlank(s: string)
    ensures AllBlank(SplitLines(s)) <==> Blank(s)
    decreases |s|
  {
    if s != [] {
      var k := LineBreakIndex(s);
      if k < |s| {
        var rest := s[NextLineStart(s, k)..];
        SplitLinesAllBlank(rest);
        assert SplitLines(s) == [s[..k]] + SplitLines(rest);
        AllBlankCons(s[..k], SplitLines(rest));
        BlankAroundBreak(s, k);
      } else {
        assert SplitLines(s) == [s] + [];
        AllBlankCons(s, []);
      }
    }
  }

}
