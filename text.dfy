/** The string operations the parser and the categoriser use: Python's `str.strip()`,
    `str.lower()` (on ASCII letters), `kw in s`, `str.replace`, and the decimal numerals that
    `re.match(r'^\d+\.?\d*$', s)` accepts together with the value `float(s)` gives them. */
module Text {

  /** Python's `str.isspace()`, which is also what `\s` matches in a `str` pattern. */
  predicate IsSpace(c: char) {
    c in {' ', '\t', '\n', '\r', '\U{0B}', '\U{0C}', '\U{1C}', '\U{1D}', '\U{1E}', '\U{1F}',
          '\U{85}', '\U{A0}', '\U{1680}', '\U{2028}', '\U{2029}', '\U{202F}', '\U{205F}', '\U{3000}'}
    || ('\U{2000}' <= c <= '\U{200A}')
  }

  /** What `\d` matches, restricted to ASCII digits. */
  predicate IsDigit(c: char) { '0' <= c <= '9' }

  function LStrip(s: string): (r: string)
    ensures |r| <= |s| && r == s[|s| - |r|..]
    ensures r == [] || !IsSpace(r[0])
    ensures forall k :: 0 <= k < |s| - |r| ==> IsSpace(s[k])
  {
    if s != [] && IsSpace(s[0]) then LStrip(s[1..]) else s
  }

  function RStrip(s: string): (r: string)
    ensures |r| <= |s| && r == s[..|r|]
    ensures r == [] || !IsSpace(r[|r| - 1])
    ensures forall k :: |r| <= k < |s| ==> IsSpace(s[k])
  {
    if s != [] && IsSpace(s[|s| - 1]) then RStrip(s[..|s| - 1]) else s
  }

  /** Python's `s.strip()`: removes the whitespace at both ends and nothing else. */
  function Strip(s: string): (r: string)
    ensures r == [] || (!IsSpace(r[0]) && !IsSpace(r[|r| - 1]))
  {
    RStrip(LStrip(s))
  }

  /** A string with no whitespace at either end is its own `strip()`. */
  lemma StripTrimmed(s: string)
    requires s == [] || (!IsSpace(s[0]) && !IsSpace(s[|s| - 1]))
    ensures Strip(s) == s
  {
  }

  lemma StripIdempotent(s: string)
    ensures Strip(Strip(s)) == Strip(s)
  {
    StripTrimmed(Strip(s));
  }

  function LowerChar(c: char): char {
    if 'A' <= c <= 'Z' then (c as int + 32) as char else c
  }

  predicate HasNoUpper(s: string) {
    forall k :: 0 <= k < |s| ==> !('A' <= s[k] <= 'Z')
  }

  /** Python's `s.lower()` on ASCII letters. */
  function Lower(s: string): (r: string)
    ensures |r| == |s| && HasNoUpper(r)
    ensures forall k :: 0 <= k < |s| ==> r[k] == LowerChar(s[k])
  {
    seq(|s|, k requires 0 <= k < |s| => LowerChar(s[k]))
  }

  lemma LowerOfLower(s: string)
    requires HasNoUpper(s)
    ensures Lower(s) == s
  {
  }

  predicate IsPrefix(p: string, s: string) {
    |p| <= |s| && s[..|p|] == p
  }

  /** Python's `needle in hay`. */
  predicate Contains(hay: string, needle: string)
    decreases |hay|
  {
    IsPrefix(needle, hay) || (hay != [] && Contains(hay[1..], needle))
  }

  /** A string that contains `needle` holds it at some position. */
  lemma {:induction false} ContainsAt(hay: string, needle: string)
    requires Contains(hay, needle)
    ensures exists p :: 0 <= p <= |hay| && IsPrefix(needle, hay[p..])
    decreases |hay|
  {
    if IsPrefix(needle, hay) {
      assert hay[0..] == hay;
    } else {
      ContainsAt(hay[1..], needle);
      var p :| 0 <= p <= |hay[1..]| && IsPrefix(needle, hay[1..][p..]);
      assert hay[1..][p..] == hay[p + 1..];
    }
  }

  /** A string contains every word that it holds at some position. */
  lemma {:induction false} ContainsHere(hay: string, needle: string, p: nat)
    requires p <= |hay| && IsPrefix(needle, hay[p..])
    ensures Contains(hay, needle)
    decreases p
  {
    if p > 0 {
      assert hay[1..][p - 1..] == hay[p..];
      ContainsHere(hay[1..], needle, p - 1);
    }
  }

  /** The characters `a` and `b` occur next to each other in `hay`, at position `j` or later. */
  predicate Adjacent(a: char, b: char, hay: string, j: nat)
    decreases |hay| - j
  {
    j + 1 < |hay| && ((hay[j] == a && hay[j + 1] == b) || Adjacent(a, b, hay, j + 1))
  }

  lemma {:induction false} AdjacentAt(a: char, b: char, hay: string, j: nat, k: nat)
    requires j <= k && k + 1 < |hay| && hay[k] == a && hay[k + 1] == b
    ensures Adjacent(a, b, hay, j)
    decreases k - j
  {
    if j < k {
      AdjacentAt(a, b, hay, j + 1, k);
    }
  }

  /** Evidence that a word does not occur in a string: the position of one of its characters that
      the string lacks, or of one of its adjacent pairs of characters that are never adjacent there. */
  datatype Absence = AbsentChar(k: nat) | AbsentPair(k: nat)

  predicate AbsentBy(w: string, hay: string, e: Absence) {
    match e
    case AbsentChar(k) => k < |w| && w[k] !in hay
    case AbsentPair(k) => k + 1 < |w| && !Adjacent(w[k], w[k + 1], hay, 0)
  }

  /** Such evidence is sound: the word is not in the string. */
  lemma Absent(w: string, hay: string, e: Absence)
    requires AbsentBy(w, hay, e)
    ensures !Contains(hay, w)
  {
    if Contains(hay, w) {
      ContainsAt(hay, w);
      var p :| 0 <= p <= |hay| && IsPrefix(w, hay[p..]);
      assert hay[p + e.k] == hay[p..][..|w|][e.k] == w[e.k];
      if e.AbsentPair? {
        assert hay[p + e.k + 1] == hay[p..][..|w|][e.k + 1] == w[e.k + 1];
        AdjacentAt(w[e.k], w[e.k + 1], hay, 0, p + e.k);
      }
      assert false;
    }
  }

  /** `s.replace(c, '')`. */
  function RemoveChar(s: string, c: char): (r: string)
    ensures c !in r
    ensures forall x :: x in r ==> x in s
  {
    if s == [] then [] else (if s[0] == c then [] else [s[0]]) + RemoveChar(s[1..], c)
  }

  lemma {:induction false} RemoveAbsent(s: string, c: char)
    requires c !in s
    ensures RemoveChar(s, c) == s
  {
    if s != [] {
      RemoveAbsent(s[1..], c);
      assert s == [s[0]] + s[1..];
    }
  }

  /** `s.replace(a, b)` for single characters. */
  function ReplaceChar(s: string, a: char, b: char): (r: string)
    ensures |r| == |s|
    ensures forall k :: 0 <= k < |s| ==> r[k] == (if s[k] == a then b else s[k])
  {
    seq(|s|, k requires 0 <= k < |s| => if s[k] == a then b else s[k])
  }

  predicate AllDigits(s: string) {
    forall k :: 0 <= k < |s| ==> IsDigit(s[k])
  }

  function LeadingDigits(s: string): (n: nat)
    ensures n <= |s| && AllDigits(s[..n])
    ensures n < |s| ==> !IsDigit(s[n])
  {
    if s != [] && IsDigit(s[0]) then
      var n := 1 + LeadingDigits(s[1..]);
      assert s[..n] == [s[0]] + s[1..][..n - 1];
      n
    else 0
  }

  /** `re.match(r'^\d+\.?\d*$', s)` for a string with no trailing line break: digits, then
      optionally a point followed by digits. */
  predicate IsDecimal(s: string) {
    var k := LeadingDigits(s);
    k >= 1 && (k == |s| || (s[k] == '.' && AllDigits(s[k + 1..])))
  }

  /** A decimal numeral is made of digits and at most one point, and starts with a digit. */
  lemma DecimalChars(s: string)
    requires IsDecimal(s)
    ensures forall i :: 0 <= i < |s| ==> IsDigit(s[i]) || s[i] == '.'
    ensures s != [] && IsDigit(s[0])
  {
    var k := LeadingDigits(s);
    assert IsDigit(s[..k][0]);
    forall i | 0 <= i < |s| ensures IsDigit(s[i]) || s[i] == '.' {
      if i < k {
        assert s[i] == s[..k][i];
      } else if i > k {
        assert s[i] == s[k + 1..][i - k - 1];
      }
    }
  }

  function DigitValue(c: char): nat
    requires IsDigit(c)
  {
    (c as int - '0' as int) as nat
  }

  /** The integer a string of digits denotes. */
  function DigitsValue(s: string): nat
    requires AllDigits(s)
    decreases |s|
  {
    if s == [] then 0 else DigitsValue(s[..|s| - 1]) * 10 + DigitValue(s[|s| - 1])
  }

  /** The value of the digits after a decimal point. */
  function FractionValue(s: string): (r: real)
    requires AllDigits(s)
    ensures 0.0 <= r <= 1.0
    decreases |s|
  {
    if s == [] then 0.0 else (DigitValue(s[0]) as real + FractionValue(s[1..])) / 10.0
  }

  /** `float(s)` on a decimal numeral, in exact arithmetic. */
  function DecimalValue(s: string): (r: real)
    requires IsDecimal(s)
    ensures r >= 0.0
  {
    var k := LeadingDigits(s);
    DigitsValue(s[..k]) as real + (if k == |s| then 0.0 else FractionValue(s[k + 1..]))
  }

  lemma ReplaceAbsent(s: string, a: char, b: char)
    requires a !in s
    ensures ReplaceChar(s, a, b) == s
  {
  }

  /** `x.replace('€', '').replace(',', '.').strip()`: the cleaning both the parser's candidate
      groups and its amount string go through. */
  function CleanAmount(s: string): string {
    Strip(ReplaceChar(RemoveChar(s, '\U{20AC}'), ',', '.'))
  }
}
