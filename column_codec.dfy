/**
 * Spreadsheet column labels: bijective base 26 over the letters A to Z,
 * with no zero digit (1 is "A", 26 is "Z", 27 is "AA").
 */
module ColumnCodec {

  /** Every character is an upper-case letter A to Z. */
  predicate IsLabel(s: string) {
    forall i :: 0 <= i < |s| ==> 'A' <= s[i] <= 'Z'
  }

  /**
   * `columnNumberToIndex`: the label of column `n`, and "" for any `n <= 0`.
   * The last letter is the digit `(n - 1) % 26`; the rest is the label of
   * `(n - 1) / 26` (JavaScript's `Math.floor` agrees with Dafny's division
   * here, since `n - 1` is never negative on that branch).
   */
  function ColumnNumberToIndex(n: int): (s: string)
    ensures s == [] <==> n <= 0
    ensures IsLabel(s)
    decreases n
  {
    if n <= 0 then ""
    else ColumnNumberToIndex((n - 1) / 26) + [(65 + (n - 1) % 26) as char]
  }

  /**
   * The inverse reading of a label: most significant letter first, each letter
   * worth its position in the alphabet (A is 1, Z is 26). The roster code never
   * needs it; it is the reference against which the encoder is checked.
   */
  function IndexToColumnNumber(s: string): (n: int)
    requires IsLabel(s)
    ensures n >= 0 && (n == 0 <==> s == [])
  {
    if s == [] then 0
    else IndexToColumnNumber(s[..|s| - 1]) * 26 + (s[|s| - 1] as int - 64)
  }

  /** Decoding the label of a positive column gives the column back. */
  lemma {:induction false} DecodeEncode(n: int)
    requires n >= 1
    ensures IndexToColumnNumber(ColumnNumberToIndex(n)) == n
  {
    var q, r := (n - 1) / 26, (n - 1) % 26;
    var s := ColumnNumberToIndex(n);
    assert s[..|s| - 1] == ColumnNumberToIndex(q);
    assert s[|s| - 1] as int == 65 + r;
    if q >= 1 {
      DecodeEncode(q);
    }
  }

  /** Encoding the value of a label gives the label back. */
  lemma {:induction false} EncodeDecode(s: string)
    requires IsLabel(s)
    ensures ColumnNumberToIndex(IndexToColumnNumber(s)) == s
  {
    if s != [] {
      var p, c := s[..|s| - 1], s[|s| - 1];
      var m := IndexToColumnNumber(p);
      var n := m * 26 + (c as int - 64);
      DivModUnique(n - 1, m, c as int - 65);
      EncodeDecode(p);
      assert s == p + [c];
    }
  }

  lemma DivModUnique(x: int, q: int, r: int)
    requires q >= 0 && 0 <= r < 26 && x == q * 26 + r
    ensures x / 26 == q && x % 26 == r
  {
  }

  /** Distinct positive columns have distinct labels. */
  lemma ColumnNumberToIndexInjective(m: int, n: int)
    requires m >= 1 && n >= 1
    requires ColumnNumberToIndex(m) == ColumnNumberToIndex(n)
    ensures m == n
  {
    DecodeEncode(m);
    DecodeEncode(n);
  }

  /**
   * Every non-empty label is the label of some positive column (of exactly one,
   * with ColumnNumberToIndexInjective).
   */
  lemma ColumnNumberToIndexOnto(s: string)
    requires IsLabel(s) && s != []
    ensures IndexToColumnNumber(s) >= 1 && ColumnNumberToIndex(IndexToColumnNumber(s)) == s
  {
    EncodeDecode(s);
  }

  /** The conventional spreadsheet labels around the first carries. */
  lemma ColumnNumberToIndexExamples()
    ensures ColumnNumberToIndex(1) == "A"
    ensures ColumnNumberToIndex(26) == "Z"
    ensures ColumnNumberToIndex(27) == "AA"
    ensures ColumnNumberToIndex(52) == "AZ"
    ensures ColumnNumberToIndex(53) == "BA"
    ensures ColumnNumberToIndex(702) == "ZZ"
    ensures ColumnNumberToIndex(703) == "AAA"
    ensures ColumnNumberToIndex(0) == "" && ColumnNumberToIndex(-5) == ""
  {
  }
}
