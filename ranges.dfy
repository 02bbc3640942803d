/** The A1-notation ranges the roster code asks the spreadsheet for. */
module Ranges {
  import opened Wrappers
  import opened Seqs
  import opened ColumnCodec

  /** The text before and after the first `sep` in `s`, when `sep` occurs. */
  function SplitAt(s: string, sep: char): (r: Option<(string, string)>)
    ensures r.None? <==> sep !in s
    ensures r.Some? ==> s == r.value.0 + [sep] + r.value.1 && sep !in r.value.0
  {
    match FindIndex(s, c => c == sep)
    case None => None
    case Some(i) =>
      assert s == s[..i] + [sep] + s[i + 1..];
      Some((s[..i], s[i + 1..]))
  }

  /** Splitting at the first separator recovers the parts it was joined from. */
  lemma SplitAtJoin(a: string, sep: char, b: string)
    requires sep !in a
    ensures SplitAt(a + [sep] + b, sep) == Some((a, b))
  {
    var s := a + [sep] + b;
    var p := (c: char) => c == sep;
    assert s[|a|] == sep;
    forall j | 0 <= j < |a| ensures !p(s[j]) {
      assert s[j] == a[j];
    }
    FindIndexUnique(s, p, |a|);
    assert s[..|a|] == a;
    assert s[|a| + 1..] == b;
  }

  /** A cell reference such as `J4`: its column and row numbers. */
  datatype CellRef = CellRef(column: int, row: int)

  /** A range such as `JUN!J4:K4`: the sheet and its two corner cells. */
  datatype A1Range = A1Range(sheet: string, from: CellRef, to: CellRef)

  predicate IsLetter(c: char) {
    'A' <= c <= 'Z'
  }

  /** The leading letters of a cell reference, and the rest. */
  function SplitLetters(ref: string): (r: (string, string))
    ensures r.0 + r.1 == ref && IsLabel(r.0)
  {
    match FindIndex(ref, c => !IsLetter(c))
    case None => (ref, "")
    case Some(i) =>
      assert ref == ref[..i] + ref[i..];
      (ref[..i], ref[i..])
  }

  lemma SplitLettersJoin(letters: string, digits: string)
    requires IsLabel(letters) && digits != [] && IsDigits(digits)
    ensures SplitLetters(letters + digits) == (letters, digits)
  {
    var s := letters + digits;
    assert !IsLetter(s[|letters|]);
    FindIndexUnique(s, c => !IsLetter(c), |letters|);
    assert s[..|letters|] == letters && s[|letters|..] == digits;
  }

  /** Reads a reference made of column letters followed by row digits. */
  function ParseRef(ref: string): Option<CellRef> {
    var (letters, digits) := SplitLetters(ref);
    if letters != [] && digits != [] && IsDigits(digits)
    then Some(CellRef(IndexToColumnNumber(letters), DecimalValue(digits)))
    else None
  }

  /** Reads `sheet!from:to` with two cell references. */
  function ParseRange(r: string): Option<A1Range> {
    match SplitAt(r, '!')
    case None => None
    case Some((sheet, area)) =>
      match SplitAt(area, ':')
      case None => None
      case Some((a, b)) =>
        match (ParseRef(a), ParseRef(b))
        case (Some(x), Some(y)) => Some(A1Range(sheet, x, y))
        case _ => None
  }

  /** A reference built from a column label and row digits reads back as that cell. */
  lemma ParseRefJoin(letters: string, digits: string)
    requires IsLabel(letters) && letters != [] && digits != [] && IsDigits(digits)
    ensures ParseRef(letters + digits) == Some(CellRef(IndexToColumnNumber(letters), DecimalValue(digits)))
  {
    SplitLettersJoin(letters, digits);
  }

  /** A range built from a sheet name without `!` and two references reads back as its parts. */
  lemma ParseRangeJoin(sheet: string, a: string, b: string)
    requires '!' !in sheet && ':' !in a
    ensures ParseRange(sheet + "!" + a + ":" + b) ==
      match (ParseRef(a), ParseRef(b))
      case (Some(x), Some(y)) => Some(A1Range(sheet, x, y))
      case _ => None
  {
    assert sheet + "!" + a + ":" + b == sheet + ['!'] + (a + ":" + b);
    SplitAtJoin(sheet, '!', a + ":" + b);
    assert a + ":" + b == a + [':'] + b;
    SplitAtJoin(a, ':', b);
  }

  /** The names column (all of column B) of the month's sheet. */
  function NameRange(month: string): string {
    month + "!B:B"
  }

  /** The header row (all of row 2) of the month's sheet, holding the day numbers. */
  function HeaderRange(month: string): string {
    month + "!2:2"
  }

  /** The names are read from the whole of column B of the month's sheet. */
  lemma NameRangeSheet(month: string)
    requires '!' !in month
    ensures SplitAt(NameRange(month), '!') == Some((month, "B:B"))
  {
    assert NameRange(month) == month + ['!'] + "B:B";
    SplitAtJoin(month, '!', "B:B");
  }

  /** The day numbers are read from the whole of row 2 of the month's sheet. */
  lemma HeaderRangeSheet(month: string)
    requires '!' !in month
    ensures SplitAt(HeaderRange(month), '!') == Some((month, "2:2"))
  {
    assert HeaderRange(month) == month + ['!'] + "2:2";
    SplitAtJoin(month, '!', "2:2");
  }

  /** The three blocks of the legend sheet, in the order they are read. */
  const LEGEND_RANGES: seq<string> := ["KEY!A2:B31", "KEY!A34:B48", "KEY!D2:E9"]

  /**
   * The legend blocks lie on the `KEY` sheet and are two columns wide, the
   * label column followed by the appearance column: rows 2-31 and 34-48 of
   * columns A-B, and rows 2-9 of columns D-E.
   */
  lemma LegendRangesBlocks()
    ensures ParseRange(LEGEND_RANGES[0]) == Some(A1Range("KEY", CellRef(1, 2), CellRef(2, 31)))
    ensures ParseRange(LEGEND_RANGES[1]) == Some(A1Range("KEY", CellRef(1, 34), CellRef(2, 48)))
    ensures ParseRange(LEGEND_RANGES[2]) == Some(A1Range("KEY", CellRef(4, 2), CellRef(5, 9)))
  {
    FirstLegendBlock();
    SecondLegendBlock();
    ThirdLegendBlock();
  }

  lemma FirstLegendBlock()
    ensures ParseRange("KEY!A2:B31") == Some(A1Range("KEY", CellRef(1, 2), CellRef(2, 31)))
  {
    LegendRangesSpelled();
    LegendColumns();
    LegendRows();
    ParseRangeOfRefs("KEY", "A", "2", "B", "31", CellRef(1, 2), CellRef(2, 31));
  }

  lemma SecondLegendBlock()
    ensures ParseRange("KEY!A34:B48") == Some(A1Range("KEY", CellRef(1, 34), CellRef(2, 48)))
  {
    LegendRangesSpelled();
    LegendColumns();
    LegendRows();
    ParseRangeOfRefs("KEY", "A", "34", "B", "48", CellRef(1, 34), CellRef(2, 48));
  }

  lemma ThirdLegendBlock()
    ensures ParseRange("KEY!D2:E9") == Some(A1Range("KEY", CellRef(4, 2), CellRef(5, 9)))
  {
    LegendRangesSpelled();
    LegendColumns();
    LegendRows();
    ParseRangeOfRefs("KEY", "D", "2", "E", "9", CellRef(4, 2), CellRef(5, 9));
  }

  lemma LegendRangesSpelled()
    ensures "KEY!A2:B31" == "KEY" + "!" + ("A" + "2") + ":" + ("B" + "31")
    ensures "KEY!A34:B48" == "KEY" + "!" + ("A" + "34") + ":" + ("B" + "48")
    ensures "KEY!D2:E9" == "KEY" + "!" + ("D" + "2") + ":" + ("E" + "9")
  {
  }

  lemma LegendColumns()
    ensures IndexToColumnNumber("A") == 1 && IndexToColumnNumber("B") == 2
    ensures IndexToColumnNumber("D") == 4 && IndexToColumnNumber("E") == 5
  {
  }

  lemma LegendRows()
    ensures DecimalValue("2") == 2 && DecimalValue("9") == 9 && DecimalValue("31") == 31
    ensures DecimalValue("34") == 34 && DecimalValue("48") == 48
  {
  }

  /** A range of two cells `<sheet>!<c1><r1>:<c2><r2>` reads back as those two cells. */
  lemma ParseRangeOfRefs(sheet: string, c1: string, r1: string, c2: string, r2: string, x: CellRef, y: CellRef)
    requires '!' !in sheet
    requires IsLabel(c1) && c1 != [] && IsLabel(c2) && c2 != []
    requires r1 != [] && IsDigits(r1) && r2 != [] && IsDigits(r2)
    requires x == CellRef(IndexToColumnNumber(c1), DecimalValue(r1))
    requires y == CellRef(IndexToColumnNumber(c2), DecimalValue(r2))
    ensures ParseRange(sheet + "!" + (c1 + r1) + ":" + (c2 + r2)) == Some(A1Range(sheet, x, y))
  {
    LabelHasNoColon(c1);
    DigitsHaveNoColon(r1);
    NoColonJoin(c1, r1);
    ParseRangeJoin(sheet, c1 + r1, c2 + r2);
    ParseRefJoin(c1, r1);
    ParseRefJoin(c2, r2);
  }

  lemma NoColonJoin(a: string, b: string)
    requires ':' !in a && ':' !in b
    ensures ':' !in a + b
  {
    forall i | 0 <= i < |a + b| ensures (a + b)[i] != ':' {
      if i < |a| { assert (a + b)[i] == a[i]; } else { assert (a + b)[i] == b[i - |a|]; }
    }
  }

  /** The decimal digits of `n`, as a template literal prints a non-negative integer. */
  function DecimalText(n: nat): (s: string)
    ensures s != [] && IsDigits(s)
  {
    if n < 10 then [('0' as int + n) as char]
    else DecimalText(n / 10) + [('0' as int + n % 10) as char]
  }

  predicate IsDigits(s: string) {
    forall i :: 0 <= i < |s| ==> '0' <= s[i] <= '9'
  }

  /** The value of a string of decimal digits. */
  function DecimalValue(s: string): (n: nat)
    requires IsDigits(s)
  {
    if s == [] then 0
    else DecimalValue(s[..|s| - 1]) * 10 + (s[|s| - 1] as int - '0' as int)
  }

  /** The printed row number reads back as the same number. */
  lemma {:induction false} DecimalRoundTrip(n: nat)
    ensures DecimalValue(DecimalText(n)) == n
  {
    var s := DecimalText(n);
    if n >= 10 {
      assert s[..|s| - 1] == DecimalText(n / 10);
      DecimalRoundTrip(n / 10);
    }
  }

  /**
   * A JavaScript row or column number that may be `null`. Both `null <= 0`
   * and `null + 1 == 1` hold in JavaScript, so `null` behaves as 0 in
   * `columnNumberToIndex(col)` and `columnNumberToIndex(col + 1)`.
   */
  function NumberOrZero(x: Option<nat>): nat {
    match x
    case None => 0
    case Some(v) => v
  }

  /**
   * The column letters of the AM slot (column `col`) and of the PM slot
   * (column `col + 1`) of one day.
   */
  function SlotColumns(col: Option<nat>): (r: (string, string))
    ensures IsLabel(r.0) && IsLabel(r.1)
    ensures col.Some? && col.value >= 1 ==>
      r.0 != [] && IndexToColumnNumber(r.0) == col.value && IndexToColumnNumber(r.1) == col.value + 1
    ensures col.None? ==> r == ("", "A")
    ensures r.1 != []
  {
    var c := NumberOrZero(col);
    var am, pm := ColumnNumberToIndex(c), ColumnNumberToIndex(c + 1);
    DecodeEncode(c + 1);
    if c >= 1 then DecodeEncode(c); (am, pm) else (am, pm)
  }

  /** How a template literal prints a possibly-`null` row number. */
  function RowText(row: Option<nat>): string {
    match row
    case None => "null"
    case Some(r) => DecimalText(r)
  }

  /**
   * `${month}!${colLetterAM}${row}:${colLetterPM}${row}`: the two cells of one
   * row that hold a person's AM and PM slots for one day.
   */
  function CellRange(month: string, row: Option<nat>, col: Option<nat>): string {
    var (am, pm) := SlotColumns(col);
    month + "!" + am + RowText(row) + ":" + pm + RowText(row)
  }

  /** Whatever the row and column, the range names the month's sheet. */
  lemma CellRangeSheet(month: string, row: Option<nat>, col: Option<nat>)
    requires '!' !in month
    ensures SplitAt(CellRange(month, row, col), '!').Some?
    ensures SplitAt(CellRange(month, row, col), '!').value.0 == month
  {
    var rest := SlotColumns(col).0 + RowText(row) + ":" + SlotColumns(col).1 + RowText(row);
    CellRangeParts(month, row, col, SlotColumns(col).0, SlotColumns(col).1, RowText(row));
    SplitAtJoin(month, '!', rest);
  }

  /** CellRange spelled out from its letters and its row text. */
  lemma CellRangeParts(month: string, row: Option<nat>, col: Option<nat>, am: string, pm: string, rowText: string)
    requires SlotColumns(col) == (am, pm) && RowText(row) == rowText
    ensures CellRange(month, row, col) == month + "!" + am + rowText + ":" + pm + rowText
    ensures CellRange(month, row, col) == month + ['!'] + (am + rowText + ":" + pm + rowText)
  {
    var x := am + rowText;
    var y := x + ":" + pm;
    AppendAssoc(month + "!", am, rowText);
    AppendAssoc(month + "!", x, ":");
    AppendAssoc(month + "!", x + ":", pm);
    AppendAssoc(month + "!", y, rowText);
  }

  lemma AppendAssoc(a: string, b: string, c: string)
    ensures a + b + c == a + (b + c)
  {
  }

  /**
   * With the person's row and the day's column found, the range spans exactly
   * the AM cell (col, row) and the PM cell (col + 1, row) of the month's sheet.
   */
  lemma CellRangeCells(month: string, row: nat, col: nat)
    requires '!' !in month && col >= 1
    ensures ParseRange(CellRange(month, Some(row), Some(col))) ==
      Some(A1Range(month, CellRef(col, row), CellRef(col + 1, row)))
  {
    var am := SlotColumns(Some(col)).0;
    var pm := SlotColumns(Some(col)).1;
    var digits := DecimalText(row);
    CellRangeSpelled(month, row, col);
    DecimalRoundTrip(row);
    ParseRangeOfRefs(month, am, digits, pm, digits, CellRef(col, row), CellRef(col + 1, row));
  }

  lemma CellRangeSpelled(month: string, row: nat, col: nat)
    ensures CellRange(month, Some(row), Some(col)) ==
      month + "!" + (SlotColumns(Some(col)).0 + DecimalText(row)) + ":" + (SlotColumns(Some(col)).1 + DecimalText(row))
  {
  }

  lemma LabelHasNoColon(s: string)
    requires IsLabel(s)
    ensures ':' !in s
  {
    forall i | 0 <= i < |s| ensures s[i] != ':' {}
  }

  lemma DigitsHaveNoColon(s: string)
    requires IsDigits(s)
    ensures ':' !in s
  {
    forall i | 0 <= i < |s| ensures s[i] != ':' {}
  }

  /** Day column 10 (J) of row 4 is read as the range J4:K4. */
  lemma CellRangeExample()
    ensures CellRange("JUN", Some(4), Some(10)) == "JUN!J4:K4"
  {
    ColumnTen();
    assert RowText(Some(4)) == "4";
    CellRangeParts("JUN", Some(4), Some(10), "J", "K", "4");
  }

  /** The PM slot of column 26 (Z) carries over to AA. */
  lemma CellRangeCarryExample()
    ensures CellRange("JUN", Some(12), Some(26)) == "JUN!Z12:AA12"
  {
    ColumnTwentySix();
    RowTwelve();
    CellRangeParts("JUN", Some(12), Some(26), "Z", "AA", "12");
  }

  /** A row that was not found prints as "null". */
  lemma CellRangeNoRowExample()
    ensures CellRange("JUN", None, Some(10)) == "JUN!Jnull:Knull"
  {
    ColumnTen();
    CellRangeParts("JUN", None, Some(10), "J", "K", "null");
    NoRowSpelled();
  }

  lemma NoRowSpelled()
    ensures "JUN" + "!" + "J" + "null" + ":" + "K" + "null" == "JUN!Jnull:Knull"
  {
  }

  /** With neither row nor column found, the range still names column A. */
  lemma CellRangeNullExample()
    ensures CellRange("JUN", None, None) == "JUN!null:Anull"
  {
    assert SlotColumns(None) == ("", "A");
    CellRangeParts("JUN", None, None, "", "A", "null");
  }

  lemma ColumnTen()
    ensures SlotColumns(Some(10)) == ("J", "K")
  {
    assert ColumnNumberToIndex(10) == "J" && ColumnNumberToIndex(11) == "K";
  }

  lemma ColumnTwentySix()
    ensures SlotColumns(Some(26)) == ("Z", "AA")
  {
    assert ColumnNumberToIndex(26) == "Z" && ColumnNumberToIndex(27) == "AA";
  }

  lemma RowTwelve()
    ensures RowText(Some(12)) == "12"
  {
    assert DecimalText(1) == "1" && DecimalText(12) == "12";
  }
}
