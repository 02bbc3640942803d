/**
 * Whole resolutions on a small concrete roster: a working day that resolves
 * from the legend, a holiday slot, a name the roster lacks, and a weekend.
 */
module Scenarios {
  import opened Wrappers
  import opened Seqs
  import opened Sheet
  import opened Ranges
  import opened Lookup
  import opened Legend
  import opened Slots
  import opened Schedule

  /** An instance of `toLowerCase` that lowers the ASCII letters only. */
  function AsciiLower(s: string): (r: string)
    ensures |r| == |s|
  {
    if s == [] then []
    else [if 'A' <= s[0] <= 'Z' then (s[0] as int + 32) as char else s[0]] + AsciiLower(s[1..])
  }

  /** Surrounding whitespace is not trimmed: "  Alice " does not find "alice". */
  lemma NameIsNotTrimmed()
    ensures RowNumber([Some("alice")], "  Alice ", AsciiLower) == None
    ensures RowNumber([Some("alice")], "ALICE", AsciiLower) == Some(1)
  {
    PaddedNameNotFound();
    UpperNameFound();
  }

  lemma PaddedNameNotFound()
    ensures RowNumber([Some("alice")], "  Alice ", AsciiLower) == None
  {
    var names: seq<Option<string>> := [Some("alice")];
    PaddedNameDiffers();
    assert !NameQuery("  Alice ", AsciiLower)(names[0]);
    assert IsFirst(names, NameQuery("  Alice ", AsciiLower), |names|);
  }

  lemma UpperNameFound()
    ensures RowNumber([Some("alice")], "ALICE", AsciiLower) == Some(1)
  {
    var names: seq<Option<string>> := [Some("alice")];
    UpperNameAgrees();
    assert NameQuery("ALICE", AsciiLower)(names[0]);
    FindIndexUnique(names, NameQuery("ALICE", AsciiLower), 0);
  }

  lemma PaddedNameDiffers()
    ensures AsciiLower("alice") != AsciiLower("  Alice ")
  {
    assert |AsciiLower("alice")| == 5 && |AsciiLower("  Alice ")| == 8;
  }

  lemma UpperNameAgrees()
    ensures AsciiLower("alice") == AsciiLower("ALICE")
  {
    assert AsciiLower("ALICE") == "alice";
    assert AsciiLower("alice") == "alice";
  }

  const PROJECT_X_COLOR: Color := map["red" := 0.2, "green" := 0.6, "blue" := 0.9]

  function TextCell(text: string, color: Option<Color>): CellData {
    CellData(Some(ExtendedValue(Some(text), None)), if color.Some? then Some(CellFormat(color)) else None)
  }

  const NAMES: seq<Option<string>> := [Some("Name"), None, Some("Alice"), Some("bob")]

  const DAY_15: CellData := CellData(Some(ExtendedValue(None, Some(15.0))), None)

  const HEADER: Row := [None, None, None, None, None, None, None, None, None, Some(DAY_15)]

  const LEGEND: seq<seq<Row>> :=
    [[[Some(TextCell("Project X", None)), Some(TextCell("PRJ-X", Some(PROJECT_X_COLOR)))]], [], []]

  /** Row 4 of June, columns J (AM) and K (PM): Project X in the morning, a black cell after. */
  const CELLS: Row :=
    [Some(TextCell("PRJ-X", Some(PROJECT_X_COLOR))), Some(TextCell("", Some(map[])))]

  /** A spreadsheet that answers exactly the reads of the June sheet, and fails any other. */
  function June(): SheetReads {
    SheetReads(
      r => if r == NameRange("JUN") then Some(NAMES) else None,
      r => if r == HeaderRange("JUN") then Some(HEADER) else if r == "JUN!J4:K4" then Some(CELLS) else None,
      rs => if rs == LEGEND_RANGES then Some(LEGEND) else None)
  }

  lemma BobIsRowFour()
    ensures RowNumber(NAMES, "Bob", AsciiLower) == Some(4)
  {
    assert AsciiLower("Bob") == "bob" && AsciiLower("bob") == "bob";
    assert AsciiLower("Alice")[0] == 'a' && AsciiLower("Name")[0] == 'n';
    assert !NameMatches(NAMES[0], "Bob", AsciiLower);
    assert !NameMatches(NAMES[1], "Bob", AsciiLower);
    assert !NameMatches(NAMES[2], "Bob", AsciiLower);
    assert NameMatches(NAMES[3], "Bob", AsciiLower);
  }

  lemma ZedIsNoRow()
    ensures RowNumber(NAMES, "Zed", AsciiLower) == None
  {
    assert AsciiLower("Zed")[0] == 'z';
    assert AsciiLower("Alice")[0] == 'a' && AsciiLower("Name")[0] == 'n' && AsciiLower("bob")[0] == 'b';
    forall j | 0 <= j < |NAMES| ensures !NameMatches(NAMES[j], "Zed", AsciiLower) {
    }
  }

  lemma FifteenIsColumnTen()
    ensures ColumnNumber(HEADER, 15) == Some(10)
  {
    assert IsDayCell(HEADER[9], 15);
    assert forall j :: 0 <= j < 9 ==> HEADER[j] == None;
  }

  const PROJECT_X: Key := Key(Some("Project X"), Appearance("PRJ-X", Some(PROJECT_X_COLOR)))

  lemma LegendOfJune()
    ensures GetKeys(LEGEND) == Some([PROJECT_X])
  {
    assert Concat(LEGEND[2..]) == [] by {
      assert LEGEND[2..][1..] == [];
    }
    assert Concat(LEGEND[1..]) == [] by {
      assert LEGEND[1..][1..] == LEGEND[2..];
    }
    assert Concat(LEGEND) == [LEGEND[0][0]];
    assert KeyOfRow(LEGEND[0][0]) == Some(PROJECT_X);
    var m := MapAll([LEGEND[0][0]], KeyOfRow);
    assert m.Some? && |m.value| == 1;
    assert Some(m.value[0]) == KeyOfRow(LEGEND[0][0]);
    assert m.value == [PROJECT_X];
  }

  lemma JuneAnswers()
    ensures June().columnValues(NameRange("JUN")) == Some(NAMES)
    ensures June().rowCells(HeaderRange("JUN")) == Some(HEADER)
    ensures June().rowCells("JUN!J4:K4") == Some(CELLS)
    ensures June().rowCells("JUN!Jnull:Knull") == None
    ensures June().blockCells(LEGEND_RANGES) == Some(LEGEND)
  {
    assert HeaderRange("JUN") == "JUN!2:2";
    assert |"JUN!2:2"| != |"JUN!J4:K4"|;
    assert "JUN!2:2"[4] != "JUN!Jnull:Knull"[4];
  }

  lemma CellsOfBob()
    ensures SlotsOf(CELLS) == Some([Appearance("PRJ-X", Some(PROJECT_X_COLOR)), Appearance("", Some(map[]))])
  {
    assert SlotOf(CELLS[0]) == Some(Appearance("PRJ-X", Some(PROJECT_X_COLOR)));
    assert SlotOf(CELLS[1]) == Some(Appearance("", Some(map[])));
    var m := SlotsOf(CELLS);
    assert m.Some? && |m.value| == 2;
    assert Some(m.value[0]) == SlotOf(CELLS[0]) && Some(m.value[1]) == SlotOf(CELLS[1]);
    assert m.value == [m.value[0], m.value[1]];
  }

  /** Bob on Thursday 15 June: the AM cell matches the Project X entry, the PM cell is a holiday. */
  lemma BobOnThursday()
    ensures RenderSchedule("Bob", 4, "JUN", 15, true, AsciiLower, June())
         == Show(Some(PROJECT_X), Some(Holiday("")))
  {
    BobResolved();
  }

  lemma BobResolved()
    ensures GetScheduledEntry(true, "Bob", "JUN", 15, AsciiLower, June()) == Resolved(Some(PROJECT_X), Some(Holiday("")))
  {
    BobFetch();
    BobSlots();
  }

  lemma BobSlots()
    ensures ClassifyPair([PROJECT_X], [Appearance("PRJ-X", Some(PROJECT_X_COLOR)), Appearance("", Some(map[]))])
         == Resolved(Some(PROJECT_X), Some(Holiday("")))
  {
    assert KeyMatches(PROJECT_X, "PRJ-X", PROJECT_X_COLOR);
  }

  lemma BobFetch()
    ensures Fetch("Bob", "JUN", 15, AsciiLower, June())
         == Some(([PROJECT_X], [Appearance("PRJ-X", Some(PROJECT_X_COLOR)), Appearance("", Some(map[]))]))
  {
    BobIsRowFour();
    FifteenIsColumnTen();
    CellRangeExample();
    LegendOfJune();
    JuneAnswers();
    CellsOfBob();
  }

  /** A name the roster lacks leaves the row `null`; the read of that range fails and the page shows N/A. */
  lemma ZedIsNotOnTheRoster()
    ensures RenderSchedule("Zed", 4, "JUN", 15, true, AsciiLower, June())
         == Show(Some(NOT_AVAILABLE), Some(NOT_AVAILABLE))
  {
    ZedFetch();
  }

  lemma ZedFetch()
    ensures Fetch("Zed", "JUN", 15, AsciiLower, June()) == None
  {
    ZedIsNoRow();
    FifteenIsColumnTen();
    JuneAnswers();
    CellRangeNoRowExample();
    LegendOfJune();
  }

  /** Saturday 17 June shows the Weekend pair, even without a token. */
  lemma SaturdayIsWeekend()
    ensures RenderSchedule("Bob", 6, "JUN", 17, false, AsciiLower, June()) == Show(Some(WEEKEND), Some(WEEKEND))
  {
  }
}
