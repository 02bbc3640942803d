/**
 * `getScheduledEntry` and the decisions of `renderSchedule`, over reads of
 * the spreadsheet that are given as parameters.
 */
module Schedule {
  import opened Wrappers
  import opened Sheet
  import opened Ranges
  import opened Lookup
  import opened Legend
  import opened Slots

  /**
   * The three kinds of read the code makes, each already navigated down to the
   * part it uses; `None` models a failed request or a response without that part
   * (either makes the code throw).
   * - `columnValues(range)`: the first column of a plain-values read (`names[0]`);
   * - `rowCells(range)`: the cells of the first row of a formatted read;
   * - `blockCells(ranges)`: the rows of every block of a formatted read of several ranges.
   */
  datatype SheetReads = SheetReads(
    columnValues: string -> Option<seq<Option<string>>>,
    rowCells: string -> Option<Row>,
    blockCells: seq<string> -> Option<seq<seq<Row>>>)

  /** The range of the two slot cells: the row of `name` and the column of `day`, either possibly `null`. */
  function SlotRange(name: string, month: string, day: int, lower: string -> string,
                     names: seq<Option<string>>, header: Row): string
  {
    CellRange(month, RowNumber(names, name, lower), ColumnNumber(header, day))
  }

  /**
   * What the four reads of one resolution yield: the legend and the two
   * classified-to-be cells. The names, the header and the legend are read first
   * (all three must succeed); the cells are then read at the row of `name` and
   * the column of `day`, which may be `null`.
   */
  function Fetch(name: string, month: string, day: int, lower: string -> string, sheets: SheetReads)
    : (r: Option<(seq<Key>, seq<Appearance>)>)
    ensures r.Some? <==>
      var names := sheets.columnValues(NameRange(month));
      var header := sheets.rowCells(HeaderRange(month));
      var blocks := sheets.blockCells(LEGEND_RANGES);
      && names.Some? && header.Some? && blocks.Some?
      && GetKeys(blocks.value).Some?
      && var cells := sheets.rowCells(SlotRange(name, month, day, lower, names.value, header.value));
      && cells.Some? && SlotsOf(cells.value).Some?
    ensures r.Some? ==>
      var names := sheets.columnValues(NameRange(month)).value;
      var header := sheets.rowCells(HeaderRange(month)).value;
      var cells := sheets.rowCells(SlotRange(name, month, day, lower, names, header)).value;
      r.value == (GetKeys(sheets.blockCells(LEGEND_RANGES).value).value, SlotsOf(cells).value)
  {
    var names := sheets.columnValues(NameRange(month));
    var header := sheets.rowCells(HeaderRange(month));
    var blocks := sheets.blockCells(LEGEND_RANGES);
    if names.None? || header.None? || blocks.None? then None
    else
      var keys := GetKeys(blocks.value);
      var cells := sheets.rowCells(SlotRange(name, month, day, lower, names.value, header.value));
      if keys.None? || cells.None? then None
      else
        var slots := SlotsOf(cells.value);
        if slots.None? then None else Some((keys.value, slots.value))
  }

  /**
   * `getScheduledEntry(name)`: no read at all without an access token; a failed
   * read or a malformed response gives `Failed`; otherwise the two classified slots.
   */
  function GetScheduledEntry(hasToken: bool, name: string, month: string, day: int,
                             lower: string -> string, sheets: SheetReads): (r: Outcome)
    ensures r.NoToken? <==> !hasToken
    ensures hasToken ==> (r.Failed? <==>
      Fetch(name, month, day, lower, sheets).None? ||
      ClassifyPair(Fetch(name, month, day, lower, sheets).value.0, Fetch(name, month, day, lower, sheets).value.1).Failed?)
    ensures hasToken && Fetch(name, month, day, lower, sheets).Some? ==>
      r == ClassifyPair(Fetch(name, month, day, lower, sheets).value.0, Fetch(name, month, day, lower, sheets).value.1)
  {
    if !hasToken then NoToken
    else match Fetch(name, month, day, lower, sheets)
      case None => Failed
      case Some((keys, cells)) => ClassifyPair(keys, cells)
  }

  /** `today.getDay() === 0 || today.getDay() === 6`: Sunday or Saturday. */
  predicate IsWeekend(weekday: int) {
    weekday == 0 || weekday == 6
  }

  /** Of the seven days numbered by `getDay`, Sunday (0) and Saturday (6) are the weekend. */
  lemma WeekendDays()
    ensures (set w | 0 <= w < 7 && IsWeekend(w)) == {0, 6}
  {
  }

  /** What `renderSchedule` puts on the page: a request for a name, or an assignment per slot. */
  datatype View = NameRequired | Show(am: Option<Key>, pm: Option<Key>)

  /**
   * `renderSchedule`: demand a name; on a weekend show the fixed Weekend pair
   * without resolving anything; otherwise resolve, and show the `N/A` pair when
   * there is no schedule (no token, or an error caught on the way).
   */
  function RenderSchedule(name: string, weekday: int, month: string, day: int, hasToken: bool,
                          lower: string -> string, sheets: SheetReads): (v: View)
    ensures v.NameRequired? <==> name == ""
    ensures name != "" && IsWeekend(weekday) ==> v == Show(Some(WEEKEND), Some(WEEKEND))
    ensures name != "" && !IsWeekend(weekday) && !hasToken ==> v == Show(Some(NOT_AVAILABLE), Some(NOT_AVAILABLE))
    ensures name != "" && !IsWeekend(weekday) && GetScheduledEntry(hasToken, name, month, day, lower, sheets).Failed? ==>
      v == Show(Some(NOT_AVAILABLE), Some(NOT_AVAILABLE))
  {
    if name == "" then NameRequired
    else if IsWeekend(weekday) then Show(Some(WEEKEND), Some(WEEKEND))
    else match GetScheduledEntry(hasToken, name, month, day, lower, sheets)
      case Resolved(am, pm) => Show(am, pm)
      case _ => Show(Some(NOT_AVAILABLE), Some(NOT_AVAILABLE))
  }

  /** On a weekend the page does not depend on the token or on anything the spreadsheet holds. */
  lemma WeekendReadsNothing(name: string, weekday: int, month: string, day: int,
                            hasToken1: bool, hasToken2: bool, lower: string -> string,
                            sheets1: SheetReads, sheets2: SheetReads)
    requires name != "" && IsWeekend(weekday)
    ensures RenderSchedule(name, weekday, month, day, hasToken1, lower, sheets1)
         == RenderSchedule(name, weekday, month, day, hasToken2, lower, sheets2)
  {
  }

  /** A resolved schedule is shown as resolved, `undefined` slots included. */
  lemma ResolvedIsShown(name: string, weekday: int, month: string, day: int, hasToken: bool,
                        lower: string -> string, sheets: SheetReads)
    requires name != "" && !IsWeekend(weekday)
    requires GetScheduledEntry(hasToken, name, month, day, lower, sheets).Resolved?
    ensures var e := GetScheduledEntry(hasToken, name, month, day, lower, sheets);
      RenderSchedule(name, weekday, month, day, hasToken, lower, sheets) == Show(e.am, e.pm)
  {
  }

  /**
   * A working-day slot whose cell has a colour without channels shows as a
   * Holiday carrying the cell's text, whatever the legend holds.
   */
  lemma HolidayCellShown(name: string, weekday: int, month: string, day: int,
                         lower: string -> string, sheets: SheetReads)
    requires name != "" && !IsWeekend(weekday)
    requires Fetch(name, month, day, lower, sheets).Some?
    requires var cells := Fetch(name, month, day, lower, sheets).value.1;
      |cells| >= 2 && cells[0].color == Some(map[]) && cells[1].color.Some?
    ensures RenderSchedule(name, weekday, month, day, true, lower, sheets).am
         == Some(Holiday(Fetch(name, month, day, lower, sheets).value.1[0].value))
  {
  }

  /**
   * On a working day with a token, once every read has succeeded and both slot
   * cells have a background colour, the page shows each cell classified against
   * the legend: the AM cell first, the PM cell second.
   */
  lemma WorkingDayShown(name: string, weekday: int, month: string, day: int,
                        lower: string -> string, sheets: SheetReads)
    requires name != "" && !IsWeekend(weekday)
    requires sheets.columnValues(NameRange(month)).Some?
    requires sheets.rowCells(HeaderRange(month)).Some?
    requires sheets.blockCells(LEGEND_RANGES).Some?
    requires GetKeys(sheets.blockCells(LEGEND_RANGES).value).Some?
    requires var range := SlotRange(name, month, day, lower, sheets.columnValues(NameRange(month)).value,
                                    sheets.rowCells(HeaderRange(month)).value);
      && sheets.rowCells(range).Some?
      && SlotsOf(sheets.rowCells(range).value).Some?
      && var slots := SlotsOf(sheets.rowCells(range).value).value;
      && |slots| >= 2 && slots[0].color.Some? && slots[1].color.Some?
    ensures var keys := GetKeys(sheets.blockCells(LEGEND_RANGES).value).value;
      var range := SlotRange(name, month, day, lower, sheets.columnValues(NameRange(month)).value,
                             sheets.rowCells(HeaderRange(month)).value);
      var slots := SlotsOf(sheets.rowCells(range).value).value;
      RenderSchedule(name, weekday, month, day, true, lower, sheets) ==
        Show(Classify(keys, slots[0].value, slots[0].color.value), Classify(keys, slots[1].value, slots[1].color.value))
  {
  }
}
