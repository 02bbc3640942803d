/**
 * Locating a person's row and a day's column on the month's sheet
 * (`getRowNumber`, `getColumnNumber`), once the responses are in hand.
 */
module Lookup {
  import opened Wrappers
  import opened Seqs
  import opened Sheet

  /**
   * `n?.toLowerCase() === name.toLowerCase()`: an absent entry never matches.
   * `lower` stands for JavaScript's `toLowerCase`; no whitespace is trimmed.
   */
  predicate NameMatches(n: Option<string>, name: string, lower: string -> string) {
    n.Some? && lower(n.value) == lower(name)
  }

  /** The `findIndex` callback of `getRowNumber`. */
  function NameQuery(name: string, lower: string -> string): Option<string> -> bool {
    n => NameMatches(n, name, lower)
  }

  /**
   * The 1-based row of the first entry of the names column equal to `name`
   * ignoring case, or `null`.
   */
  function RowNumber(names: seq<Option<string>>, name: string, lower: string -> string): (r: Option<nat>)
    ensures r.Some? ==> 1 <= r.value <= |names| && NameMatches(names[r.value - 1], name, lower)
    ensures r.Some? ==> IsFirst(names, NameQuery(name, lower), r.value - 1)
    ensures r.None? <==> IsFirst(names, NameQuery(name, lower), |names|)
  {
    match FindIndex(names, NameQuery(name, lower))
    case None => None
    case Some(i) => Some(i + 1)
  }

  /** Two queries that lower-case alike find the same row. */
  lemma RowNumberIgnoresCase(names: seq<Option<string>>, name1: string, name2: string, lower: string -> string)
    requires lower(name1) == lower(name2)
    ensures RowNumber(names, name1, lower) == RowNumber(names, name2, lower)
  {
    FindIndexAgree(names, NameQuery(name1, lower), NameQuery(name2, lower));
  }

  /** Rows after the first match do not affect the result. */
  lemma RowNumberFirstMatchWins(names: seq<Option<string>>, more: seq<Option<string>>, name: string, lower: string -> string)
    requires RowNumber(names, name, lower).Some?
    ensures RowNumber(names + more, name, lower) == RowNumber(names, name, lower)
  {
    FindIndexPrefix(names, more, NameQuery(name, lower));
  }

  /** `d?.effectiveValue?.numberValue === day`: a cell without a number never matches. */
  predicate IsDayCell(d: Option<CellData>, day: int) {
    d.Some? && d.value.effectiveValue.Some? && d.value.effectiveValue.value.numberValue == Some(day as real)
  }

  /** The `findIndex` callback of `getColumnNumber`. */
  function DayQuery(day: int): Option<CellData> -> bool {
    d => IsDayCell(d, day)
  }

  /** The 1-based column of the first header cell holding the day of the month, or `null`. */
  function ColumnNumber(header: Row, day: int): (r: Option<nat>)
    ensures r.Some? ==> 1 <= r.value <= |header| && IsDayCell(header[r.value - 1], day)
    ensures r.Some? ==> IsFirst(header, DayQuery(day), r.value - 1)
    ensures r.None? <==> IsFirst(header, DayQuery(day), |header|)
  {
    match FindIndex(header, DayQuery(day))
    case None => None
    case Some(i) => Some(i + 1)
  }

  /** Header cells after the first match do not affect the result. */
  lemma ColumnNumberFirstMatchWins(header: Row, more: Row, day: int)
    requires ColumnNumber(header, day).Some?
    ensures ColumnNumber(header + more, day) == ColumnNumber(header, day)
  {
    FindIndexPrefix(header, more, DayQuery(day));
  }
}
