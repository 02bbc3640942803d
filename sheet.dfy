/**
 * The values the roster code reads out of spreadsheet responses, and the
 * `{key, value: {value, color}}` records it builds from them.
 */
module Sheet {
  import opened Wrappers

  /**
   * A background colour as the spreadsheet returns it: an object with some of
   * the channels `red`, `green`, `blue` (components in [0, 1]). Channels whose
   * value is zero are left out of the object, so black is the object `{}`.
   * Colours are only ever compared for structural equality.
   */
  type Color = map<string, real>

  /**
   * A cell's `effectiveValue`, with its string and its number value. The
   * spreadsheet fills in at most one of them; the model does not rely on that.
   */
  datatype ExtendedValue = ExtendedValue(stringValue: Option<string>, numberValue: Option<real>)

  /** A cell's `effectiveFormat`, of which only the background colour is used. */
  datatype CellFormat = CellFormat(backgroundColor: Option<Color>)

  /** One cell of a formatted read: `{effectiveValue?, effectiveFormat?}`. */
  datatype CellData = CellData(effectiveValue: Option<ExtendedValue>, effectiveFormat: Option<CellFormat>)

  /**
   * The cells of one row of a response (`values`). An element is `None` where
   * the array holds `null` or `undefined`.
   */
  type Row = seq<Option<CellData>>

  /** `{value, color}`: a cell's text together with its background colour. */
  datatype Appearance = Appearance(value: string, color: Option<Color>)

  /**
   * `{key, value}`: a legend entry, or the assignment shown for one slot.
   * `key` is `undefined` for a legend row whose label cell holds no string.
   */
  datatype Key = Key(key: Option<string>, value: Appearance)

  /** `c.effectiveValue?.stringValue ?? ""`. */
  function TextOf(c: CellData): (t: string)
    ensures c.effectiveValue.None? || c.effectiveValue.value.stringValue.None? ==> t == ""
    ensures c.effectiveValue.Some? && c.effectiveValue.value.stringValue.Some? ==>
      t == c.effectiveValue.value.stringValue.value
  {
    if c.effectiveValue.Some? && c.effectiveValue.value.stringValue.Some?
    then c.effectiveValue.value.stringValue.value
    else ""
  }

  /** The colour `{red: 1, green: 1, blue: 1}`. */
  const WHITE: Color := map["red" := 1.0, "green" := 1.0, "blue" := 1.0]

  /** The party-face emoji shown as the text of a weekend slot. */
  const PARTY: string := "\U{1F973}"

  /** The fixed assignment of both slots on a Saturday or Sunday. */
  const WEEKEND: Key := Key(Some("Weekend"), Appearance(PARTY, Some(WHITE)))

  /** The fixed assignment of both slots when no schedule could be obtained. */
  const NOT_AVAILABLE: Key := Key(Some("N/A"), Appearance("N/A", Some(WHITE)))

  /** The assignment of a slot whose cell has a colour without channels. */
  function Holiday(text: string): Key {
    Key(Some("Holiday"), Appearance(text, Some(map[])))
  }
}
