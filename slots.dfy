/**
 * Classifying the AM and PM cells of one day against the legend
 * (the second half of `getScheduledEntry`).
 */
module Slots {
  import opened Wrappers
  import opened Seqs
  import opened Sheet

  /** `k.value.value === cell.value && _.isEqual(k.value.color, cell.color)`. */
  predicate KeyMatches(k: Key, text: string, color: Color) {
    k.value.value == text && k.value.color == Some(color)
  }

  /** The `find` callback of `getScheduledEntry`. */
  function KeyQuery(text: string, color: Color): Key -> bool {
    k => KeyMatches(k, text, color)
  }

  /** `Object.keys(cell.color).length === 0`. */
  predicate IsHoliday(color: Color) {
    |color| == 0
  }

  /**
   * The assignment of one slot whose cell has text `text` and colour `color`:
   * a colour without channels is a holiday, whatever the legend says;
   * otherwise the first legend entry with equal text and equal colour, or
   * `undefined` when there is none.
   */
  function Classify(keys: seq<Key>, text: string, color: Color): (r: Option<Key>)
    ensures IsHoliday(color) ==> r == Some(Holiday(text))
    ensures !IsHoliday(color) ==> (r.None? <==> IsFirst(keys, KeyQuery(text, color), |keys|))
    ensures !IsHoliday(color) && r.Some? ==>
      exists i :: 0 <= i < |keys| && r.value == keys[i] && KeyMatches(keys[i], text, color) &&
        IsFirst(keys, KeyQuery(text, color), i)
  {
    var found := Find(keys, KeyQuery(text, color));
    if IsHoliday(color) then Some(Holiday(text)) else found
  }

  /**
   * Once an entry of the legend matches, entries after it, duplicates
   * included, never change the assignment: the earlier entry wins.
   */
  lemma ClassifyEarlierEntryWins(keys: seq<Key>, more: seq<Key>, text: string, color: Color, i: nat)
    requires i < |keys| && KeyMatches(keys[i], text, color)
    ensures Classify(keys + more, text, color) == Classify(keys, text, color)
  {
    var p := KeyQuery(text, color);
    assert p(keys[i]);
    if Find(keys, p).None? {
      assert false;
    }
    FindPrefix(keys, more, p);
  }

  /** A holiday cell is a holiday whatever the legend holds, matching entries included. */
  lemma ClassifyHolidayIgnoresLegend(keys1: seq<Key>, keys2: seq<Key>, text: string, color: Color)
    requires IsHoliday(color)
    ensures Classify(keys1, text, color) == Classify(keys2, text, color) == Some(Holiday(text))
  {
  }

  /**
   * One cell of the two-cell read, as `getCell` maps it:
   * `{value: c.effectiveValue?.stringValue ?? "", color: c.effectiveFormat.backgroundColor}`.
   * `None` where the code throws: an absent cell, or one without `effectiveFormat`.
   */
  function SlotOf(c: Option<CellData>): (r: Option<Appearance>)
    ensures r.Some? <==> c.Some? && c.value.effectiveFormat.Some?
    ensures r.Some? ==> r.value.value == TextOf(c.value) && r.value.color == c.value.effectiveFormat.value.backgroundColor
  {
    if c.None? || c.value.effectiveFormat.None? then None
    else Some(Appearance(TextOf(c.value), c.value.effectiveFormat.value.backgroundColor))
  }

  /** The cells of the two-cell read, or `None` when mapping one of them throws. */
  function SlotsOf(cells: Row): (r: Option<seq<Appearance>>)
    ensures r.Some? <==> forall j :: 0 <= j < |cells| ==> SlotOf(cells[j]).Some?
    ensures r.Some? ==> |r.value| == |cells| && forall j :: 0 <= j < |cells| ==> Some(r.value[j]) == SlotOf(cells[j])
  {
    MapAll(cells, SlotOf)
  }

  /**
   * What `getScheduledEntry` produces: nothing for want of a token, a thrown
   * error (which the caller turns into the `N/A` pair), or the pair of slot
   * assignments, each of which may be `undefined`.
   */
  datatype Outcome = NoToken | Failed | Resolved(am: Option<Key>, pm: Option<Key>)

  /**
   * The AM slot from the first cell and the PM slot from the second, each
   * classified on its own. The code throws when a cell is missing or has no
   * background colour (`Object.keys(undefined)`), so those give `Failed`.
   */
  function ClassifyPair(keys: seq<Key>, cells: seq<Appearance>): (r: Outcome)
    ensures !r.NoToken?
    ensures r.Resolved? <==> |cells| >= 2 && cells[0].color.Some? && cells[1].color.Some?
    ensures r.Resolved? ==> r.am == Classify(keys, cells[0].value, cells[0].color.value)
    ensures r.Resolved? ==> r.pm == Classify(keys, cells[1].value, cells[1].color.value)
  {
    if |cells| < 2 || cells[0].color.None? || cells[1].color.None? then Failed
    else Resolved(Classify(keys, cells[0].value, cells[0].color.value),
                  Classify(keys, cells[1].value, cells[1].color.value))
  }

  /** The AM assignment does not depend on the PM cell, nor the PM one on the AM cell. */
  lemma ClassifyPairIndependent(keys: seq<Key>, am: Appearance, pm: Appearance, am': Appearance, pm': Appearance)
    requires am.color.Some? && pm.color.Some? && am'.color.Some? && pm'.color.Some?
    ensures ClassifyPair(keys, [am, pm]).am == ClassifyPair(keys, [am, pm']).am
    ensures ClassifyPair(keys, [am, pm]).pm == ClassifyPair(keys, [am', pm]).pm
  {
  }
}
