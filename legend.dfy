/**
 * The legend (`getKeys`): the rows of the three legend blocks, flattened in
 * order into `{key, value: {value, color}}` records.
 */
module Legend {
  import opened Wrappers
  import opened Seqs
  import opened Sheet

  /**
   * One legend row `rd.values`: the label from the first cell, the text and
   * colour from the second. `None` where the row makes the code throw: fewer
   * than two cells, an absent first or second cell, or a first cell without
   * an `effectiveValue`.
   */
  function KeyOfRow(row: Row): (r: Option<Key>)
    ensures r.Some? <==> |row| >= 2 && row[0].Some? && row[1].Some? && row[0].value.effectiveValue.Some?
    ensures r.Some? ==> r.value.key == row[0].value.effectiveValue.value.stringValue
    ensures r.Some? ==> r.value.value.value == TextOf(row[1].value)
    ensures r.Some? ==>
      r.value.value.color ==
      (if row[1].value.effectiveFormat.Some? then row[1].value.effectiveFormat.value.backgroundColor else None)
  {
    if |row| < 2 || row[0].None? || row[1].None? || row[0].value.effectiveValue.None? then None
    else
      var first := row[0].value;
      var cell := row[1].value;
      Some(Key(first.effectiveValue.value.stringValue,
               Appearance(TextOf(cell), if cell.effectiveFormat.Some? then cell.effectiveFormat.value.backgroundColor else None)))
  }

  /** All legend rows, block after block. */
  function Concat(blocks: seq<seq<Row>>): seq<Row> {
    if blocks == [] then [] else blocks[0] + Concat(blocks[1..])
  }

  /** The number of rows in all blocks together. */
  function TotalRows(blocks: seq<seq<Row>>): nat {
    if blocks == [] then 0 else |blocks[0]| + TotalRows(blocks[1..])
  }

  /** The position in the legend of the first row of block `b`. */
  function Offset(blocks: seq<seq<Row>>, b: nat): nat
    requires b <= |blocks|
  {
    TotalRows(blocks[..b])
  }

  /** `keysData.map(d => d.rowData.map(...)).flat()`. */
  function GetKeys(blocks: seq<seq<Row>>): (r: Option<seq<Key>>)
    ensures r.Some? ==> |r.value| == TotalRows(blocks)
    ensures r == MapAll(Concat(blocks), KeyOfRow)
  {
    ConcatLength(blocks);
    if blocks == [] then Some([])
    else
      MapAllAppend(blocks[0], Concat(blocks[1..]), KeyOfRow);
      match (MapAll(blocks[0], KeyOfRow), GetKeys(blocks[1..]))
      case (Some(first), Some(rest)) => Some(first + rest)
      case _ => None
  }

  /** The legend is built exactly when every row of every block is well formed. */
  lemma {:induction false} GetKeysDefined(blocks: seq<seq<Row>>)
    ensures GetKeys(blocks).Some? <==>
      forall b, i :: 0 <= b < |blocks| && 0 <= i < |blocks[b]| ==> KeyOfRow(blocks[b][i]).Some?
  {
    if blocks != [] {
      GetKeysDefined(blocks[1..]);
      assert forall b :: 1 <= b < |blocks| ==> blocks[b] == blocks[1..][b - 1];
    }
  }

  lemma {:induction false} ConcatLength(blocks: seq<seq<Row>>)
    ensures |Concat(blocks)| == TotalRows(blocks)
  {
    if blocks != [] {
      ConcatLength(blocks[1..]);
    }
  }

  /** Row `i` of block `b` sits at position `Offset(blocks, b) + i` of the concatenation. */
  lemma {:induction false} ConcatAt(blocks: seq<seq<Row>>, b: nat, i: nat)
    requires b < |blocks| && i < |blocks[b]|
    ensures Offset(blocks, b) + i < |Concat(blocks)|
    ensures Concat(blocks)[Offset(blocks, b) + i] == blocks[b][i]
  {
    ConcatLength(blocks[1..]);
    if b == 0 {
      assert blocks[..0] == [];
    } else {
      ConcatAt(blocks[1..], b - 1, i);
      OffsetStep(blocks, b);
    }
  }

  lemma OffsetStep(blocks: seq<seq<Row>>, b: nat)
    requires 1 <= b <= |blocks|
    ensures Offset(blocks, b) == |blocks[0]| + Offset(blocks[1..], b - 1)
  {
    assert blocks[..b][0] == blocks[0];
    assert blocks[..b][1..] == blocks[1..][..b - 1];
  }

  /** Row `i` of block `b` is legend entry `Offset(blocks, b) + i`: blocks keep their order. */
  lemma GetKeysAt(blocks: seq<seq<Row>>, b: nat, i: nat)
    requires GetKeys(blocks).Some?
    requires b < |blocks| && i < |blocks[b]|
    ensures Offset(blocks, b) + i < |GetKeys(blocks).value|
    ensures Some(GetKeys(blocks).value[Offset(blocks, b) + i]) == KeyOfRow(blocks[b][i])
  {
    ConcatAt(blocks, b, i);
  }

  /** A legend entry's text is "" whenever its second cell holds no string. */
  lemma LegendTextDefault(blocks: seq<seq<Row>>, b: nat, i: nat)
    requires GetKeys(blocks).Some?
    requires b < |blocks| && i < |blocks[b]| && |blocks[b][i]| >= 2
    requires blocks[b][i][1].Some?
    requires blocks[b][i][1].value.effectiveValue.None? || blocks[b][i][1].value.effectiveValue.value.stringValue.None?
    ensures Offset(blocks, b) + i < |GetKeys(blocks).value|
    ensures GetKeys(blocks).value[Offset(blocks, b) + i].value.value == ""
  {
    GetKeysAt(blocks, b, i);
  }
}
