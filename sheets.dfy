/**
 * The sparse cell map of a worksheet: its keys in `Object.keys` order, each
 * a cell reference with a single-letter column, with the cell's value as text
 * (`cell.v + ''`).
 */
module Sheets {
  import opened Common

  datatype CellRef = CellRef(col: char, row: nat)

  datatype Entry = Entry(ref: CellRef, text: string)

  type Sheet = seq<Entry>

  /** `sheet[ref]`: the value held at a reference, none when the key is absent. */
  function Lookup(sheet: Sheet, ref: CellRef): (r: Option<string>)
    ensures r.Some? <==> exists i :: 0 <= i < |sheet| && sheet[i].ref == ref
    ensures r.Some? ==> exists i :: 0 <= i < |sheet| && sheet[i] == Entry(ref, r.value)
  {
    if sheet == [] then None
    else if sheet[0].ref == ref then Some(sheet[0].text)
    else
      var r := Lookup(sheet[1..], ref);
      assert forall i :: 1 <= i < |sheet| ==> sheet[i] == sheet[1..][i - 1];
      r
  }

  /** The rows of a list of references, in order. */
  function Rows(refs: seq<CellRef>): (r: seq<int>)
    ensures |r| == |refs| && forall i :: 0 <= i < |refs| ==> r[i] == refs[i].row
  {
    if refs == [] then [] else [refs[0].row as int] + Rows(refs[1..])
  }

  function Texts(sheet: Sheet): (r: seq<string>)
    ensures |r| == |sheet| && forall i :: 0 <= i < |sheet| ==> r[i] == sheet[i].text
  {
    if sheet == [] then [] else [sheet[0].text] + Texts(sheet[1..])
  }

  function Refs(sheet: Sheet): (r: seq<CellRef>)
    ensures |r| == |sheet| && forall i :: 0 <= i < |sheet| ==> r[i] == sheet[i].ref
  {
    if sheet == [] then [] else [sheet[0].ref] + Refs(sheet[1..])
  }
}
