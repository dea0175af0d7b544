/**
 * What a spreadsheet range read returns: rows of formatted cell strings (the
 * service omits trailing empty cells, so rows are ragged), or the message of the
 * error the client throws. A response without `values` reads as no rows.
 */
module Sheets {
  import opened Wrappers

  type Row = seq<string>

  type SheetRead = Result<seq<Row>>

  /** `row[i] || ''`: a missing cell reads as the empty string. */
  function Cell(row: Row, i: nat): string {
    if i < |row| then row[i] else ""
  }

  /** Array.prototype.flat on rows of cells. */
  function Flat(rows: seq<Row>): (r: seq<string>)
    ensures forall i :: 0 <= i < |rows| ==> forall c :: c in rows[i] ==> c in r
    ensures forall c :: c in r ==> exists i :: 0 <= i < |rows| && c in rows[i]
  {
    if rows == [] then [] else rows[0] + Flat(rows[1..])
  }
}
