/** Slot writing: the zero-initialised, fixed-width result arrays and the
    prefix writes each window makes into its own row. */
module Slots {
  import opened Base

  /** A `rows × width` array of `zero` (numpy's `np.zeros((rows, width))`). */
  function Grid<V>(rows: nat, width: nat, zero: V): (g: seq<seq<V>>)
    ensures |g| == rows
    ensures forall k :: 0 <= k < rows ==> g[k] == Fill(width, zero)
  {
    Fill(rows, Fill(width, zero))
  }

  /** `row[:len(vals)] = vals`: the first `|vals|` slots take the new values and
      the rest keep what they held. */
  function WritePrefix<V>(row: seq<V>, vals: seq<V>): (r: seq<V>)
    requires |vals| <= |row|
    ensures |r| == |row|
    ensures forall i :: 0 <= i < |vals| ==> r[i] == vals[i]
    ensures forall i :: |vals| <= i < |row| ==> r[i] == row[i]
  {
    vals + row[|vals|..]
  }

  /** `table[k] = row`: row `k` is replaced and no other row changes. */
  function SetRow<V>(table: seq<V>, k: nat, row: V): (r: seq<V>)
    requires k < |table|
    ensures |r| == |table| && r[k] == row
    ensures forall i :: 0 <= i < |table| && i != k ==> r[i] == table[i]
  {
    table[k := row]
  }
}
