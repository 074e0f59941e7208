/**
 * The small part of pandas the feature pipeline relies on: a cell value
 * that may be null, a frame of named columns, `reindex`, `isnull().any()`
 * and `concat`.
 */
module Frames {
  import opened Wrappers
  import opened Exceptions

  /** A float cell: a number, or NaN (what pandas reports as null). */
  datatype Float = Num(v: real) | NaN

  /** A data frame: ordered column names and rows of cells. */
  datatype Frame = Frame(columns: seq<string>, rows: seq<seq<Float>>)

  /**
   * `reindex(columns=...)` applied to a one-row frame built from `rec`:
   * the row holds, column by column, the record's value, or NaN where the
   * record has no such key.
   */
  function Reindex(rec: map<string, Float>, columns: seq<string>): (row: seq<Float>)
    ensures |row| == |columns|
    ensures forall i :: 0 <= i < |columns| && columns[i] in rec ==> row[i] == rec[columns[i]]
    ensures forall i :: 0 <= i < |columns| && columns[i] !in rec ==> row[i] == NaN
  {
    seq(|columns|, i requires 0 <= i < |columns| => if columns[i] in rec then rec[columns[i]] else NaN)
  }

  /** Reindexing onto two column lists in turn is reindexing onto their concatenation. */
  lemma ReindexAppend(rec: map<string, Float>, a: seq<string>, b: seq<string>)
    ensures Reindex(rec, a + b) == Reindex(rec, a) + Reindex(rec, b)
  {
  }

  /**
   * A record that agrees with a smaller one on the smaller one's keys
   * projects the same way onto columns all found in the smaller one.
   */
  lemma ReindexSubmap(rec: map<string, Float>, sub: map<string, Float>, columns: seq<string>)
    requires forall name :: name in sub ==> name in rec && rec[name] == sub[name]
    requires forall i :: 0 <= i < |columns| ==> columns[i] in sub
    ensures Reindex(rec, columns) == Reindex(sub, columns)
  {
  }

  /** Reindexing onto four names whose values are known. */
  lemma ReindexFour(rec: map<string, Float>, k0: string, k1: string, k2: string, k3: string, v0: Float, v1: Float, v2: Float, v3: Float)
    requires k0 in rec && rec[k0] == v0
    requires k1 in rec && rec[k1] == v1
    requires k2 in rec && rec[k2] == v2
    requires k3 in rec && rec[k3] == v3
    ensures Reindex(rec, [k0, k1, k2, k3]) == [v0, v1, v2, v3]
  {
    ReindexAppend(rec, [k0, k1, k2], [k3]);
    assert [k0, k1, k2] + [k3] == [k0, k1, k2, k3];
  }

  /**
   * `df.isnull().any().any()`: some cell of some row is null. A frame
   * without rows has none; for a one-row frame it is a null in that row.
   */
  predicate HasNull(f: Frame): (b: bool)
    ensures f.rows == [] ==> !b
    ensures |f.rows| == 1 ==> (b <==> NaN in f.rows[0])
  {
    exists r, c :: 0 <= r < |f.rows| && 0 <= c < |f.rows[r]| && f.rows[r][c].NaN?
  }

  /** All frames of a list share the first one's columns. */
  predicate SameColumns(frames: seq<Frame>)
  {
    forall i :: 0 <= i < |frames| ==> frames[i].columns == frames[0].columns
  }

  /** The rows of a list of frames, stacked in list order. */
  function StackRows(frames: seq<Frame>): seq<seq<Float>>
  {
    if frames == [] then [] else frames[0].rows + StackRows(frames[1..])
  }

  /**
   * `pd.concat(frames, ignore_index=True)` for frames that share their
   * columns; pandas refuses an empty list with a `ValueError`.
   */
  function Concat(frames: seq<Frame>): (r: Result<Frame, Exception>)
    requires SameColumns(frames)
    ensures r.Err? <==> frames == []
    ensures r.Err? ==> r.error == ValueError("No objects to concatenate")
    ensures r.Ok? ==> r.value.columns == frames[0].columns && r.value.rows == StackRows(frames)
  {
    if frames == [] then Err(ValueError("No objects to concatenate"))
    else Ok(Frame(frames[0].columns, StackRows(frames)))
  }

  /**
   * Stacking frames of one row each gives one row per frame, row i being
   * the row of frame i.
   */
  lemma {:induction false} StackSingleRows(frames: seq<Frame>)
    requires forall i :: 0 <= i < |frames| ==> |frames[i].rows| == 1
    ensures |StackRows(frames)| == |frames|
    ensures forall i :: 0 <= i < |frames| ==> StackRows(frames)[i] == frames[i].rows[0]
  {
    if frames != [] {
      StackSingleRows(frames[1..]);
      assert StackRows(frames) == frames[0].rows + StackRows(frames[1..]);
      forall i | 0 <= i < |frames|
        ensures StackRows(frames)[i] == frames[i].rows[0]
      {
        if i > 0 {
          assert frames[1..][i - 1] == frames[i];
        }
      }
    }
  }
}
