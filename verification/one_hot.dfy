/**
 * `get_one_hot_tem`: a batch of template ids becomes a matrix with one row
 * per id, each row `teml` long with a single 1 at the id's position.
 */
module OneHot {

  /** `row` is the one-hot row for `id`: 1 at `id`, 0 everywhere else. */
  ghost predicate IsOneHot(row: seq<int>, id: int) {
    forall j :: 0 <= j < |row| ==> row[j] == (if j == id then 1 else 0)
  }

  /** Number of entries equal to 1. */
  function Ones(row: seq<int>): nat {
    if row == [] then 0 else (if row[0] == 1 then 1 else 0) + Ones(row[1..])
  }

  /** Position of the first 1, or `|row|` when there is none: the decoder. */
  function FirstOne(row: seq<int>): (p: nat)
    ensures p <= |row|
  {
    if row == [] then 0 else if row[0] == 1 then 0 else 1 + FirstOne(row[1..])
  }

  lemma {:induction false} NoOnesInZeros(row: seq<int>)
    requires forall j :: 0 <= j < |row| ==> row[j] == 0
    ensures Ones(row) == 0 && FirstOne(row) == |row|
  {
    if row != [] {
      NoOnesInZeros(row[1..]);
    }
  }

  /**
   * A one-hot row holds exactly one 1 and decodes back to its id, so the
   * encoding loses nothing.
   */
  lemma {:induction false} OneHotDecodes(row: seq<int>, id: int)
    requires 0 <= id < |row| && IsOneHot(row, id)
    ensures Ones(row) == 1
    ensures FirstOne(row) == id
  {
    if id == 0 {
      NoOnesInZeros(row[1..]);
    } else {
      assert IsOneHot(row[1..], id - 1) by {
        forall j | 0 <= j < |row[1..]|
          ensures row[1..][j] == (if j == id - 1 then 1 else 0)
        {
          assert row[1..][j] == row[j + 1];
        }
      }
      OneHotDecodes(row[1..], id - 1);
    }
  }

  /**
   * Builds the one-hot matrix row by row, as the source does: a fresh
   * zero row, one entry set to 1, the row appended. Every id must be a
   * valid index of a `teml`-long row.
   */
  method GetOneHotTem(tem: seq<int>, teml: nat) returns (rows: seq<seq<int>>)
    requires forall k :: 0 <= k < |tem| ==> 0 <= tem[k] < teml
    ensures |rows| == |tem|
    ensures forall k :: 0 <= k < |tem| ==> |rows[k]| == teml && IsOneHot(rows[k], tem[k])
  {
    rows := [];
    var i := 0;
    while i < |tem|
      invariant 0 <= i <= |tem|
      invariant |rows| == i
      invariant forall k :: 0 <= k < i ==> |rows[k]| == teml && IsOneHot(rows[k], tem[k])
    {
      var row := new int[teml](_ => 0);
      row[tem[i]] := 1;
      rows := rows + [row[..]];
      i := i + 1;
    }
  }
}
