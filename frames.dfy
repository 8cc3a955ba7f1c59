/**
  Data frames as the pipeline sees them: an ordered list of column names and
  a list of rows, each row holding one cell per column. A cell is either a
  value or missing (pandas' NaN).
 */
module Frames {

  datatype Cell = Value(text: string) | Missing

  datatype Frame = Frame(columns: seq<string>, rows: seq<seq<Cell>>)

  /** `DataFrame.shape`: (number of rows, number of columns). */
  function Shape(f: Frame): (nat, nat)
  {
    (|f.rows|, |f.columns|)
  }

  /** The cells of the column at position `i`, one per row; a row too short to reach it reads as missing. */
  function ColumnAt(f: Frame, i: nat): (cells: seq<Cell>)
    ensures |cells| == |f.rows|
  {
    seq(|f.rows|, k requires 0 <= k < |f.rows| => if i < |f.rows[k]| then f.rows[k][i] else Missing)
  }

  /** Position of the first column called `name`. */
  function IndexOf(columns: seq<string>, name: string): (i: nat)
    requires name in columns
    ensures i < |columns| && columns[i] == name
    ensures forall j :: 0 <= j < i ==> columns[j] != name
  {
    if columns[0] == name then 0 else 1 + IndexOf(columns[1..], name)
  }

  /** `frame[name]`. */
  function Column(f: Frame, name: string): (cells: seq<Cell>)
    requires name in f.columns
    ensures |cells| == |f.rows|
  {
    ColumnAt(f, IndexOf(f.columns, name))
  }

  /** The distinct values of a column, missing cells left out. */
  function Distinct(cells: seq<Cell>): set<string>
  {
    set k | 0 <= k < |cells| && cells[k].Value? :: cells[k].text
  }

  lemma {:induction false} DistinctBound(cells: seq<Cell>)
    ensures |Distinct(cells)| <= |cells|
  {
    if |cells| > 0 {
      var init := cells[..|cells| - 1];
      DistinctBound(init);
      var last := cells[|cells| - 1];
      var extra := if last.Value? then {last.text} else {};
      assert Distinct(cells) <= Distinct(init) + extra by {
        forall x | x in Distinct(cells) ensures x in Distinct(init) + extra {
          var k :| 0 <= k < |cells| && cells[k].Value? && cells[k].text == x;
          if k < |cells| - 1 {
            assert init[k] == cells[k];
          }
        }
      }
      assert |Distinct(init) + extra| <= |Distinct(init)| + |extra|;
      SubsetCardinality(Distinct(cells), Distinct(init) + extra);
    }
  }

  lemma DistinctEmpty(cells: seq<Cell>)
    ensures Distinct(cells) == {} <==> forall k :: 0 <= k < |cells| ==> cells[k].Missing?
  {
    if exists k :: 0 <= k < |cells| && cells[k].Value? {
      var k :| 0 <= k < |cells| && cells[k].Value?;
      assert cells[k].text in Distinct(cells);
    }
  }

  lemma SubsetCardinality(a: set<string>, b: set<string>)
    requires a <= b
    ensures |a| <= |b|
  {
    assert b == a + (b - a);
  }

  /**
    `Series.nunique()`: the number of distinct values, missing values not
    counted. It never exceeds the number of rows, and it is zero exactly
    when every cell is missing.
   */
  function NUnique(cells: seq<Cell>): (n: nat)
    ensures n <= |cells|
    ensures n == 0 <==> forall k :: 0 <= k < |cells| ==> cells[k].Missing?
  {
    DistinctBound(cells);
    DistinctEmpty(cells);
    |Distinct(cells)|
  }
}
