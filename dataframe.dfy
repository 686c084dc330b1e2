/** The slice of a pandas DataFrame the backend rules look at: named columns
    of equal length, each with a dtype and cells that may be missing. */
module DataFrame {
  import opened Wrappers
  import opened Seqs

  datatype Cell = Missing | Num(x: real) | Text(s: string)

  /** `object` (strings, mixed) versus the numeric and other dtypes. */
  datatype DType = ObjectDType | NumericDType | OtherDType

  datatype Column = Column(name: string, dtype: DType, cells: seq<Cell>)

  datatype Frame = Frame(columns: seq<Column>, rows: nat)
  {
    /** Every column has one cell per row and column names are unique. */
    ghost predicate Valid() {
      (forall i :: 0 <= i < |columns| ==> |columns[i].cells| == rows) &&
      UniqueNames(columns)
    }

    function Names(): (ns: seq<string>)
      ensures |ns| == |columns|
      ensures forall i :: 0 <= i < |columns| ==> ns[i] == columns[i].name
    {
      seq(|columns|, i requires 0 <= i < |columns| => columns[i].name)
    }

    /** `df[name]`: the column, or nothing (pandas raises KeyError). */
    function Find(name: string): (r: Option<nat>)
      ensures r.Some? ==> r.value < |columns| && columns[r.value].name == name
      ensures r.None? ==> forall i :: 0 <= i < |columns| ==> columns[i].name != name
    {
      FindFrom(name, 0)
    }

    function FindFrom(name: string, start: nat): (r: Option<nat>)
      requires start <= |columns|
      ensures r.Some? ==> start <= r.value < |columns| && columns[r.value].name == name
      ensures r.None? ==> forall i :: start <= i < |columns| ==> columns[i].name != name
      decreases |columns| - start
    {
      if start == |columns| then None
      else if columns[start].name == name then Some(start)
      else FindFrom(name, start + 1)
    }
  }

  ghost predicate UniqueNames(cols: seq<Column>) {
    forall i, j :: 0 <= i < j < |cols| ==> cols[i].name != cols[j].name
  }

  /** With unique names a column is determined by its name. */
  lemma NamesDiffer(cols: seq<Column>)
    requires UniqueNames(cols)
    ensures forall a, b :: a in cols && b in cols && a != b ==> a.name != b.name
  {
    forall a, b | a in cols && b in cols && a != b ensures a.name != b.name {
      var i :| 0 <= i < |cols| && cols[i] == a;
      var j :| 0 <= j < |cols| && cols[j] == b;
      assert i != j;
    }
  }

  /** The distinct non-missing values of a column. */
  function Distinct(cells: seq<Cell>): (d: set<Cell>)
    ensures forall c :: c in d <==> c in cells && c != Missing
  {
    set i | 0 <= i < |cells| && cells[i] != Missing :: cells[i]
  }

  /** `Series.nunique()`: missing values are not counted. */
  function NUnique(cells: seq<Cell>): (n: nat)
    ensures n <= |cells|
  {
    DistinctBound(cells);
    |Distinct(cells)|
  }

  lemma {:induction false} DistinctBound(cells: seq<Cell>)
    ensures |Distinct(cells)| <= |cells|
  {
    if cells != [] {
      var init, last := cells[..|cells| - 1], cells[|cells| - 1];
      DistinctBound(init);
      DistinctSnoc(init, last);
      SplitLast(cells);
    }
  }

  lemma DistinctSnoc(init: seq<Cell>, last: Cell)
    ensures last == Missing || last in Distinct(init) ==>
      Distinct(init + [last]) == Distinct(init)
    ensures last != Missing && last !in Distinct(init) ==>
      Distinct(init + [last]) == Distinct(init) + {last}
  {
  }

  /** All values present and pairwise different: the case the leakage rule
      treats as an identifier. */
  lemma {:induction false} AllDistinctNUnique(cells: seq<Cell>)
    requires forall i :: 0 <= i < |cells| ==> cells[i] != Missing
    requires forall i, j :: 0 <= i < j < |cells| ==> cells[i] != cells[j]
    ensures NUnique(cells) == |cells|
  {
    if cells != [] {
      var n := |cells| - 1;
      var init, last := cells[..n], cells[n];
      assert forall i :: 0 <= i < n ==> init[i] == cells[i];
      AllDistinctNUnique(init);
      assert last !in init by {
        forall i | 0 <= i < n ensures init[i] != last {
          assert cells[i] != cells[n];
        }
      }
      DistinctSnoc(init, last);
      SplitLast(cells);
    }
  }

  /** `df.drop(columns=names)` for names that are all present: the other
      columns, in order. */
  function DropColumns(df: Frame, names: set<string>): (r: Frame)
    ensures r.rows == df.rows
    ensures forall c :: c in r.columns <==> c in df.columns && c.name !in names
  {
    Frame(KeepColumns(df.columns, names), df.rows)
  }

  function KeepColumns(cols: seq<Column>, names: set<string>): (r: seq<Column>)
    ensures |r| <= |cols|
    ensures forall c :: c in r <==> c in cols && c.name !in names
  {
    if cols == [] then []
    else
      var last := cols[|cols| - 1];
      KeepColumns(cols[..|cols| - 1], names) + (if last.name in names then [] else [last])
  }
}
