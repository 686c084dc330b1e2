/** The backend's train/test preparation (backend/splitter.py): columns that
    look like identifiers are dropped, then the target is separated from the
    features. */
module Splitter {
  import opened Wrappers
  import opened Strings
  import opened Seqs
  import opened DataFrame

  const ID_NAMES: seq<string> := ["id", "index", "uid"]

  /** The leakage rule for one column of a frame with `rows` rows: an
      identifier-like name (compared lower-cased), or one distinct value per
      row. `str.lower` sends no non-ASCII character to an ASCII letter other
      than through the ASCII letters themselves, so ASCII lower-casing decides
      these three names exactly. */
  predicate Leaky(rows: nat, c: Column) {
    ToLower(c.name) in ID_NAMES || NUnique(c.cells) == rows
  }

  function IsLeaky(rows: nat): Column -> bool {
    c => Leaky(rows, c)
  }

  function IsKept(rows: nat): Column -> bool {
    c => !Leaky(rows, c)
  }

  function NamesOf(cols: seq<Column>): (ns: seq<string>)
    ensures |ns| == |cols|
    ensures forall i :: 0 <= i < |cols| ==> ns[i] == cols[i].name
  {
    seq(|cols|, i requires 0 <= i < |cols| => cols[i].name)
  }

  /** The `drop_cols` list `_drop_leakage_columns` builds. */
  function LeakyNames(df: Frame): seq<string> {
    NamesOf(Filter(df.columns, IsLeaky(df.rows)))
  }

  /** `_drop_leakage_columns(df)`: the frame without the leaky columns and
      the names dropped, in column order. */
  function DropLeakage(df: Frame): (Frame, seq<string>) {
    var dropped := LeakyNames(df);
    (DropColumns(df, set n | n in dropped), dropped)
  }

  /** A column's name is among the names of the columns a filter keeps
      exactly when the filter keeps that column (names are unique). */
  lemma NamesOfFilter(cols: seq<Column>, p: Column -> bool, c: Column)
    requires UniqueNames(cols) && c in cols
    ensures c.name in NamesOf(Filter(cols, p)) <==> p(c)
  {
    var kept := Filter(cols, p);
    if p(c) {
      var k :| 0 <= k < |kept| && kept[k] == c;
      assert NamesOf(kept)[k] == c.name;
    }
    if c.name in NamesOf(kept) {
      var k :| 0 <= k < |kept| && NamesOf(kept)[k] == c.name;
      assert kept[k] in kept;
      NamesDiffer(cols);
      assert kept[k] == c;
    }
  }

  /** Dropping by name removes exactly the leaky columns and keeps the rest
      in order. */
  lemma DropLeakageKeepsOthers(df: Frame)
    requires df.Valid()
    ensures DropLeakage(df).0.columns == Filter(df.columns, IsKept(df.rows))
    ensures DropLeakage(df).0.rows == df.rows
  {
    var names := set n | n in LeakyNames(df);
    forall c | c in df.columns ensures c.name in names <==> Leaky(df.rows, c) {
      NamesOfFilter(df.columns, IsLeaky(df.rows), c);
    }
    KeepIsFilter(df.columns, df.rows, names);
  }

  lemma {:induction false} KeepIsFilter(cols: seq<Column>, rows: nat, names: set<string>)
    requires forall c :: c in cols ==> (c.name in names <==> Leaky(rows, c))
    ensures KeepColumns(cols, names) == Filter(cols, IsKept(rows))
  {
    if cols != [] {
      KeepIsFilter(cols[..|cols| - 1], rows, names);
    }
  }

  /** The `_drop_leakage_columns` loop. */
  method DropLeakageColumns(df: Frame) returns (cleaned: Frame, dropped: seq<string>)
    ensures (cleaned, dropped) == DropLeakage(df)
  {
    var dropCols: seq<Column> := [];
    var i := 0;
    while i < |df.columns|
      invariant 0 <= i <= |df.columns|
      invariant dropCols == Filter(df.columns[..i], IsLeaky(df.rows))
    {
      FilterPrefixStep(df.columns, i, IsLeaky(df.rows));
      var c := df.columns[i];
      if ToLower(c.name) in ID_NAMES {
        dropCols := dropCols + [c];
      } else if NUnique(c.cells) == df.rows {
        dropCols := dropCols + [c];
      }
      i := i + 1;
    }
    assert df.columns[..|df.columns|] == df.columns;
    dropped := NamesOf(dropCols);
    cleaned := DropColumns(df, set n | n in dropped);
  }

  /** What `split_data` hands to `train_test_split`. */
  datatype Prepared = Prepared(x: Frame, y: Column, stratify: bool, dropped: seq<string>)

  /** `split_data(df, target, task)` as written: the target goes through the
      leakage rule like any column, and `df.drop(columns=[target])` on a
      frame without it raises KeyError. */
  function SplitData(df: Frame, target: string, task: string): (r: Result<Prepared, string>)
    ensures r.Err? <==> DropLeakage(df).0.Find(target).None?
    ensures r.Err? ==> r.error == "KeyError"
    ensures r.Ok? ==> r.value.y.name == target && r.value.stratify == (task == "classification")
    ensures r.Ok? ==> forall c :: c in r.value.x.columns <==> c in DropLeakage(df).0.columns && c.name != target
  {
    var (cleaned, dropped) := DropLeakage(df);
    match cleaned.Find(target)
    case None => Err("KeyError")
    case Some(k) =>
      Ok(Prepared(DropColumns(cleaned, {target}), cleaned.columns[k], task == "classification", dropped))
  }

  /** A target that the leakage rule catches makes `split_data` fail. */
  lemma LeakyTargetFails(df: Frame, target: string, task: string)
    requires df.Valid()
    requires exists c :: c in df.columns && c.name == target && Leaky(df.rows, c)
    ensures SplitData(df, target, task) == Err("KeyError")
  {
    DropLeakageKeepsOthers(df);
    NamesDiffer(df.columns);
    var t :| t in df.columns && t.name == target && Leaky(df.rows, t);
    var cleaned := DropLeakage(df).0;
    forall c | c in cleaned.columns ensures c.name != target {
      assert c in df.columns && c != t;
    }
  }

  /** Three house prices, a regression target with one value per row. */
  const HOUSES := Frame([
      Column("rooms", NumericDType, [Num(2.0), Num(2.0), Num(3.0)]),
      Column("price", NumericDType, [Num(100.0), Num(150.0), Num(210.0)])
    ], 3)

  /** The ordinary regression call fails: "price" is dropped as leakage and
      then cannot be separated. */
  lemma RegressionTargetDropped()
    ensures SplitData(HOUSES, "price", "regression") == Err("KeyError")
  {
    var price := HOUSES.columns[1];
    AllDistinctNUnique(price.cells);
    assert HOUSES.columns[0].name != HOUSES.columns[1].name;
    LeakyTargetFails(HOUSES, "price", "regression");
  }

  /** The leakage rule applied to the features only: the target is exempt. */
  function DropLeakageExcept(df: Frame, target: string): Frame {
    var dropped := NamesOf(Filter(df.columns, IsLeakyFeature(df.rows, target)));
    DropColumns(df, set n | n in dropped)
  }

  function IsLeakyFeature(rows: nat, target: string): Column -> bool {
    (c: Column) => c.name != target && Leaky(rows, c)
  }

  /** `split_data` with the target exempt from the leakage rule. */
  function SplitDataCorrected(df: Frame, target: string, task: string): Result<Prepared, string> {
    var cleaned := DropLeakageExcept(df, target);
    match cleaned.Find(target)
    case None => Err("KeyError")
    case Some(k) =>
      var dropped := NamesOf(Filter(df.columns, IsLeakyFeature(df.rows, target)));
      Ok(Prepared(DropColumns(cleaned, {target}), cleaned.columns[k], task == "classification", dropped))
  }

  /** With the exemption, separation fails only when the target is not a
      column at all, and y is then the frame's own target column. */
  lemma SplitDataCorrectedSeparates(df: Frame, target: string, task: string)
    requires df.Valid()
    ensures SplitDataCorrected(df, target, task).Ok? <==> df.Find(target).Some?
    ensures SplitDataCorrected(df, target, task).Ok? ==>
      var p := SplitDataCorrected(df, target, task).value;
      p.y == df.columns[df.Find(target).value] &&
      p.stratify == (task == "classification") &&
      (forall c :: c in p.x.columns <==> c in df.columns && c.name != target && !Leaky(df.rows, c))
  {
    var cleaned := DropLeakageExcept(df, target);
    ExceptKeeps(df, target);
    FeaturesKept(df, target);
    NamesDiffer(df.columns);
    if df.Find(target).Some? {
      var c := df.columns[df.Find(target).value];
      assert c in cleaned.columns;
      var i :| 0 <= i < |cleaned.columns| && cleaned.columns[i] == c;
      var k := cleaned.Find(target).value;
      assert cleaned.columns[k] in df.columns;
      assert cleaned.columns[k] == c;
    } else {
      assert cleaned.Find(target).None?;
    }
  }

  /** The features left once the target is separated: every other column
      that is not leaky. */
  lemma FeaturesKept(df: Frame, target: string)
    requires df.Valid()
    ensures forall c :: c in DropColumns(DropLeakageExcept(df, target), {target}).columns <==>
      c in df.columns && c.name != target && !Leaky(df.rows, c)
  {
    ExceptKeeps(df, target);
  }

  /** The exempt rule keeps the target and every column that is not leaky. */
  lemma ExceptKeeps(df: Frame, target: string)
    requires df.Valid()
    ensures forall c :: c in DropLeakageExcept(df, target).columns <==>
      c in df.columns && (c.name == target || !Leaky(df.rows, c))
  {
    var leaky := IsLeakyFeature(df.rows, target);
    forall c | c in df.columns
      ensures c.name in NamesOf(Filter(df.columns, leaky)) <==> c.name != target && Leaky(df.rows, c)
    {
      NamesOfFilter(df.columns, leaky, c);
    }
  }

  /** The corrected version agrees with the written one whenever the target
      escapes the leakage rule. */
  lemma CorrectedAgreesOnSafeTarget(df: Frame, target: string, task: string)
    requires df.Valid()
    requires forall c :: c in df.columns && c.name == target ==> !Leaky(df.rows, c)
    ensures SplitDataCorrected(df, target, task) == SplitData(df, target, task)
  {
    assert Filter(df.columns, IsLeakyFeature(df.rows, target)) == Filter(df.columns, IsLeaky(df.rows)) by {
      SameFilter(df.columns, df.rows, target);
    }
  }

  lemma {:induction false} SameFilter(cols: seq<Column>, rows: nat, target: string)
    requires forall c :: c in cols && c.name == target ==> !Leaky(rows, c)
    ensures Filter(cols, IsLeakyFeature(rows, target)) == Filter(cols, IsLeaky(rows))
  {
    if cols != [] {
      SameFilter(cols[..|cols| - 1], rows, target);
    }
  }
}
