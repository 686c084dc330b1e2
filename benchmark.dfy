/** The benchmark table (frontend/src/pages/BenchmarkPage.jsx): the selected
    tool's record and the others side by side, each metric cell marked when
    it is the best or the worst of its column, and a "best tool" per metric. */
module Benchmark {
  import opened Wrappers
  import opened Json
  import opened Strings
  import Seqs

  /** `{ dataset: dataset ?? "*", tool: tool ?? "*" }` for the query
      parameters (`params.get` yields null for a missing one). */
  function RequestBody(qsDataset: Option<string>, qsTool: Option<string>): (body: Record)
    ensures body.Keys == {"dataset", "tool"}
    ensures body["dataset"] == Str(if qsDataset.Some? then qsDataset.value else "*")
    ensures body["tool"] == Str(if qsTool.Some? then qsTool.value else "*")
  {
    map["dataset" := Str(qsDataset.GetOr("*")), "tool" := Str(qsTool.GetOr("*"))]
  }

  /** `[data.selected, ...data.others]` */
  function Rows(selected: Record, others: seq<Record>): (rows: seq<Record>)
    ensures |rows| == |others| + 1 && rows[0] == selected && rows[1..] == others
  {
    [selected] + others
  }

  /** One column of the table: `r.<group>?.<key>` and its direction. */
  datatype Getter = Getter(group: string, key: string, lowerIsBetter: bool)

  const ACCURACY := Getter("metrics", "accuracy", false)
  const PRECISION := Getter("metrics", "precision", false)
  const RECALL := Getter("metrics", "recall", false)
  const F1 := Getter("metrics", "f1", false)
  const TRAIN_TIME := Getter("system", "train_time_sec", true)
  const CPU_PEAK := Getter("system", "cpu_peak_percent", true)
  const RAM_PEAK := Getter("system", "ram_peak_gb", true)

  const COLUMNS: seq<Getter> := [ACCURACY, PRECISION, RECALL, F1, TRAIN_TIME, CPU_PEAK, RAM_PEAK]

  /** `r.group?.key`: undefined unless `r.group` is an object holding `key`. */
  function Cell(r: Record, g: Getter): (v: Option<Value>)
    ensures v.Some? <==> g.group in r && r[g.group].Obj? && g.key in r[g.group].fields
  {
    if g.group in r && r[g.group].Obj? then Get(r[g.group].fields, g.key) else None
  }

  /** `fmt(v)` on a number whose `toString()` is `repr`: the decimal string
      handed back to `Number`, cut (not rounded) four places after the
      point, or nothing when the string has no point (fmt returns `v`). */
  function Truncated(repr: string): (r: Option<string>)
    ensures r.None? <==> '.' !in repr
    ensures r.Some? ==>
      var i := IndexOf(repr, '.');
      |r.value| == (if i + 5 <= |repr| then i + 5 else |repr|) &&
      r.value == repr[..|r.value|] && (|repr| <= i + 5 ==> r.value == repr)
  {
    if '.' !in repr then None
    else
      var i := IndexOf(repr, '.');
      Some(repr[..if i + 5 <= |repr| then i + 5 else |repr|])
  }

  /** What is left after the point has at most four characters, and the
      part before it is kept whole. */
  lemma TruncatedKeepsIntegerPart(repr: string)
    requires '.' in repr
    ensures var r, i := Truncated(repr).value, IndexOf(repr, '.');
      r[..i] == repr[..i] && r[i] == '.' && |r[i + 1..]| <= 4
  {
  }

  /** The cut ignores an exponent: a tiny value that prints in exponent
      form keeps its leading digits and loses its exponent, so
      1.23456789e-7 is shown as 1.2345. */
  lemma ExponentFormLosesExponent()
    ensures Truncated("1.23456789e-7") == Some("1.2345")
  {
    var repr := "1.23456789e-7";
    assert IndexOf(repr, '.') == 1;
    assert repr[..6] == "1.2345";
  }

  /** `extrema(getter, lowerIsBetter)`: `{}` when no cell is a number. */
  datatype Extrema = NoExtrema | Extrema(best: real, worst: real)

  function Numbers(cells: seq<Option<Value>>): (xs: seq<real>)
    ensures forall x :: x in xs <==> Some(Num(x)) in cells
  {
    if cells == [] then []
    else
      var rest := Numbers(cells[1..]);
      assert forall c :: c in cells <==> c == cells[0] || c in cells[1..];
      if cells[0].Some? && cells[0].value.Num? then [cells[0].value.x] + rest else rest
  }

  function MaxOf(xs: seq<real>): (m: real)
    requires xs != []
    ensures m in xs && forall x :: x in xs ==> x <= m
  {
    if |xs| == 1 then xs[0]
    else
      var m := MaxOf(xs[1..]);
      assert forall x :: x in xs ==> x == xs[0] || x in xs[1..];
      if xs[0] >= m then xs[0] else m
  }

  function MinOf(xs: seq<real>): (m: real)
    requires xs != []
    ensures m in xs && forall x :: x in xs ==> m <= x
  {
    if |xs| == 1 then xs[0]
    else
      var m := MinOf(xs[1..]);
      assert forall x :: x in xs ==> x == xs[0] || x in xs[1..];
      if xs[0] <= m then xs[0] else m
  }

  function ExtremaOf(rows: seq<Record>, g: Getter): Extrema {
    var xs := Numbers(seq(|rows|, i requires 0 <= i < |rows| => Cell(rows[i], g)));
    if xs == [] then NoExtrema
    else if g.lowerIsBetter then Extrema(MinOf(xs), MaxOf(xs))
    else Extrema(MaxOf(xs), MinOf(xs))
  }

  /** The number in row `i` of a column. */
  predicate HasNumber(rows: seq<Record>, g: Getter, i: int, x: real) {
    0 <= i < |rows| && Cell(rows[i], g) == Some(Num(x))
  }

  /** best and worst are numbers of the column; best is the largest (the
      smallest for lower-is-better columns) and worst the opposite; there
      are none exactly when the column holds no number. */
  lemma ExtremaSpec(rows: seq<Record>, g: Getter)
    ensures ExtremaOf(rows, g).NoExtrema? <==> forall i, x :: !HasNumber(rows, g, i, x)
    ensures ExtremaOf(rows, g).Extrema? ==>
      var e := ExtremaOf(rows, g);
      (exists i :: HasNumber(rows, g, i, e.best)) && (exists i :: HasNumber(rows, g, i, e.worst)) &&
      forall i, x :: HasNumber(rows, g, i, x) ==>
        if g.lowerIsBetter then e.best <= x <= e.worst else e.worst <= x <= e.best
  {
    var cells := seq(|rows|, i requires 0 <= i < |rows| => Cell(rows[i], g));
    forall i, x ensures HasNumber(rows, g, i, x) <==> 0 <= i < |rows| && cells[i] == Some(Num(x)) {
    }
    var xs := Numbers(cells);
    if xs != [] {
      var e := ExtremaOf(rows, g);
      var ib :| 0 <= ib < |cells| && cells[ib] == Some(Num(e.best));
      var iw :| 0 <= iw < |cells| && cells[iw] == Some(Num(e.worst));
      assert HasNumber(rows, g, ib, e.best) && HasNumber(rows, g, iw, e.worst);
    } else {
      forall i, x ensures !HasNumber(rows, g, i, x) {
        if 0 <= i < |rows| {
          assert x !in xs;
        }
      }
    }
  }

  /** `val === ex.best` / `val === ex.worst`: an undefined `ex.best` is
      matched by an undefined cell. */
  function Matches(v: Option<Value>, target: Option<real>): bool {
    if target.None? then v.None? else v == Some(Num(target.value))
  }

  function BestOf(e: Extrema): Option<real> {
    if e.Extrema? then Some(e.best) else None
  }

  function WorstOf(e: Extrema): Option<real> {
    if e.Extrema? then Some(e.worst) else None
  }

  /** The ▲ and ▼ markers of a cell. */
  datatype Marks = Marks(up: bool, down: bool)

  /** `render(val, ex)` as written. */
  function Render(v: Option<Value>, e: Extrema): (m: Marks)
    ensures e.Extrema? ==> (m.up <==> v == Some(Num(e.best))) && (m.down <==> v == Some(Num(e.worst)))
    ensures e.NoExtrema? ==> m == Marks(v.None?, v.None?)
  {
    Marks(Matches(v, BestOf(e)), Matches(v, WorstOf(e)))
  }

  /** When every number of a column is the same, each cell holding it gets
      both markers. */
  lemma EqualValuesMarkedTwice(rows: seq<Record>, g: Getter, i: int, x: real)
    requires HasNumber(rows, g, i, x)
    requires forall j, y :: HasNumber(rows, g, j, y) ==> y == x
    ensures Render(Cell(rows[i], g), ExtremaOf(rows, g)) == Marks(true, true)
  {
    ExtremaSpec(rows, g);
    var e := ExtremaOf(rows, g);
    var ib :| HasNumber(rows, g, ib, e.best);
    var iw :| HasNumber(rows, g, iw, e.worst);
  }

  /** As written, a column without numbers marks every empty cell both best
      and worst: two rows without `system` show ▲▼ in all three system
      columns. */
  lemma EmptyCellMarkedWithoutNumbers()
    ensures var rows := [map["tool" := Str("a")], map["tool" := Str("b")]];
      ExtremaOf(rows, TRAIN_TIME) == NoExtrema &&
      Render(Cell(rows[0], TRAIN_TIME), ExtremaOf(rows, TRAIN_TIME)) == Marks(true, true)
  {
    var rows: seq<Record> := [map["tool" := Str("a")], map["tool" := Str("b")]];
    ExtremaSpec(rows, TRAIN_TIME);
  }

  /** `render` with markers only on numbers. */
  function RenderCorrected(v: Option<Value>, e: Extrema): (m: Marks)
    ensures e.NoExtrema? ==> m == Marks(false, false)
    ensures e.Extrema? ==> m == Render(v, e)
  {
    if e.NoExtrema? then Marks(false, false) else Render(v, e)
  }

  /** Corrected, a marker means the cell holds the column's best or worst
      number, and every column with a number marks at least one cell each way. */
  lemma RenderCorrectedSpec(rows: seq<Record>, g: Getter)
    ensures forall i :: 0 <= i < |rows| ==>
      var m := RenderCorrected(Cell(rows[i], g), ExtremaOf(rows, g));
      (m.up || m.down) ==> exists x :: HasNumber(rows, g, i, x)
    ensures (exists i, x :: HasNumber(rows, g, i, x)) ==>
      (exists i :: 0 <= i < |rows| && RenderCorrected(Cell(rows[i], g), ExtremaOf(rows, g)).up) &&
      (exists i :: 0 <= i < |rows| && RenderCorrected(Cell(rows[i], g), ExtremaOf(rows, g)).down)
  {
    ExtremaSpec(rows, g);
    var e := ExtremaOf(rows, g);
    if e.Extrema? {
      var ib :| HasNumber(rows, g, ib, e.best);
      var iw :| HasNumber(rows, g, iw, e.worst);
      assert RenderCorrected(Cell(rows[ib], g), e).up;
      assert RenderCorrected(Cell(rows[iw], g), e).down;
      forall i | 0 <= i < |rows|
        ensures var m := RenderCorrected(Cell(rows[i], g), e);
          (m.up || m.down) ==> exists x :: HasNumber(rows, g, i, x)
      {
        var m := RenderCorrected(Cell(rows[i], g), e);
        if m.up { assert HasNumber(rows, g, i, e.best); }
        if m.down { assert HasNumber(rows, g, i, e.worst); }
      }
    }
  }

  /** `?.tool ?? "N/A"` of a found row. */
  function ToolName(found: Option<Record>): Value {
    if found.None? then Str("N/A") else Nullish(Get(found.value, "tool"), Str("N/A"))
  }

  /** Any of the seven cells of a row equals `best`. */
  predicate AnyCellMatches(r: Record, best: Option<real>) {
    exists g :: g in COLUMNS && Matches(Cell(r, g), best)
  }

  /** `rows.find(p)`: the first row satisfying `p`. */
  function FindRow(rows: seq<Record>, p: Record -> bool): (r: Option<Record>)
    ensures r.None? <==> forall x :: x in rows ==> !p(x)
    ensures r.Some? ==> exists i ::
      0 <= i < |rows| && rows[i] == r.value && p(rows[i]) &&
      forall j :: 0 <= j < i ==> !p(rows[j])
  {
    var i := Seqs.FirstIndex(rows, p, 0);
    if i.Some? then Some(rows[i.value]) else None
  }

  function AnyCell(best: Option<real>): Record -> bool {
    r => AnyCellMatches(r, best)
  }

  /** The "Best Tool" cell as written: the first row where ANY of the seven
      cells equals the column's best. */
  function BestToolAsWritten(rows: seq<Record>, g: Getter): Value {
    ToolName(FindRow(rows, AnyCell(BestOf(ExtremaOf(rows, g)))))
  }

  /** As written, the best accuracy 0.9 of tool "b" is credited to tool "a",
      whose precision happens to be 0.9. */
  lemma BestToolCreditsOtherColumn()
    ensures var a := map["tool" := Str("a"),
                         "metrics" := Obj(map["accuracy" := Num(0.8), "precision" := Num(0.9)])];
      var b := map["tool" := Str("b"), "metrics" := Obj(map["accuracy" := Num(0.9)])];
      ExtremaOf([a, b], ACCURACY) == Extrema(0.9, 0.8) &&
      BestToolAsWritten([a, b], ACCURACY) == Str("a")
  {
    var a: Record := map["tool" := Str("a"),
                         "metrics" := Obj(map["accuracy" := Num(0.8), "precision" := Num(0.9)])];
    var b: Record := map["tool" := Str("b"), "metrics" := Obj(map["accuracy" := Num(0.9)])];
    var cells := seq(2, i requires 0 <= i < 2 => Cell([a, b][i], ACCURACY));
    assert cells == [Some(Num(0.8)), Some(Num(0.9))];
    assert cells[1..] == [Some(Num(0.9))];
    assert Numbers(cells[1..][1..]) == [];
    assert Numbers(cells) == [0.8, 0.9];
    assert Matches(Cell(a, PRECISION), Some(0.9));
    assert AnyCellMatches(a, Some(0.9));
  }

  function SameCell(g: Getter, best: real): Record -> bool {
    r => Cell(r, g) == Some(Num(best))
  }

  /** The "Best Tool" cell looking only at its own column, and "N/A" for a
      column without numbers. */
  function BestToolFor(rows: seq<Record>, g: Getter): Value {
    match ExtremaOf(rows, g)
    case NoExtrema => Str("N/A")
    case Extrema(best, _) => ToolName(FindRow(rows, SameCell(g, best)))
  }

  /** Corrected, the tool shown is that of the first row holding the
      column's best number, and "N/A" only when the column has no number
      (or that row has no tool). */
  lemma BestToolForSpec(rows: seq<Record>, g: Getter)
    ensures ExtremaOf(rows, g).NoExtrema? ==> BestToolFor(rows, g) == Str("N/A")
    ensures ExtremaOf(rows, g).Extrema? ==>
      var best := ExtremaOf(rows, g).best;
      exists i :: HasNumber(rows, g, i, best) &&
        (forall j :: 0 <= j < i ==> !HasNumber(rows, g, j, best)) &&
        BestToolFor(rows, g) == Nullish(Get(rows[i], "tool"), Str("N/A"))
  {
    ExtremaSpec(rows, g);
    if ExtremaOf(rows, g).Extrema? {
      var best := ExtremaOf(rows, g).best;
      var p := SameCell(g, best);
      var ib :| HasNumber(rows, g, ib, best);
      assert p(rows[ib]);
      var k := Seqs.FirstIndex(rows, p, 0);
      var i := k.value;
      assert BestToolFor(rows, g) == ToolName(Some(rows[i]));
      assert HasNumber(rows, g, i, best);
      forall j | 0 <= j < i ensures !HasNumber(rows, g, j, best) {
        assert !p(rows[j]);
      }
    }
  }
}
