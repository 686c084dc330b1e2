/** The side-by-side comparison (frontend/src/pages/ComparePage.jsx) of the
    stored experiments picked on the experiments list: per metric, the best
    value, whether a cell holds it, the tool that reached it first and the
    direction of each row's change against the first row. */
module ComparePage {
  import opened Wrappers
  import opened Json
  import opened Seqs

  /** `parseFloat` on a string: `None` stands for NaN. Its digits-prefix
      rule is not written out, so every member takes it as a parameter. */
  type Parser = string -> Option<real>

  const LOWER_IS_BETTER: seq<string> := ["training_time_sec", "cpu_peak", "ram_peak"]

  const METRIC_KEYS: seq<string> :=
    ["accuracy", "precision", "recall", "f1", "training_time_sec", "cpu_peak", "ram_peak"]

  predicate LowerIsBetter(key: string) {
    key in LOWER_IS_BETTER
  }

  /** The experiments shown for `location.state?.experimentIds || []`:
      `None` when there are no ids (the page redirects), otherwise the stored
      experiments whose id is among them, in stored order. The experiments
      are parsed afresh, so an object or array id is `includes`d by none of
      the ids. */
  function Selection(stored: seq<Record>, ids: seq<Ident>): (r: Option<seq<Record>>)
    ensures r.None? <==> ids == []
    ensures r.Some? ==> forall e :: e in r.value <==>
      e in stored && !IsReference(Get(e, "id")) && Primitive(Get(e, "id")) in ids
  {
    if ids == [] then None else Some(Filter(stored, IdIn(ids)))
  }

  function IdIn(ids: seq<Ident>): Record -> bool {
    e => !IsReference(Get(e, "id")) && Primitive(Get(e, "id")) in ids
  }

  /** Showing a selection keeps the stored order. */
  lemma SelectionInOrder(stored: seq<Record>, ids: seq<Ident>)
    requires ids != []
    ensures IsSubsequence(Selection(stored, ids).value, stored)
  {
    FilterIsSubsequence(stored, IdIn(ids));
  }

  /** When every stored id is an object or an array, nothing is selected,
      whatever ids are handed over, and the page renders nothing. */
  lemma ObjectIdsSelectNothing(stored: seq<Record>, ids: seq<Ident>)
    requires ids != []
    requires forall e :: e in stored ==> IsReference(Get(e, "id"))
    ensures Selection(stored, ids) == Some([])
  {
    CountNone(stored, IdIn(ids));
  }

  /** `e.metrics?.[key] || 0` */
  function MetricValue(e: Record, key: string): (v: Value)
    ensures JsTruthy(v) || v == Num(0.0)
  {
    var raw := if "metrics" in e && e["metrics"].Obj? then Get(e["metrics"].fields, key) else None;
    if JsTruthyOpt(raw) then raw.value else Num(0.0)
  }

  /** `parseFloat(v)`: numbers as they are, a `toFixed` string as the
      rounded number it spells, and anything else through `parse` applied to the
      string JavaScript converts it to; an array holding a number, whose
      digits are not spelled out, gives NaN. */
  function ParseValue(v: Value, parse: Parser): (r: Option<real>)
    ensures v.Num? ==> r == Some(v.x)
    ensures v.Fixed? ==> r == Some(FixedValue(v.x, v.digits))
    ensures !v.Num? && !v.Fixed? && JsText(v).Some? ==> r == parse(JsText(v).value)
  {
    match v
    case Num(x) => Some(x)
    case Fixed(x, d) => Some(FixedValue(x, d))
    case _ =>
      match JsText(v)
      case Some(t) => parse(t)
      case None => None
  }

  /** The figures the mock store generates read back as the numbers they
      were formatted from: metrics with at most three decimals shown to
      four places, and whole numbers shown to one or two. */
  lemma GeneratedFiguresReadBack(k: int, n: int, parse: Parser)
    ensures ParseValue(Fixed(k as real / 1000.0, 4), parse) == Some(k as real / 1000.0)
    ensures ParseValue(Fixed(n as real, 1), parse) == Some(n as real)
    ensures ParseValue(Fixed(n as real, 2), parse) == Some(n as real)
  {
    assert Pow10(4) == 10000 && Pow10(2) == 100 && Pow10(1) == 10;
    RoundedToExact(k as real / 1000.0, 10 * k, 10000.0);
    RoundedToExact(n as real, 10 * n, 10.0);
    RoundedToExact(n as real, 100 * n, 100.0);
  }

  function Parsed(e: Record, key: string, parse: Parser): Option<real> {
    ParseValue(MetricValue(e, key), parse)
  }

  /** `Math.max(...values)` / `Math.min(...values)`: NaN as soon as one
      value is NaN. */
  function Extreme(values: seq<Option<real>>, lower: bool): (r: Option<real>)
    requires values != []
    ensures r.Some? <==> forall v :: v in values ==> v.Some?
    ensures r.Some? ==> r in values
    ensures r.Some? ==> forall v :: v in values ==>
      if lower then r.value <= v.value else v.value <= r.value
  {
    if |values| == 1 then values[0]
    else
      var rest := Extreme(values[1..], lower);
      assert forall v :: v in values <==> v == values[0] || v in values[1..];
      if values[0].None? || rest.None? then None
      else if lower then (if values[0].value <= rest.value then values[0] else rest)
      else (if values[0].value >= rest.value then values[0] else rest)
  }

  function Values(experiments: seq<Record>, key: string, parse: Parser): (vs: seq<Option<real>>)
    ensures |vs| == |experiments|
    ensures forall i :: 0 <= i < |experiments| ==> vs[i] == Parsed(experiments[i], key, parse)
  {
    seq(|experiments|, i requires 0 <= i < |experiments| => Parsed(experiments[i], key, parse))
  }

  /** `getBestValue(key)`; the page renders nothing for an empty selection,
      so it is only asked about a non-empty one. */
  function BestValue(experiments: seq<Record>, key: string, parse: Parser): Option<real>
    requires experiments != []
  {
    Extreme(Values(experiments, key, parse), LowerIsBetter(key))
  }

  /** The best value is a number exactly when every experiment's value is;
      it is then held by some experiment and no experiment does better. */
  lemma BestValueSpec(experiments: seq<Record>, key: string, parse: Parser)
    requires experiments != []
    ensures var b := BestValue(experiments, key, parse);
      b.Some? <==> forall i :: 0 <= i < |experiments| ==> Parsed(experiments[i], key, parse).Some?
    ensures var b := BestValue(experiments, key, parse);
      b.Some? ==>
        (exists i :: 0 <= i < |experiments| && Parsed(experiments[i], key, parse) == b) &&
        forall i :: 0 <= i < |experiments| ==>
          var v := Parsed(experiments[i], key, parse).value;
          if LowerIsBetter(key) then b.value <= v else v <= b.value
  {
    var vs := Values(experiments, key, parse);
    assert forall i :: 0 <= i < |experiments| ==> vs[i] in vs;
    var b := BestValue(experiments, key, parse);
    if b.Some? {
      var i :| 0 <= i < |vs| && vs[i] == b;
    }
  }

  /** `isBest(val, key)` for the cell of experiment `i`. */
  predicate IsBest(experiments: seq<Record>, i: nat, key: string, parse: Parser)
    requires i < |experiments|
  {
    var b := BestValue(experiments, key, parse);
    var v := Parsed(experiments[i], key, parse);
    v.Some? && b.Some? && v.value == b.value
  }

  /** With every value a number, some cell of each metric is highlighted,
      and a highlighted cell is never beaten. */
  lemma SomeCellIsBest(experiments: seq<Record>, key: string, parse: Parser)
    requires experiments != []
    requires forall i :: 0 <= i < |experiments| ==> Parsed(experiments[i], key, parse).Some?
    ensures exists i :: 0 <= i < |experiments| && IsBest(experiments, i, key, parse)
    ensures forall i, j ::
      0 <= i < |experiments| && 0 <= j < |experiments| && IsBest(experiments, i, key, parse) ==>
        var vi, vj := Parsed(experiments[i], key, parse).value, Parsed(experiments[j], key, parse).value;
        if LowerIsBetter(key) then vi <= vj else vj <= vi
  {
    BestValueSpec(experiments, key, parse);
    var b := BestValue(experiments, key, parse);
    var i :| 0 <= i < |experiments| && Parsed(experiments[i], key, parse) == b;
    assert IsBest(experiments, i, key, parse);
  }

  function AttainsBest(experiments: seq<Record>, key: string, parse: Parser, b: Option<real>): Record -> bool {
    e => var v := Parsed(e, key, parse); v.Some? && b.Some? && v.value == b.value
  }

  /** `getBestToolName(key)`: the `model` of the first experiment holding the
      best value (undefined when it has none), or "N/A". */
  function BestToolName(experiments: seq<Record>, key: string, parse: Parser): (r: Option<Value>)
    requires experiments != []
  {
    var b := BestValue(experiments, key, parse);
    var i := FirstIndex(experiments, AttainsBest(experiments, key, parse, b), 0);
    if i.Some? then Get(experiments[i.value], "model") else Some(Str("N/A"))
  }

  /** The tool named is that of the first highlighted cell; "N/A" appears
      exactly when no cell is highlighted, which needs a NaN value. */
  lemma BestToolNameSpec(experiments: seq<Record>, key: string, parse: Parser)
    requires experiments != []
    ensures (BestToolName(experiments, key, parse) == Some(Str("N/A")) &&
        forall i :: 0 <= i < |experiments| ==> !IsBest(experiments, i, key, parse)) ||
      exists i ::
        0 <= i < |experiments| && IsBest(experiments, i, key, parse) &&
        (forall j :: 0 <= j < i ==> !IsBest(experiments, j, key, parse)) &&
        BestToolName(experiments, key, parse) == Get(experiments[i], "model")
    ensures (forall i :: 0 <= i < |experiments| ==> Parsed(experiments[i], key, parse).Some?) ==>
      exists i :: 0 <= i < |experiments| && IsBest(experiments, i, key, parse)
  {
    BestValueSpec(experiments, key, parse);
    if forall i :: 0 <= i < |experiments| ==> Parsed(experiments[i], key, parse).Some? {
      SomeCellIsBest(experiments, key, parse);
    }
  }

  /** The arrow `renderDelta` draws. */
  datatype Delta = NoDelta | Arrow(improved: bool)

  /** `renderDelta(val, key, index)` for the cell of experiment `index`. A
      NaN difference is not below the threshold, and counts as a decline. */
  function RenderDelta(experiments: seq<Record>, key: string, index: nat, parse: Parser): (d: Delta)
    requires index < |experiments|
  {
    if index == 0 then NoDelta
    else
      var baseline := Parsed(experiments[0], key, parse);
      var current := Parsed(experiments[index], key, parse);
      if baseline.Some? && current.Some? then
        var diff := current.value - baseline.value;
        if -0.0001 < diff < 0.0001 then NoDelta
        else Arrow(if LowerIsBetter(key) then diff < 0.0 else diff > 0.0)
      else Arrow(false)
  }

  /** No arrow on the first row or for changes under 0.0001; otherwise the
      arrow says "improved" exactly when the change goes the metric's good
      way: up, or down for time, CPU and RAM. */
  lemma RenderDeltaSpec(experiments: seq<Record>, key: string, index: nat, parse: Parser)
    requires index < |experiments|
    requires Parsed(experiments[0], key, parse).Some? && Parsed(experiments[index], key, parse).Some?
    ensures var diff := Parsed(experiments[index], key, parse).value - Parsed(experiments[0], key, parse).value;
      var d := RenderDelta(experiments, key, index, parse);
      (d == NoDelta <==> index == 0 || (-0.0001 < diff < 0.0001)) &&
      (d.Arrow? ==> (d.improved <==> (if LowerIsBetter(key) then diff < 0.0 else diff > 0.0)))
  {
  }

  /** A row compared with itself never gets an arrow. */
  lemma NoDeltaAgainstEqual(experiments: seq<Record>, key: string, index: nat, parse: Parser)
    requires 0 < index < |experiments|
    requires Parsed(experiments[index], key, parse) == Parsed(experiments[0], key, parse)
    requires Parsed(experiments[0], key, parse).Some?
    ensures RenderDelta(experiments, key, index, parse) == NoDelta
  {
  }
}
