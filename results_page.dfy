/** The results view (frontend/src/pages/ResultsPage.jsx): a summary of a
    finished run (dataset, tool, best accuracy, training time) and its
    leaderboard, with nullish and falsy fallbacks to "N/A". */
module ResultsPage {
  import opened Wrappers
  import opened Json
  import opened Strings

  const NA := Str("N/A")

  datatype TrainingTime = Seconds(x: real) | TimeNA
  datatype Latency = Ms(v: Value) | LatencyNA

  datatype Row = Row(modelId: Option<Value>, accuracy: Value, loss: Value, latency: Latency)

  datatype View =
    | MissingData
    | Summary(dataset: Option<Value>, tool: string, bestAccuracy: Value,
              trainingTime: TrainingTime, rows: seq<Row>)

  /** `obj.key` on any value: only objects have own fields here. */
  function Field(v: Value, key: string): Option<Value> {
    if v.Obj? then Get(v.fields, key) else None
  }

  /** A destructured field with a default, which applies to `undefined`
      only (not to `null`). */
  function WithDefault(v: Option<Value>, default: Value): Value {
    if v.Some? then v.value else default
  }

  /** `v ?? "N/A"` */
  function OrNA(v: Option<Value>): Value {
    Nullish(v, NA)
  }

  /** One leaderboard row; `null` has no properties. */
  function RowOf(m: Value): Result<Row, string> {
    if m == Null then Err("TypeError")
    else
      var latency := Field(m, "latency_ms");
      Ok(Row(Field(m, "model_id"), OrNA(Field(m, "accuracy")), OrNA(Field(m, "loss")),
             if JsTruthyOpt(latency) then Ms(latency.value) else LatencyNA))
  }

  function Rows(items: seq<Value>): (r: Result<seq<Row>, string>)
    ensures r.Ok? <==> forall i :: 0 <= i < |items| ==> items[i] != Null
    ensures r.Ok? ==> |r.value| == |items|
    ensures r.Ok? ==> forall i :: 0 <= i < |items| ==> RowOf(items[i]) == Ok(r.value[i])
  {
    if items == [] then Ok([])
    else
      var head := RowOf(items[0]);
      var tail := Rows(items[1..]);
      if head.Err? then Err(head.error)
      else if tail.Err? then Err(tail.error)
      else Ok([head.value] + tail.value)
  }

  /** `metrics.accuracy ?? leaderboard[0]?.accuracy ?? "N/A"` */
  function BestAccuracy(metrics: Value, leaderboard: seq<Value>): Value
    requires metrics != Null
  {
    var first := if leaderboard == [] || leaderboard[0] == Null then None else Field(leaderboard[0], "accuracy");
    Nullish(Field(metrics, "accuracy"), OrNA(first))
  }

  /** The whole page for the `data` prop. Reading `tool.toUpperCase()`,
      `metrics.accuracy` on `null`, or `.map` on a leaderboard that is not an
      array throws. */
  function Render(data: Option<Value>): Result<View, string> {
    if !JsTruthyOpt(data) then Ok(MissingData)
    else
      var d := data.value;
      var leaderboard := WithDefault(Field(d, "leaderboard"), Arr([]));
      var metrics := WithDefault(Field(d, "metrics"), Obj(map[]));
      var tool := Field(d, "tool");
      var time := Field(d, "training_time_sec");
      if metrics == Null || !leaderboard.Arr? then Err("TypeError")
      else if !(tool.Some? && tool.value.Str?) then Err("TypeError")
      else
        var rows := Rows(leaderboard.items);
        if rows.Err? then Err(rows.error)
        else Ok(Summary(Field(d, "dataset"), ToUpper(tool.value.s),
                        BestAccuracy(metrics, leaderboard.items),
                        if time.Some? && time.value.Num? then Seconds(time.value.x) else TimeNA,
                        rows.value))
  }

  /** Missing data shows only the "Missing dataset or tool" message. */
  lemma MissingDataOnly(data: Option<Value>)
    ensures Render(data) == Ok(MissingData) <==> !JsTruthyOpt(data)
  {
  }

  /** An absent leaderboard counts as empty and absent metrics as `{}`: a
      run with only a dataset and a tool renders with no rows and "N/A" for
      accuracy and time. */
  lemma DefaultsForBareRun(dataset: Value, tool: string)
    ensures Render(Some(Obj(map["dataset" := dataset, "tool" := Str(tool)]))) ==
      Ok(Summary(Some(dataset), ToUpper(tool), NA, TimeNA, []))
  {
    var d := Obj(map["dataset" := dataset, "tool" := Str(tool)]);
    assert Field(d, "leaderboard") == None && Field(d, "metrics") == None;
    assert Field(d, "training_time_sec") == None;
  }

  /** The best accuracy is the metrics' accuracy unless nullish, else the
      first leaderboard entry's unless nullish, else "N/A". */
  lemma BestAccuracyChain(metrics: Value, leaderboard: seq<Value>)
    requires metrics != Null
    ensures var m := Field(metrics, "accuracy");
      var f := if leaderboard == [] || leaderboard[0] == Null then None else Field(leaderboard[0], "accuracy");
      (m.Some? && m.value != Null ==> BestAccuracy(metrics, leaderboard) == m.value) &&
      ((m.None? || m.value == Null) && f.Some? && f.value != Null ==> BestAccuracy(metrics, leaderboard) == f.value) &&
      ((m.None? || m.value == Null) && (f.None? || f.value == Null) ==> BestAccuracy(metrics, leaderboard) == NA)
  {
  }

  /** The training time is shown only for a number; a numeric string such
      as "12.5" gives "N/A". */
  lemma TrainingTimeOnlyForNumbers(d: map<string, Value>, tool: string, t: Value)
    requires "tool" in d && d["tool"] == Str(tool) && "training_time_sec" in d && d["training_time_sec"] == t
    requires "leaderboard" !in d && "metrics" !in d
    ensures Render(Some(Obj(d))).Ok?
    ensures Render(Some(Obj(d))).value.trainingTime == (if t.Num? then Seconds(t.x) else TimeNA)
  {
  }

  /** A row's accuracy and loss fall back to "N/A" only when nullish, its
      latency whenever falsy, 0 included. */
  lemma RowFallbacks(m: map<string, Value>)
    ensures var r := RowOf(Obj(m));
      r.Ok? &&
      (r.value.accuracy == NA <==> "accuracy" !in m || m["accuracy"] == Null || m["accuracy"] == NA) &&
      (r.value.loss == NA <==> "loss" !in m || m["loss"] == Null || m["loss"] == NA) &&
      (r.value.latency == LatencyNA <==> "latency_ms" !in m || !JsTruthy(m["latency_ms"]))
  {
  }

  /** A zero latency shows "N/A" while a zero loss shows 0. */
  lemma ZeroLatencyIsNA()
    ensures RowOf(Obj(map["loss" := Num(0.0), "latency_ms" := Num(0.0)])) ==
      Ok(Row(None, NA, Num(0.0), LatencyNA))
  {
  }
}
