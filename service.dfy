/** The backend's comparison service (backend/compare/service.py): the
    stored results of one dataset, split into the selected tool's record and
    the others, plus the best value of every metric and the tool that
    reached it first. */
module Service {
  import opened Wrappers
  import opened Json
  import opened Seqs
  import Registry

  /** A `best_per_metric` entry: `{"tool": ..., "value": ...}`. */
  datatype Best = Best(tool: Value, value: Value)

  datatype Comparison = Comparison(
    selected: Option<Record>,
    others: seq<Record>,
    bestPerMetric: map<string, Best>)

  predicate HasDataset(dataset: Value, r: Record) {
    "dataset" in r && r["dataset"] == dataset
  }

  function OfDataset(dataset: Value): Record -> bool {
    r => HasDataset(dataset, r)
  }

  predicate ToolDiffers(tool: Value, r: Record) {
    "tool" in r && r["tool"] != tool
  }

  function OtherTool(tool: Value): Record -> bool {
    r => ToolDiffers(tool, r)
  }

  function SameTool(tool: Value): Record -> bool {
    r => "tool" in r && r["tool"] == tool
  }

  /** `[r for r in load_results() if r["dataset"] == dataset]`: a record
      without "dataset" raises KeyError. */
  function Considered(data: seq<Record>, dataset: Value): (r: Result<seq<Record>, string>)
    ensures r.Err? <==> exists x :: x in data && "dataset" !in x
    ensures r.Ok? ==> r.value == Filter(data, OfDataset(dataset))
  {
    if exists x :: x in data && "dataset" !in x then Err("KeyError")
    else Ok(Filter(data, OfDataset(dataset)))
  }

  /** The selection loop keeps the LAST record of the selected tool. */
  function SelectedOf(records: seq<Record>, tool: Value): (r: Option<Record>)
    ensures r.Some? <==> exists x :: x in records && SameTool(tool)(x)
    ensures r.Some? ==> r.value in records && SameTool(tool)(r.value)
  {
    if records == [] then None
    else if SameTool(tool)(records[|records| - 1]) then Some(records[|records| - 1])
    else SelectedOf(records[..|records| - 1], tool)
  }

  /** A record is the last of its tool when no later record has that tool. */
  lemma {:induction false} SelectedIsLast(records: seq<Record>, tool: Value)
    requires SelectedOf(records, tool).Some?
    ensures exists i ::
      0 <= i < |records| && records[i] == SelectedOf(records, tool).value &&
      (forall j :: i < j < |records| ==> !SameTool(tool)(records[j]))
  {
    var n := |records| - 1;
    if !SameTool(tool)(records[n]) {
      var init := records[..n];
      SelectedIsLast(init, tool);
      var i :| 0 <= i < |init| && init[i] == SelectedOf(init, tool).value &&
        forall j :: i < j < |init| ==> !SameTool(tool)(init[j]);
      assert forall j :: i < j < |records| ==> !SameTool(tool)(records[j]) by {
        forall j | i < j < |records| ensures !SameTool(tool)(records[j]) {
          if j < n { assert records[j] == init[j]; }
        }
      }
    } else {
      assert records[n] == SelectedOf(records, tool).value;
    }
  }

  /** Every record carrying "tool" is either of the selected tool or among
      the others; the others number |records| - (records of that tool). */
  lemma {:induction false} PartitionCount(records: seq<Record>, tool: Value)
    requires forall x :: x in records ==> "tool" in x
    ensures |Filter(records, OtherTool(tool))| + Count(records, SameTool(tool)) == |records|
    ensures SelectedOf(records, tool).None? <==> Count(records, SameTool(tool)) == 0
  {
    FilterLength(records, OtherTool(tool));
    if records != [] {
      PartitionCount(records[..|records| - 1], tool);
    }
  }

  /** The selection loop of `compare_results`: a record without "tool"
      raises KeyError. */
  method SplitBySelected(records: seq<Record>, tool: Value)
    returns (r: Result<(Option<Record>, seq<Record>), string>)
    ensures r.Err? <==> exists x :: x in records && "tool" !in x
    ensures r.Err? ==> r.error == "KeyError"
    ensures r.Ok? ==> r.value == (SelectedOf(records, tool), Filter(records, OtherTool(tool)))
  {
    var selected: Option<Record> := None;
    var others: seq<Record> := [];
    var i := 0;
    while i < |records|
      invariant 0 <= i <= |records|
      invariant forall x :: x in records[..i] ==> "tool" in x
      invariant selected == SelectedOf(records[..i], tool)
      invariant others == Filter(records[..i], OtherTool(tool))
    {
      assert records[..i + 1][..i] == records[..i];
      var x := records[i];
      if "tool" !in x {
        return Err("KeyError");
      }
      if x["tool"] == tool {
        selected := Some(x);
      } else {
        others := others + [x];
      }
      i := i + 1;
    }
    assert records[..|records|] == records;
    return Ok((selected, others));
  }

  /** Python's `a > b` on JSON values: numbers (booleans count as 0 and 1)
      numerically, strings by code points; any other pair raises TypeError. */
  function Greater(a: Value, b: Value): (r: Result<bool, string>)
    ensures (a.Num? && b.Num?) ==> r == Ok(a.x > b.x)
    ensures (a.Str? && b.Str?) ==> r == Ok(StrGreater(a.s, b.s))
    ensures (a.Null? || b.Null? || a.Obj? || b.Obj?) ==> r.Err?
    ensures (a.Fixed? || b.Fixed?) ==> r.Err?
  {
    if a.Str? && b.Str? then Ok(StrGreater(a.s, b.s))
    else if IsNumber(a) && IsNumber(b) then Ok(NumberOf(a) > NumberOf(b))
    else Err("TypeError")
  }

  predicate IsNumber(v: Value) {
    v.Num? || v.Bool?
  }

  function NumberOf(v: Value): real
    requires IsNumber(v)
  {
    if v.Num? then v.x else if v.b then 1.0 else 0.0
  }

  /** Lexicographic `s > t` on code points. */
  predicate StrGreater(s: string, t: string) {
    if s == [] then false
    else if t == [] then true
    else if s[0] != t[0] then s[0] > t[0]
    else StrGreater(s[1..], t[1..])
  }

  /** `s > t` is a strict order: never both ways. */
  lemma {:induction false} StrGreaterAsymmetric(s: string, t: string)
    ensures !(StrGreater(s, t) && StrGreater(t, s))
  {
    if s != [] && t != [] && s[0] == t[0] {
      StrGreaterAsymmetric(s[1..], t[1..]);
    }
  }

  /** One record's pass of the `best_per_metric` loop. A missing "metrics"
      raises KeyError, a "metrics" that is not a dict has no `items()`
      (AttributeError), an incomparable pair raises TypeError. A metric seen
      for the first time is taken; a later one replaces the best only when
      strictly greater. */
  function Step(best: map<string, Best>, r: Record): (out: Result<map<string, Best>, string>)
    requires "tool" in r
    ensures out.Ok? ==>
      "metrics" in r && r["metrics"].Obj? && out.value.Keys == best.Keys + r["metrics"].fields.Keys
  {
    if "metrics" !in r then Err("KeyError")
    else if !r["metrics"].Obj? then Err("AttributeError")
    else
      var m := r["metrics"].fields;
      if exists k :: k in m && k in best && Greater(m[k], best[k].value).Err? then Err("TypeError")
      else Ok(map k | k in best.Keys + m.Keys ::
        if k in m && (k !in best || Greater(m[k], best[k].value) == Ok(true))
        then Best(r["tool"], m[k]) else best[k])
  }

  /** `best_per_metric` after the records, in order. */
  function BestPerMetric(records: seq<Record>): Result<map<string, Best>, string>
    requires forall x :: x in records ==> "tool" in x
  {
    if records == [] then Ok(map[])
    else
      match BestPerMetric(records[..|records| - 1])
      case Err(e) => Err(e)
      case Ok(best) => Step(best, records[|records| - 1])
  }

  /** The `best_per_metric` loop of `compare_results`. */
  method ComputeBest(records: seq<Record>) returns (r: Result<map<string, Best>, string>)
    requires forall x :: x in records ==> "tool" in x
    ensures r == BestPerMetric(records)
  {
    var best: map<string, Best> := map[];
    var i := 0;
    while i < |records|
      invariant 0 <= i <= |records|
      invariant BestPerMetric(records[..i]) == Ok(best)
    {
      assert records[..i + 1][..i] == records[..i];
      var next := Step(best, records[i]);
      if next.Err? {
        assert records[..i + 1][i] == records[i];
        PrefixError(records, i + 1);
        return next;
      }
      best := next.value;
      i := i + 1;
    }
    assert records[..|records|] == records;
    return Ok(best);
  }

  /** Once the fold fails on a prefix it fails on the whole sequence with
      the same error. */
  lemma {:induction false} PrefixError(records: seq<Record>, n: nat)
    requires n <= |records|
    requires forall x :: x in records ==> "tool" in x
    requires BestPerMetric(records[..n]).Err?
    ensures BestPerMetric(records) == BestPerMetric(records[..n])
    decreases |records| - n
  {
    if n < |records| {
      assert records[..n + 1][..n] == records[..n];
      PrefixError(records, n + 1);
    } else {
      assert records[..n] == records;
    }
  }

  /** `compare_results(dataset, selected_tool)` on the stored list. */
  function Compare(data: seq<Record>, dataset: Value, tool: Value): Result<Comparison, string> {
    match Considered(data, dataset)
    case Err(e) => Err(e)
    case Ok(records) => CompareRecords(records, tool)
  }

  /** The rest of `compare_results`, on the records of the dataset. */
  function CompareRecords(records: seq<Record>, tool: Value): Result<Comparison, string> {
    if exists x :: x in records && "tool" !in x then Err("KeyError")
    else
      match BestPerMetric(records)
      case Err(e) => Err(e)
      case Ok(best) =>
        Ok(Comparison(SelectedOf(records, tool), Filter(records, OtherTool(tool)), best))
  }

  /** `compare_results` reading the results file. */
  method CompareResults(store: Registry.ResultStore, dataset: Value, tool: Value)
    returns (r: Result<Comparison, string>)
    ensures r == Compare(store.LoadResults(), dataset, tool)
  {
    var data := store.LoadResults();
    var considered := Considered(data, dataset);
    if considered.Err? {
      return Err(considered.error);
    }
    r := CompareConsidered(considered.value, tool);
  }

  method CompareConsidered(records: seq<Record>, tool: Value) returns (r: Result<Comparison, string>)
    ensures r == CompareRecords(records, tool)
  {
    var split := SplitBySelected(records, tool);
    if split.Err? {
      return Err(split.error);
    }
    var best := ComputeBest(records);
    if best.Err? {
      return Err(best.error);
    }
    return Ok(Comparison(split.value.0, split.value.1, best.value));
  }

  // Properties of `best_per_metric` when every metric value is a number.

  predicate NumericRecord(r: Record) {
    "tool" in r && "metrics" in r && r["metrics"].Obj? &&
    forall k :: k in r["metrics"].fields ==> r["metrics"].fields[k].Num?
  }

  function MetricsOf(r: Record): (m: map<string, Value>)
    requires NumericRecord(r)
    ensures forall k :: k in m ==> m[k].Num?
  {
    r["metrics"].fields
  }

  predicate AllNumeric(records: seq<Record>) {
    forall x :: x in records ==> NumericRecord(x)
  }

  /** Record `i` has metric `k`, and every earlier record with `k` has a
      strictly lower value for it. */
  predicate FirstAttains(records: seq<Record>, k: string, i: int)
    requires AllNumeric(records)
  {
    0 <= i < |records| && k in MetricsOf(records[i]) &&
    forall j :: 0 <= j < i && k in MetricsOf(records[j]) ==>
      MetricsOf(records[j])[k].x < MetricsOf(records[i])[k].x
  }

  /** One step on a numeric record, from a map of numeric bests: it never
      fails, takes a first-seen metric and replaces a best only on a strictly
      greater value. */
  lemma StepNumeric(prev: map<string, Best>, r: Record)
    requires NumericRecord(r)
    requires forall k :: k in prev ==> prev[k].value.Num?
    ensures Step(prev, r).Ok?
    ensures var best, m := Step(prev, r).value, MetricsOf(r);
      forall k :: k in best <==> k in prev || k in m
    ensures var best, m := Step(prev, r).value, MetricsOf(r);
      forall k :: k in best ==>
        best[k] == (if k in m && (k !in prev || m[k].x > prev[k].value.x)
                    then Best(r["tool"], m[k]) else prev[k])
  {
    var m := MetricsOf(r);
    assert !exists k :: k in m && k in prev && Greater(m[k], prev[k].value).Err?;
  }

  /** With numeric metrics the fold never fails, every best value is a
      number, and the metrics reported are exactly those some record has. */
  lemma {:induction false} BestPerMetricKeys(records: seq<Record>)
    requires AllNumeric(records)
    ensures BestPerMetric(records).Ok?
    ensures var best := BestPerMetric(records).value;
      forall k :: k in best ==> best[k].value.Num?
    ensures var best := BestPerMetric(records).value;
      forall k :: k in best <==> exists x :: x in records && k in MetricsOf(x)
  {
    if records != [] {
      var n := |records| - 1;
      var init := records[..n];
      BestPerMetricKeys(init);
      var prev := BestPerMetric(init).value;
      StepNumeric(prev, records[n]);
      assert records == init + [records[n]];
    }
  }

  /** Each best value is at least every record's value for that metric. */
  lemma {:induction false} BestIsMax(records: seq<Record>, k: string, i: int)
    requires AllNumeric(records)
    requires 0 <= i < |records| && k in MetricsOf(records[i])
    ensures BestPerMetric(records).Ok?
    ensures var best := BestPerMetric(records).value;
      k in best && best[k].value.Num? && MetricsOf(records[i])[k].x <= best[k].value.x
  {
    var n := |records| - 1;
    var init := records[..n];
    assert AllNumeric(init) by {
      forall x | x in init ensures NumericRecord(x) {
        assert x in records;
      }
    }
    BestPerMetricKeys(init);
    var prev := BestPerMetric(init).value;
    assert NumericRecord(records[n]);
    StepNumeric(prev, records[n]);
    assert BestPerMetric(records) == Step(prev, records[n]);
    if i < n {
      assert records[i] == init[i];
      BestIsMax(init, k, i);
    }
  }

  /** Each best value is the value, with the tool, of the FIRST record that
      attains it. */
  lemma {:induction false} BestIsFirst(records: seq<Record>, k: string)
    requires AllNumeric(records)
    requires exists x :: x in records && k in MetricsOf(x)
    ensures BestPerMetric(records).Ok? && k in BestPerMetric(records).value
    ensures exists i ::
      FirstAttains(records, k, i) &&
      BestPerMetric(records).value[k] == Best(records[i]["tool"], MetricsOf(records[i])[k])
  {
    var n := |records| - 1;
    var init := records[..n];
    assert AllNumeric(init) by {
      forall x | x in init ensures NumericRecord(x) {
        assert x in records;
      }
    }
    BestStepAt(records, k);
    var prev := BestPerMetric(init).value;
    var m := MetricsOf(records[n]);
    if k in m && (k !in prev || m[k].x > prev[k].value.x) {
      FirstAttainsLast(records, k);
    } else {
      BestIsFirst(init, k);
      var i :| FirstAttains(init, k, i) &&
        prev[k] == Best(init[i]["tool"], MetricsOf(init[i])[k]);
      FirstAttainsPrefix(records, n, k, i);
      assert records[i] == init[i];
    }
  }

  /** The last step of the fold, seen from one metric `k`. */
  lemma BestStepAt(records: seq<Record>, k: string)
    requires AllNumeric(records) && records != []
    ensures var n := |records| - 1;
      AllNumeric(records[..n]) &&
      BestPerMetric(records[..n]).Ok? && BestPerMetric(records).Ok?
    ensures var n := |records| - 1;
      var prev, best, m := BestPerMetric(records[..n]).value,
        BestPerMetric(records).value, MetricsOf(records[n]);
      (k in prev ==> prev[k].value.Num?) &&
      (k in best <==> k in prev || k in m) &&
      (k in prev ==> exists x :: x in records[..n] && k in MetricsOf(x)) &&
      (k in best ==>
         best[k] == (if k in m && (k !in prev || m[k].x > prev[k].value.x)
                     then Best(records[n]["tool"], m[k]) else prev[k]))
  {
    var n := |records| - 1;
    var init := records[..n];
    assert AllNumeric(init) by {
      forall x | x in init ensures NumericRecord(x) {
        assert x in records;
      }
    }
    BestPerMetricKeys(init);
    var prev := BestPerMetric(init).value;
    assert NumericRecord(records[n]);
    StepNumeric(prev, records[n]);
    assert BestPerMetric(records) == Step(prev, records[n]);
  }

  /** The last record attains a metric first when it beats the best of all
      earlier records. */
  lemma FirstAttainsLast(records: seq<Record>, k: string)
    requires AllNumeric(records) && records != []
    requires AllNumeric(records[..|records| - 1])
    requires var n := |records| - 1; var prev := BestPerMetric(records[..n]);
      k in MetricsOf(records[n]) && prev.Ok? &&
      (k in prev.value ==>
         prev.value[k].value.Num? && MetricsOf(records[n])[k].x > prev.value[k].value.x)
    ensures FirstAttains(records, k, |records| - 1)
  {
    var n := |records| - 1;
    var init := records[..n];
    forall j | 0 <= j < n && k in MetricsOf(records[j])
      ensures MetricsOf(records[j])[k].Num? &&
        MetricsOf(records[j])[k].x < MetricsOf(records[n])[k].x
    {
      assert records[j] == init[j];
      BestIsMax(init, k, j);
    }
  }

  /** Attaining first within a prefix is attaining first in the whole. */
  lemma FirstAttainsPrefix(records: seq<Record>, n: nat, k: string, i: int)
    requires n <= |records| && AllNumeric(records) && AllNumeric(records[..n])
    requires FirstAttains(records[..n], k, i)
    ensures FirstAttains(records, k, i)
  {
    forall j | 0 <= j <= i ensures records[j] == records[..n][j] { }
  }

  /** The per-metric facts for all metrics at once. */
  lemma {:induction false} BestPerMetricSpec(records: seq<Record>)
    requires AllNumeric(records)
    ensures BestPerMetric(records).Ok?
    ensures var best := BestPerMetric(records).value;
      forall k, i :: 0 <= i < |records| && k in MetricsOf(records[i]) ==>
        k in best && best[k].value.Num? && MetricsOf(records[i])[k].x <= best[k].value.x
    ensures var best := BestPerMetric(records).value;
      forall k :: k in best ==>
        exists i ::
          FirstAttains(records, k, i) &&
          best[k] == Best(records[i]["tool"], MetricsOf(records[i])[k])
  {
    BestPerMetricKeys(records);
    var best := BestPerMetric(records).value;
    forall k, i | 0 <= i < |records| && k in MetricsOf(records[i])
      ensures k in best && best[k].value.Num? && MetricsOf(records[i])[k].Num? &&
        MetricsOf(records[i])[k].x <= best[k].value.x
    {
      BestIsMax(records, k, i);
    }
    forall k | k in best
      ensures exists i ::
        FirstAttains(records, k, i) &&
        best[k] == Best(records[i]["tool"], MetricsOf(records[i])[k])
    {
      BestIsFirst(records, k);
    }
  }
}
