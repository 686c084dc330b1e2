/** The mock data layer (frontend/src/utils/MockData.js): project and
    experiment lists and the experiment-wizard drafts kept in localStorage,
    and the results generator keyed on the model name's length. */
module MockData {
  import opened Wrappers
  import opened Json
  import opened Storage

  const PROJECTS := "automl_projects"
  const EXPERIMENTS := "automl_experiments"
  const DRAFT_PROJECT := "automl_draft_project"
  const DRAFT_EXPERIMENT_NAME := "automl_draft_exp_name"

  // ---------------------------------------------------------------------
  // Reading the lists
  // ---------------------------------------------------------------------

  /** `data ? JSON.parse(data) : []` for a key holding a list of records. */
  function StoredList(items: map<string, Item>, key: string): (rs: seq<Record>)
    ensures key !in items ==> rs == []
    ensures key in items && items[key].List? ==> rs == items[key].records
  {
    if key in items && items[key].List? then items[key].records else []
  }

  /** `getProjects()`: the stored list, or `[]` when nothing is stored. */
  function Projects(store: LocalStorage): (ps: seq<Record>)
    reads store
  {
    StoredList(store.items, PROJECTS)
  }

  /** `getExperiments()`: the stored list, or `[]` when nothing is stored. */
  function Experiments(store: LocalStorage): (es: seq<Record>)
    reads store
  {
    StoredList(store.items, EXPERIMENTS)
  }

  // ---------------------------------------------------------------------
  // Records
  // ---------------------------------------------------------------------

  /** `{ id, updated, status: "Active", count: 1, ...project }`: the defaults
      are written first, so every field the caller supplies wins. */
  function NewProject(project: Record, id: int, today: string): (p: Record)
    ensures p.Keys == project.Keys + {"id", "updated", "status", "count"}
    ensures forall k :: k in project ==> p[k] == project[k]
    ensures "status" !in project ==> p["status"] == Str("Active")
    ensures "count" !in project ==> p["count"] == Num(1.0)
    ensures "id" !in project ==> p["id"] == Num(id as real)
    ensures "updated" !in project ==> p["updated"] == Str(today)
  {
    map["id" := Num(id as real), "updated" := Str(today),
        "status" := Str("Active"), "count" := Num(1.0)] + project
  }

  /** `{ id, date, status: "Running", ...experiment, ...results }`: the caller
      overrides the defaults, and the generated results override the caller. */
  function NewExperiment(experiment: Record, id: int, date: string, results: Record): (e: Record)
    ensures e.Keys == experiment.Keys + results.Keys + {"id", "date", "status"}
    ensures forall k :: k in results ==> e[k] == results[k]
    ensures forall k :: k in experiment && k !in results ==> e[k] == experiment[k]
    ensures "status" !in experiment && "status" !in results ==> e["status"] == Str("Running")
  {
    map["id" := Num(id as real), "date" := Str(date), "status" := Str("Running")]
      + experiment + results
  }

  /** `existingProj.count += 1` followed by `JSON.stringify`: a number grows by
      one; `null` and booleans are coerced to a number; anything else is
      converted to a string and gets "1" appended; a missing count becomes
      NaN, which JSON stores as `null`. */
  function IncrementCount(count: Option<Value>): (r: Value)
    ensures count.None? ==> r == Null
    ensures count.Some? && count.value.Num? ==> r == Num(count.value.x + 1.0)
    ensures count == Some(Null) ==> r == Num(1.0)
    ensures count.Some? && count.value.Bool? ==> r == Num(if count.value.b then 2.0 else 1.0)
    ensures count.Some? && !count.value.Null? && !count.value.Bool? && JsText(count.value).Some? ==>
      r == Str(JsText(count.value).value + "1")
  {
    match count
    case None => Null
    case Some(Num(x)) => Num(x + 1.0)
    case Some(Null) => Num(1.0)
    case Some(Bool(b)) => Num(if b then 2.0 else 1.0)
    case Some(v) =>
      match JsText(v)
      case Some(t) => Str(t + "1")
      case None => Null
  }

  /** A count that is an object or an array is concatenated, not added to. */
  lemma CountConcatenates(a: string, b: string)
    ensures IncrementCount(Some(Obj(map[]))) == Str("[object Object]1")
    ensures IncrementCount(Some(Arr([]))) == Str("1")
    ensures IncrementCount(Some(Arr([Str(a), Null, Str(b)]))) == Str(a + ",," + b + "1")
    ensures IncrementCount(Some(Str(a))) == Str(a + "1")
  {
    var arr := Arr([Str(a), Null, Str(b)]);
    assert arr.items[2..] == [Str(b)] && arr.items[1..] == [Null, Str(b)];
    assert JoinText(arr, arr.items[2..]) == Some(b);
    assert arr.items[1..][1..] == arr.items[2..] && arr.items[..][1..] == arr.items[1..];
    assert "" + "," + b == "," + b;
    assert JoinText(arr, arr.items[1..]) == Some("," + b);
    assert JoinText(arr, arr.items) == Some(a + "," + ("," + b));
    assert a + "," + ("," + b) + "1" == a + ",," + b + "1";
  }

  /** The project update for an experiment filed under an existing project. */
  function Bump(project: Record): (p: Record)
    ensures p.Keys == project.Keys + {"count", "updated"}
    ensures p["count"] == IncrementCount(Get(project, "count"))
    ensures p["updated"] == Str("Just now")
    ensures forall k :: k in project && k != "count" && k != "updated" ==> p[k] == project[k]
  {
    project["count" := IncrementCount(Get(project, "count"))]["updated" := Str("Just now")]
  }

  /** `projects.find(p => p.name === name)`, as an index: the first project
      whose `name` is `===` to `name` (an absent name matches an absent name;
      an object or array name matches nothing). */
  function FindByName(projects: seq<Record>, name: Option<Value>): (k: Option<nat>)
    ensures k.Some? ==> k.value < |projects| && StrictEq(Get(projects[k.value], "name"), name)
    ensures k.Some? ==> forall j :: 0 <= j < k.value ==> !StrictEq(Get(projects[j], "name"), name)
    ensures k.None? ==> forall j :: 0 <= j < |projects| ==> !StrictEq(Get(projects[j], "name"), name)
  {
    if projects == [] then None
    else if StrictEq(Get(projects[0], "name"), name) then Some(0)
    else
      match FindByName(projects[1..], name)
      case None => None
      case Some(j) => Some(j + 1)
  }

  /** `experiments.findIndex(e => e.id === id)`. */
  function FindById(experiments: seq<Record>, id: Value): (k: Option<nat>)
    ensures k.Some? ==> k.value < |experiments| && StrictEq(Get(experiments[k.value], "id"), Some(id))
    ensures k.Some? ==> forall j :: 0 <= j < k.value ==> !StrictEq(Get(experiments[j], "id"), Some(id))
    ensures k.None? ==> forall j :: 0 <= j < |experiments| ==> !StrictEq(Get(experiments[j], "id"), Some(id))
  {
    if experiments == [] then None
    else if StrictEq(Get(experiments[0], "id"), Some(id)) then Some(0)
    else
      match FindById(experiments[1..], id)
      case None => None
      case Some(j) => Some(j + 1)
  }

  /** The arguments `addExperiment` passes to `addProject` for a new project;
      an undefined project name is dropped by JSON.stringify. */
  function ProjectFor(name: Option<Value>): (r: Record)
    ensures "name" in r <==> name.Some?
    ensures name.Some? ==> r["name"] == name.value
    ensures "type" in r && r["type"] == Str("AutoML")
    ensures "count" in r && r["count"] == Num(1.0)
  {
    var base := map["type" := Str("AutoML"), "count" := Num(1.0)];
    if name.Some? then base["name" := name.value] else base
  }

  /** The project list after `addExperiment` filed an experiment under `name`. */
  function ProjectsAfterExperiment(projects: seq<Record>, name: Option<Value>, id: int, today: string): seq<Record>
  {
    match FindByName(projects, name)
    case Some(k) => projects[k := Bump(projects[k])]
    case None => [NewProject(ProjectFor(name), id, today)] + projects
  }

  /** The experiment list after `updateExperimentStatus(id, status, results)`. */
  function ExperimentsAfterUpdate(experiments: seq<Record>, id: Value, status: Value, results: Record): seq<Record>
  {
    match FindById(experiments, id)
    case Some(k) => experiments[k := experiments[k]["status" := status] + results]
    case None => experiments
  }

  /** An experiment filed under a project that exists bumps the first such
      project and nothing else. */
  lemma ExistingProjectBumped(projects: seq<Record>, name: Option<Value>, id: int, today: string, k: nat)
    requires k < |projects| && StrictEq(Get(projects[k], "name"), name)
    requires forall j :: 0 <= j < k ==> !StrictEq(Get(projects[j], "name"), name)
    ensures var after := ProjectsAfterExperiment(projects, name, id, today);
      |after| == |projects| &&
      after[k] == Bump(projects[k]) &&
      (forall j :: 0 <= j < |projects| && j != k ==> after[j] == projects[j])
  {
    assert FindByName(projects, name) == Some(k);
  }

  /** An experiment filed under a new project name prepends exactly one
      project with that name, type "AutoML" and count 1. */
  lemma NewProjectPrepended(projects: seq<Record>, name: Option<Value>, id: int, today: string)
    requires forall j :: 0 <= j < |projects| ==> !StrictEq(Get(projects[j], "name"), name)
    ensures var after := ProjectsAfterExperiment(projects, name, id, today);
      |after| == |projects| + 1 && after[1..] == projects &&
      Get(after[0], "name") == name &&
      after[0]["type"] == Str("AutoML") && after[0]["count"] == Num(1.0) &&
      after[0]["status"] == Str("Active")
  {
    assert FindByName(projects, name).None?;
  }

  /** An update replaces only the first experiment with the id: its status is
      set and then the given results are merged (so `results.status` wins);
      an unknown id changes nothing. */
  lemma UpdateReplacesFirstMatch(experiments: seq<Record>, id: Value, status: Value, results: Record)
    ensures var after := ExperimentsAfterUpdate(experiments, id, status, results);
      |after| == |experiments| &&
      (FindById(experiments, id).None? ==> after == experiments) &&
      (forall k :: FindById(experiments, id) == Some(k) ==>
        after[k].Keys == experiments[k].Keys + results.Keys + {"status"} &&
        after[k]["status"] == (if "status" in results then results["status"] else status) &&
        (forall f :: f in experiments[k] && f != "status" && f !in results ==> after[k][f] == experiments[k][f]) &&
        (forall j :: 0 <= j < |experiments| && j != k ==> after[j] == experiments[j]))
  {
  }

  /** An object or array project name is never `===` to a stored one, so
      the experiment always opens a new project under it. */
  lemma {:induction false} ObjectNameAlwaysNew(projects: seq<Record>, name: Value, id: int, today: string)
    requires name.Obj? || name.Arr?
    ensures ProjectsAfterExperiment(projects, Some(name), id, today)
      == [NewProject(ProjectFor(Some(name)), id, today)] + projects
  {
    NewProjectPrepended(projects, Some(name), id, today);
  }

  /** An object or array id finds no stored experiment, so the update
      changes nothing. */
  lemma ObjectIdChangesNothing(experiments: seq<Record>, id: Value, status: Value, results: Record)
    requires id.Obj? || id.Arr?
    ensures ExperimentsAfterUpdate(experiments, id, status, results) == experiments
  {
  }

  // ---------------------------------------------------------------------
  // Results generator
  // ---------------------------------------------------------------------

  /** `0.85 + (seed % 10) * 0.01`, computed exactly. */
  function BaseAccuracy(seed: nat): (a: real)
    ensures 0.85 <= a <= 0.94
  {
    0.85 + (seed % 10) as real * 0.01
  }

  function GeneratedMetrics(seed: nat): Record {
    var base := BaseAccuracy(seed);
    map[
      "accuracy" := Fixed(base + 0.02, 4),
      "auc" := Fixed(base + 0.01, 4),
      "f1" := Fixed(base - 0.01, 4),
      "precision" := Fixed(base + 0.015, 4),
      "recall" := Fixed(base - 0.025, 4),
      "training_time_sec" := Num(124.5),
      "cpu_peak" := Fixed((20 + seed % 30) as real, 1),
      "ram_peak" := Fixed((2 + seed % 6) as real, 2)
    ]
  }

  /** The metrics when the seed is `undefined`: every `toFixed` of NaN is the
      string "NaN". */
  function NaNMetrics(): Record {
    map[
      "accuracy" := Str("NaN"), "auc" := Str("NaN"), "f1" := Str("NaN"),
      "precision" := Str("NaN"), "recall" := Str("NaN"),
      "training_time_sec" := Num(124.5),
      "cpu_peak" := Str("NaN"), "ram_peak" := Str("NaN")
    ]
  }

  function LeaderboardEntry(modelId: string, accuracy: Value, loss: real, latency: real): Value {
    Obj(map["model_id" := Str(modelId), "accuracy" := accuracy,
            "loss" := Num(loss), "latency_ms" := Num(latency)])
  }

  /** `x.toFixed(4)` for `x` = the base accuracy plus `offset`, or "NaN". */
  function AccuracyText(seed: Option<nat>, offset: real): Value {
    match seed
    case Some(n) => Fixed(BaseAccuracy(n) + offset, 4)
    case None => Str("NaN")
  }

  function GeneratedLeaderboard(m: ModelName): seq<Value> {
    [ LeaderboardEntry(m.text + "_Best", AccuracyText(m.seed, 0.02), 0.12, 45.0),
      LeaderboardEntry(m.text + "_Ensemble", AccuracyText(m.seed, 0.0), 0.15, 120.0),
      LeaderboardEntry("XGBoost_Baseline", AccuracyText(m.seed, -0.05), 0.22, 30.0),
      LeaderboardEntry("GLM_v2", AccuracyText(m.seed, -0.12), 0.35, 10.0) ]
  }

  function Max(a: real, b: real): real {
    if a >= b then a else b
  }

  /** Epoch `i + 1` of the loss curve; `lossDraw` and `valDraw` are the two
      `Math.random()` draws of that epoch. */
  function LossPoint(i: nat, lossDraw: real, valDraw: real): Value {
    Obj(map[
      "epoch" := Num((i + 1) as real),
      "loss" := Num(Max(0.1, 1.0 - i as real * 0.08 - lossDraw * 0.05)),
      "val_loss" := Num(Max(0.15, 1.1 - i as real * 0.07 - valDraw * 0.05))
    ])
  }

  predicate ValidDraws(draws: seq<real>) {
    |draws| == 20 && forall k :: 0 <= k < |draws| ==> 0.0 <= draws[k] < 1.0
  }

  function GeneratedLossCurve(draws: seq<real>): seq<Value>
    requires ValidDraws(draws)
  {
    seq(10, i requires 0 <= i < 10 => LossPoint(i, draws[2 * i], draws[2 * i + 1]))
  }

  /** What `generateDeterministicResults` reads of its argument: `seed` is
      `modelName.length` (None when that is `undefined`) and `text` is what
      the template literal prints. */
  datatype ModelName = ModelName(seed: Option<nat>, text: string)

  /** A string model name. */
  function NamedModel(name: string): ModelName {
    ModelName(Some(|name|), name)
  }

  /** `experiment.model` as `generateDeterministicResults` sees it; None
      when reading `.length` throws, that is for an absent (`undefined`) or
      `null` model. `shown` is what JavaScript prints for a number, a
      `toFixed` string or an array holding numbers, whose digits the model
      does not spell out. */
  function ReadModel(model: Option<Value>, shown: string): (m: Option<ModelName>)
    ensures m.None? <==> model.None? || model == Some(Null)
    ensures model.Some? && model.value.Str? ==> m == Some(NamedModel(model.value.s))
    ensures model.Some? && (model.value.Num? || model.value.Bool? || model.value.Obj?) ==> m.Some? && m.value.seed.None?
    ensures model.Some? && model.value.Arr? ==> m.Some? && m.value.seed == Some(|model.value.items|)
  {
    match model
    case None => None
    case Some(Null) => None
    case Some(Str(s)) => Some(NamedModel(s))
    case Some(Fixed(_, _)) => Some(NamedModel(shown))
    case Some(Num(_)) => Some(ModelName(None, shown))
    case Some(Bool(b)) => Some(ModelName(None, if b then "true" else "false"))
    case Some(Obj(_)) => Some(ModelName(None, "[object Object]"))
    case Some(Arr(items)) =>
      Some(ModelName(Some(|items|), match JsText(Arr(items)) case Some(t) => t case None => shown))
  }

  /** `generateDeterministicResults(modelName)`: the fields `addExperiment`
      spreads over the new experiment. */
  function Results(m: ModelName, draws: seq<real>): (r: Record)
    requires ValidDraws(draws)
    ensures r.Keys == {"metrics", "loss_curve", "leaderboard"}
  {
    map[
      "metrics" := Obj(if m.seed.Some? then GeneratedMetrics(m.seed.value) else NaNMetrics()),
      "loss_curve" := Arr(GeneratedLossCurve(draws)),
      "leaderboard" := Arr(GeneratedLeaderboard(m))
    ]
  }

  /** The results for a string model name. */
  function DeterministicResults(modelName: string, draws: seq<real>): (r: Record)
    requires ValidDraws(draws)
    ensures r.Keys == {"metrics", "loss_curve", "leaderboard"}
  {
    Results(NamedModel(modelName), draws)
  }

  /** A model with no `.length` (a number, a boolean, an object) still gets
      results: every `toFixed` figure is "NaN", the leaderboard is named after
      the printed model, and the loss curve is generated as usual. */
  lemma LengthlessModelGivesNaN(model: Value, shown: string, draws: seq<real>)
    requires ValidDraws(draws)
    requires model.Num? || model.Bool? || model.Obj?
    ensures ReadModel(Some(model), shown).Some?
    ensures var m := ReadModel(Some(model), shown).value;
      var r := Results(m, draws);
      var lb := r["leaderboard"].items;
      r["metrics"].fields["accuracy"] == Str("NaN") &&
      r["metrics"].fields["cpu_peak"] == Str("NaN") &&
      r["metrics"].fields["training_time_sec"] == Num(124.5) &&
      |lb| == 4 && lb[0].fields["model_id"] == Str(m.text + "_Best") &&
      lb[0].fields["accuracy"] == Str("NaN") &&
      |r["loss_curve"].items| == 10
  {
  }

  /** An array model has a real length: `[a, b]` seeds the generator with 2
      and names the leaderboard "a,b_Best". */
  lemma ArrayModelSeededByLength(a: string, b: string, shown: string, draws: seq<real>)
    requires ValidDraws(draws)
    ensures var m := ReadModel(Some(Arr([Str(a), Str(b)])), shown);
      m == Some(ModelName(Some(2), a + "," + b)) &&
      Results(m.value, draws)["metrics"] == DeterministicResults("ab", draws)["metrics"]
  {
    var arr := Arr([Str(a), Str(b)]);
    assert arr.items[1..] == [Str(b)];
    assert JoinText(arr, arr.items[1..]) == Some(b);
    assert JsText(arr) == Some(a + "," + b);
  }

  /** The metrics depend on the model name's length only, and the figures
      in hundredths are 87 + len % 10 (accuracy), 20 + len % 30 (CPU peak)
      and 2 + len % 6 (RAM peak). */
  lemma MetricsFromLength(modelName: string, other: string, draws: seq<real>, draws': seq<real>)
    requires ValidDraws(draws) && ValidDraws(draws')
    requires |modelName| == |other|
    ensures DeterministicResults(modelName, draws)["metrics"] == DeterministicResults(other, draws')["metrics"]
    ensures var m := DeterministicResults(modelName, draws)["metrics"].fields;
      var n := |modelName|;
      m["accuracy"] == Fixed((87 + n % 10) as real / 100.0, 4) &&
      m["cpu_peak"] == Fixed((20 + n % 30) as real, 1) &&
      m["ram_peak"] == Fixed((2 + n % 6) as real, 2) &&
      m["training_time_sec"] == Num(124.5)
  {
  }

  /** The leaderboard has four entries in fixed order, the first of which
      carries the same accuracy as the metrics. */
  lemma LeaderboardShape(modelName: string, draws: seq<real>)
    requires ValidDraws(draws)
    ensures var r := DeterministicResults(modelName, draws);
      var lb := r["leaderboard"].items;
      |lb| == 4 &&
      lb[0].fields["model_id"] == Str(modelName + "_Best") &&
      lb[1].fields["model_id"] == Str(modelName + "_Ensemble") &&
      lb[2].fields["model_id"] == Str("XGBoost_Baseline") &&
      lb[3].fields["model_id"] == Str("GLM_v2") &&
      lb[0].fields["accuracy"] == r["metrics"].fields["accuracy"]
  {
  }

  /** The loss curve has ten points, for epochs 1 to 10; each loss lies
      between its jitter-free value and that value less the largest jitter
      (0.05), both cut off at the floor (0.1 for the training loss, 0.15 for
      the validation loss). */
  lemma LossCurveShape(modelName: string, draws: seq<real>)
    requires ValidDraws(draws)
    ensures var c := DeterministicResults(modelName, draws)["loss_curve"].items;
      |c| == 10 &&
      forall i :: 0 <= i < 10 ==>
        c[i].fields["epoch"] == Num((i + 1) as real) &&
        Max(0.1, 1.0 - i as real * 0.08 - 0.05) <= c[i].fields["loss"].x <= Max(0.1, 1.0 - i as real * 0.08) &&
        Max(0.15, 1.1 - i as real * 0.07 - 0.05) <= c[i].fields["val_loss"].x <= Max(0.15, 1.1 - i as real * 0.07)
  {
  }

  /** "H2O" has length 3, so its accuracy is the string "0.9000". */
  lemma H2OAccuracy(draws: seq<real>)
    requires ValidDraws(draws)
    ensures DeterministicResults("H2O", draws)["metrics"].fields["accuracy"] == Fixed(0.90, 4)
  {
  }

  // ---------------------------------------------------------------------
  // Storage operations
  // ---------------------------------------------------------------------

  /** `addProject(project)`; `id` is `Date.now()`, `today` the locale date. */
  method AddProject(store: LocalStorage, project: Record, id: int, today: string) returns (p: Record)
    modifies store
    ensures p == NewProject(project, id, today)
    ensures store.items == old(store.items)[PROJECTS := List([p] + old(Projects(store)))]
  {
    var projects := Projects(store);
    p := NewProject(project, id, today);
    store.Set(PROJECTS, List([p] + projects));
  }

  /** `addExperiment(experiment)`. `id` and `projectId` are the two
      `Date.now()` readings, `date` the ISO timestamp, `today` the locale date,
      `shown` the printed form of a numeric model (see `ReadModel`) and
      `draws` the `Math.random()` values of the loss curve. An absent or
      `null` model throws on `.length` before anything is written; any other
      model is filed, with NaN figures when it has no length. */
  method AddExperiment(store: LocalStorage, experiment: Record, id: int, date: string,
                       projectId: int, today: string, shown: string, draws: seq<real>)
    returns (r: Result<Record, string>)
    requires ValidDraws(draws)
    modifies store
    ensures ReadModel(Get(experiment, "model"), shown).None? ==>
      r.Err? && store.items == old(store.items)
    ensures ReadModel(Get(experiment, "model"), shown).Some? ==>
      r == Ok(ExperimentRecord(experiment, id, date, ReadModel(Get(experiment, "model"), shown).value, draws)) &&
      store.items == old(store.items)
        [EXPERIMENTS := List([r.value] + old(Experiments(store)))]
        [PROJECTS := List(ProjectsAfterExperiment(old(Projects(store)), Get(experiment, "project"), projectId, today))]
  {
    var model := ReadModel(Get(experiment, "model"), shown);
    if model.None? {
      return Err("TypeError: cannot read properties of undefined (reading 'length')");
    }
    var experiments := Experiments(store);
    var e := ExperimentRecord(experiment, id, date, model.value, draws);
    store.Set(EXPERIMENTS, List([e] + experiments));

    var projects := Projects(store);
    var name := Get(experiment, "project");
    var found := FindByName(projects, name);
    if found.Some? {
      var k := found.value;
      store.Set(PROJECTS, List(projects[k := Bump(projects[k])]));
    } else {
      var _ := AddProject(store, ProjectFor(name), projectId, today);
    }
    r := Ok(e);
  }

  /** The record `addExperiment` stores for an experiment whose model reads
      as `m`. */
  function ExperimentRecord(experiment: Record, id: int, date: string, m: ModelName, draws: seq<real>): Record
    requires ValidDraws(draws)
  {
    NewExperiment(experiment, id, date, Results(m, draws))
  }

  /** `updateExperimentStatus(id, status, results = {})`: an unknown id
      writes nothing. */
  method UpdateExperimentStatus(store: LocalStorage, id: Value, status: Value, results: Record)
    modifies store
    ensures FindById(old(Experiments(store)), id).None? ==> store.items == old(store.items)
    ensures FindById(old(Experiments(store)), id).Some? ==>
      store.items == old(store.items)[EXPERIMENTS := List(ExperimentsAfterUpdate(old(Experiments(store)), id, status, results))]
  {
    var experiments := Experiments(store);
    var index := FindById(experiments, id);
    if index.Some? {
      var k := index.value;
      store.Set(EXPERIMENTS, List(experiments[k := experiments[k]["status" := status] + results]));
    }
  }

  method SetDraftProject(store: LocalStorage, filename: string)
    modifies store
    ensures store.items == old(store.items)[DRAFT_PROJECT := Text(filename)]
    ensures GetDraftProject(store) == Some(filename)
  {
    store.Set(DRAFT_PROJECT, Text(filename));
  }

  function GetDraftProject(store: LocalStorage): Option<string>
    reads store
  {
    store.GetText(DRAFT_PROJECT)
  }

  method SetDraftExperimentName(store: LocalStorage, name: string)
    modifies store
    ensures store.items == old(store.items)[DRAFT_EXPERIMENT_NAME := Text(name)]
    ensures GetDraftExperimentName(store) == Some(name)
  {
    store.Set(DRAFT_EXPERIMENT_NAME, Text(name));
  }

  function GetDraftExperimentName(store: LocalStorage): Option<string>
    reads store
  {
    store.GetText(DRAFT_EXPERIMENT_NAME)
  }

  /** `clearDraft()` removes both draft keys and nothing else. */
  method ClearDraft(store: LocalStorage)
    modifies store
    ensures store.items == old(store.items) - {DRAFT_PROJECT, DRAFT_EXPERIMENT_NAME}
    ensures GetDraftProject(store) == None && GetDraftExperimentName(store) == None
    ensures Projects(store) == old(Projects(store)) && Experiments(store) == old(Experiments(store))
  {
    store.Remove(DRAFT_PROJECT);
    store.Remove(DRAFT_EXPERIMENT_NAME);
  }

  /** `resetAll()` removes the projects, the experiments and the draft
      project; the draft experiment name is left in place. */
  method ResetAll(store: LocalStorage)
    modifies store
    ensures store.items == old(store.items) - {PROJECTS, EXPERIMENTS, DRAFT_PROJECT}
    ensures Projects(store) == [] && Experiments(store) == [] && GetDraftProject(store) == None
    ensures GetDraftExperimentName(store) == old(GetDraftExperimentName(store))
  {
    store.Remove(PROJECTS);
    store.Remove(EXPERIMENTS);
    store.Remove(DRAFT_PROJECT);
  }
}
