/** The three-step experiment wizard (frontend/src/pages/RunExperiment.jsx):
    name and dataset, then the tool, then a scripted console whose timed
    events end by filing a completed experiment through the mock data layer.
    The browser's timer queue is the field `timers` (events not yet fired, in
    firing order) plus `finishScheduled` (the two-second finish timer). */
module RunExperiment {
  import opened Wrappers
  import opened Json
  import Storage
  import MockData

  datatype Tool = Tool(id: string, name: string)

  const TOOLS: seq<Tool> := [
    Tool("h2o", "H2O AutoML"),
    Tool("autogluon", "AutoGluon"),
    Tool("tpot", "TPOT"),
    Tool("flaml", "FLAML")
  ]

  /** `tools.find(t => t.id === id)` */
  function FindTool(id: string): (t: Option<Tool>)
    ensures t.Some? ==> t.value in TOOLS && t.value.id == id
    ensures t.None? ==> forall k :: 0 <= k < |TOOLS| ==> TOOLS[k].id != id
  {
    if id == "h2o" then Some(TOOLS[0])
    else if id == "autogluon" then Some(TOOLS[1])
    else if id == "tpot" then Some(TOOLS[2])
    else if id == "flaml" then Some(TOOLS[3])
    else None
  }

  datatype LogEntry = LogEntry(time: string, msg: string, kind: string)

  /** The scripted console lines; the dataset and tool names are the ones
      captured when the run starts. */
  datatype Message =
    | CheckingResources | LoadingDataset(dataset: string) | DatasetLoaded
    | AnalyzingSchema | HandlingMissing | EncodingCategorical
    | InitializingEngine(toolName: string) | TrainingFold1 | Fold1Complete
    | TrainingFold2 | Fold2Complete | Ensembling | RunCompleted

  function Text(m: Message): string {
    match m
    case CheckingResources => "Checking system resources [CPU/GPU]..."
    case LoadingDataset(dataset) => "Loading dataset '" + dataset + "'..."
    case DatasetLoaded => "Dataset loaded successfully (Rows: 12,450, Cols: 24)"
    case AnalyzingSchema => "Analyzing feature schema..."
    case HandlingMissing => "Preprocessing: Handling missing values..."
    case EncodingCategorical => "Preprocessing: Encoding categorical variables..."
    case InitializingEngine(toolName) => "Initializing " + toolName + " engine..."
    case TrainingFold1 => "Starting training fold 1/5 [XGBoost]..."
    case Fold1Complete => "Fold 1 complete. Val Accuracy: 92.4%"
    case TrainingFold2 => "Starting training fold 2/5 [LightGBM]..."
    case Fold2Complete => "Fold 2 complete. Val Accuracy: 94.1%"
    case Ensembling => "Ensembling final models..."
    case RunCompleted => "Run completed successfully."
  }

  /** One scripted console event: at `t` ms set the progress to `p`. */
  datatype Event = Event(t: nat, p: nat, msg: Message, kind: string)

  const INIT_MESSAGE := "Initializing execution environment..."

  function Schedule(dataset: string, toolName: string): seq<Event> {
    [ Event(1000, 5, CheckingResources, "system"),
      Event(2000, 10, LoadingDataset(dataset), "info"),
      Event(3000, 15, DatasetLoaded, "success"),
      Event(4000, 20, AnalyzingSchema, "info"),
      Event(6000, 30, HandlingMissing, "info"),
      Event(8000, 40, EncodingCategorical, "info"),
      Event(10000, 50, InitializingEngine(toolName), "system"),
      Event(12000, 55, TrainingFold1, "info"),
      Event(15000, 65, Fold1Complete, "success"),
      Event(17000, 70, TrainingFold2, "info"),
      Event(20000, 80, Fold2Complete, "success"),
      Event(22000, 90, Ensembling, "info"),
      Event(24000, 100, RunCompleted, "success") ]
  }

  /** The events fire in list order, the progress only rises, and only the
      last event reaches 100 and so triggers the finish. */
  lemma ScheduleSpec(dataset: string, toolName: string)
    ensures var s := Schedule(dataset, toolName);
      |s| == 13 &&
      (forall i, j :: 0 <= i < j < |s| ==> s[i].t < s[j].t && s[i].p < s[j].p) &&
      (forall i :: 0 <= i < |s| ==> (s[i].p == 100 <==> i == |s| - 1)) &&
      s[|s| - 1].t == 24000
  {
  }

  /** The fields `finishExperiment` passes to `addExperiment`. */
  function Submitted(expName: string, dataset: string, toolName: string): Record {
    map["name" := Str(expName), "project" := Str(dataset), "model" := Str(toolName),
        "accuracy" := Str("94.1%"), "duration" := Str("24s"), "status" := Str("Completed")]
  }

  /** The record `finishExperiment` files: the submitted fields under a
      string model name. */
  function Filed(expName: string, dataset: string, toolName: string,
                 id: int, date: string, draws: seq<real>): Record
    requires MockData.ValidDraws(draws)
  {
    MockData.ExperimentRecord(Submitted(expName, dataset, toolName), id, date, MockData.NamedModel(toolName), draws)
  }

  /** The store after `finishExperiment`: `addExperiment` prepends `record`
      and files it under the dataset's project, then both drafts are
      removed; every other key is kept. */
  function FinishedItems(items: map<string, Storage.Item>, record: Record, dataset: string,
                         projectId: int, today: string): map<string, Storage.Item>
  {
    items[MockData.EXPERIMENTS := Storage.List([record] + MockData.StoredList(items, MockData.EXPERIMENTS))]
         [MockData.PROJECTS := Storage.List(MockData.ProjectsAfterExperiment(
            MockData.StoredList(items, MockData.PROJECTS), Some(Str(dataset)), projectId, today))]
      - {MockData.DRAFT_PROJECT, MockData.DRAFT_EXPERIMENT_NAME}
  }

  /** The stored experiment is "Completed", filed under the dataset, named
      after the tool, keeps the scripted accuracy and duration, and carries
      the generated metrics. */
  lemma SubmittedRecordSpec(expName: string, dataset: string, toolName: string,
                            id: int, date: string, draws: seq<real>)
    requires MockData.ValidDraws(draws)
    ensures var e := Filed(expName, dataset, toolName, id, date, draws);
      e["status"] == Str("Completed") && e["project"] == Str(dataset) &&
      e["model"] == Str(toolName) && e["name"] == Str(expName) &&
      e["accuracy"] == Str("94.1%") && e["duration"] == Str("24s") &&
      e["metrics"] == MockData.DeterministicResults(toolName, draws)["metrics"]
  {
    var results := MockData.DeterministicResults(toolName, draws);
    var submitted := Submitted(expName, dataset, toolName);
    assert Filed(expName, dataset, toolName, id, date, draws) == MockData.NewExperiment(submitted, id, date, results);
    SubmittedFields(expName, dataset, toolName, id, date, results);
  }

  lemma SubmittedFields(expName: string, dataset: string, toolName: string,
                        id: int, date: string, results: Record)
    requires results.Keys == {"metrics", "loss_curve", "leaderboard"}
    ensures var e := MockData.NewExperiment(Submitted(expName, dataset, toolName), id, date, results);
      e["status"] == Str("Completed") && e["project"] == Str(dataset) &&
      e["model"] == Str(toolName) && e["name"] == Str(expName) &&
      e["accuracy"] == Str("94.1%") && e["duration"] == Str("24s") &&
      e["metrics"] == results["metrics"]
  {
    var submitted := Submitted(expName, dataset, toolName);
    SubmittedValues(expName, dataset, toolName);
    assert "status" !in results && "project" !in results && "model" !in results;
    assert "name" !in results && "accuracy" !in results && "duration" !in results;
  }

  lemma SubmittedValues(expName: string, dataset: string, toolName: string)
    ensures var s := Submitted(expName, dataset, toolName);
      "status" in s && s["status"] == Str("Completed") &&
      "project" in s && s["project"] == Str(dataset) &&
      "model" in s && s["model"] == Str(toolName) &&
      "name" in s && s["name"] == Str(expName) &&
      "accuracy" in s && s["accuracy"] == Str("94.1%") &&
      "duration" in s && s["duration"] == Str("24s")
  {
  }

  /** The generated accuracy of each tool's experiment follows from its
      name's length (10, 9, 4 and 5 characters): 0.87, 0.96, 0.91 and 0.92. */
  lemma ToolAccuracies(i: nat, draws: seq<real>)
    requires i < |TOOLS| && MockData.ValidDraws(draws)
    ensures TOOLS[0].name == "H2O AutoML" && TOOLS[1].name == "AutoGluon"
    ensures TOOLS[2].name == "TPOT" && TOOLS[3].name == "FLAML"
    ensures MockData.DeterministicResults(TOOLS[i].name, draws)["metrics"].fields["accuracy"]
      == Fixed([0.87, 0.96, 0.91, 0.92][i], 4)
  {
    var name := TOOLS[i].name;
    MockData.MetricsFromLength(name, name, draws, draws);
    assert |name| == [10, 9, 4, 5][i];
    assert (87 + |name| % 10) as real / 100.0 == [0.87, 0.96, 0.91, 0.92][i];
  }

  /** The navigation buttons under steps 1 and 2 (step 3 renders the console
      instead of them). */
  datatype Button = Back | Next | Start

  predicate Offered(b: Button, step: nat) {
    step != 3 &&
    match b
    case Back => step > 1
    case Next => step == 1
    case Start => step == 2
  }

  predicate Enabled(b: Button, expName: string, dataset: string, selectedTool: Option<string>) {
    match b
    case Back => true
    case Next => expName != "" && dataset != ""
    case Start => selectedTool.Some?
  }

  /** The step after a click; a button that is not shown or is disabled
      does nothing. */
  function NextStep(step: nat, b: Button, expName: string, dataset: string, selectedTool: Option<string>): nat {
    if !(Offered(b, step) && Enabled(b, expName, dataset, selectedTool)) then step
    else
      match b
      case Back => step - 1
      case Next => 2
      case Start => 3
  }

  /** Each click moves at most one step; step 2 is entered from step 1 only
      with a name and a dataset, step 3 from step 2 only with a tool, going
      back is one step down from step 2, and step 3 is never left. */
  lemma StepGuards(step: nat, b: Button, expName: string, dataset: string, selectedTool: Option<string>)
    requires 1 <= step <= 3
    ensures var s := NextStep(step, b, expName, dataset, selectedTool);
      1 <= s <= 3 &&
      (s == step + 1 || s == step || s + 1 == step) &&
      (step == 1 && s == 2 <==> step == 1 && b == Next && expName != "" && dataset != "") &&
      (step == 2 && s == 3 <==> step == 2 && b == Start && selectedTool.Some?) &&
      (s < step <==> step == 2 && b == Back) &&
      (step == 3 ==> s == 3)
  {
  }

  class Wizard {
    var step: nat
    var expName: string
    var dataset: string
    var selectedTool: Option<string>
    var isRunning: bool
    var logs: seq<LogEntry>
    var progress: nat
    var timers: seq<Event>
    var finishScheduled: bool
    const store: Storage.LocalStorage

    predicate Valid()
      reads this
    {
      1 <= step <= 3 &&
      (selectedTool.Some? ==> FindTool(selectedTool.value).Some?) &&
      (step == 3 ==> selectedTool.Some?) &&
      (timers != [] || finishScheduled ==> step == 3)
    }

    function ToolName(): string
      reads this
      requires Valid() && selectedTool.Some?
    {
      FindTool(selectedTool.value).value.name
    }

    /** The first render with the mount effect applied: truthy drafts
        replace the empty name and dataset. */
    constructor (store: Storage.LocalStorage)
      ensures Valid() && this.store == store
      ensures step == 1 && selectedTool == None && !isRunning && logs == [] && progress == 0
      ensures expName == MockData.GetDraftExperimentName(store).GetOr("")
      ensures dataset == MockData.GetDraftProject(store).GetOr("")
      ensures timers == [] && !finishScheduled
    {
      this.store := store;
      step := 1;
      selectedTool := None;
      isRunning := false;
      logs := [];
      progress := 0;
      timers := [];
      finishScheduled := false;
      var savedName := MockData.GetDraftExperimentName(store);
      var savedDataset := MockData.GetDraftProject(store);
      expName := if savedName.Some? then savedName.value else "";
      dataset := if savedDataset.Some? then savedDataset.value else "";
    }

    /** `handleNameChange`: every edit is also written to the draft name.
        The name field is only shown on step 1. */
    method HandleNameChange(val: string)
      requires Valid() && step == 1
      modifies this, store
      ensures Valid()
      ensures expName == val && MockData.GetDraftExperimentName(store) == Some(val)
      ensures store.items == old(store.items)[MockData.DRAFT_EXPERIMENT_NAME := Storage.Text(val)]
      ensures step == old(step) && dataset == old(dataset) && selectedTool == old(selectedTool)
      ensures logs == old(logs) && progress == old(progress) && isRunning == old(isRunning)
      ensures timers == old(timers) && finishScheduled == old(finishScheduled)
    {
      expName := val;
      MockData.SetDraftExperimentName(store, val);
    }

    /** Clicking the card of `TOOLS[k]`; the cards are only shown on step 2. */
    method SelectTool(k: nat)
      requires Valid() && step == 2 && k < |TOOLS|
      modifies this
      ensures Valid()
      ensures selectedTool == Some(TOOLS[k].id)
      ensures step == old(step) && expName == old(expName) && dataset == old(dataset)
      ensures logs == old(logs) && progress == old(progress) && isRunning == old(isRunning)
      ensures timers == old(timers) && finishScheduled == old(finishScheduled)
    {
      selectedTool := Some(TOOLS[k].id);
    }

    /** A click on a navigation button; Start is `startExecution`, with
        `time` the clock reading of its first log line. */
    method Press(b: Button, time: string)
      requires Valid()
      modifies this
      ensures Valid()
      ensures step == NextStep(old(step), b, old(expName), old(dataset), old(selectedTool))
      ensures expName == old(expName) && dataset == old(dataset) && selectedTool == old(selectedTool)
      ensures old(step) == 2 && b == Start && old(selectedTool).Some? ==>
        isRunning && progress == 0 &&
        logs == [LogEntry(time, INIT_MESSAGE, "system")] &&
        timers == Schedule(dataset, ToolName()) && !finishScheduled
      ensures !(old(step) == 2 && b == Start && old(selectedTool).Some?) ==>
        isRunning == old(isRunning) && logs == old(logs) && progress == old(progress) &&
        timers == old(timers) && finishScheduled == old(finishScheduled)
    {
      if Offered(b, step) && Enabled(b, expName, dataset, selectedTool) {
        match b
        case Back =>
          step := step - 1;
        case Next =>
          step := 2;
        case Start =>
          step := 3;
          isRunning := true;
          progress := 0;
          logs := [];
          logs := logs + [LogEntry(time, INIT_MESSAGE, "system")];
          timers := Schedule(dataset, ToolName());
      }
    }

    /** The next scripted timer fires at clock reading `time`. */
    method Tick(time: string)
      requires Valid() && timers != []
      modifies this
      ensures Valid()
      ensures progress == old(timers[0]).p
      ensures logs == old(logs) + [LogEntry(time, Text(old(timers[0]).msg), old(timers[0]).kind)]
      ensures timers == old(timers[1..])
      ensures finishScheduled == (old(finishScheduled) || old(timers[0]).p == 100)
      ensures step == old(step) && expName == old(expName) && dataset == old(dataset)
      ensures selectedTool == old(selectedTool) && isRunning == old(isRunning)
    {
      var e := timers[0];
      progress := e.p;
      logs := logs + [LogEntry(time, Text(e.msg), e.kind)];
      timers := timers[1..];
      if e.p == 100 {
        finishScheduled := true;
      }
    }

    /** `finishExperiment`'s timer fires: the experiment is filed (with the
        clock readings `id`, `date`, `projectId`, `today` and the loss-curve
        draws `addExperiment` takes), the drafts are cleared and the run
        stops. */
    method Finish(id: int, date: string, projectId: int, today: string, draws: seq<real>)
      requires Valid() && finishScheduled && MockData.ValidDraws(draws)
      modifies this, store
      ensures step == old(step) && expName == old(expName) && dataset == old(dataset)
      ensures selectedTool == old(selectedTool) && logs == old(logs) && progress == old(progress)
      ensures timers == old(timers)
      ensures Valid() && !isRunning && !finishScheduled
      ensures store.items == FinishedItems(old(store.items),
        Filed(expName, dataset, ToolName(), id, date, draws), dataset, projectId, today)
    {
      FileExperiment(store, expName, dataset, ToolName(), id, date, projectId, today, draws);
      isRunning := false;
      finishScheduled := false;
    }
  }

  /** What `finishExperiment` does to the store: the experiment is filed
      through `addExperiment` and both drafts are removed. */
  method FileExperiment(store: Storage.LocalStorage, expName: string, dataset: string, toolName: string,
                        id: int, date: string, projectId: int, today: string, draws: seq<real>)
    requires MockData.ValidDraws(draws)
    modifies store
    ensures store.items == FinishedItems(old(store.items),
      Filed(expName, dataset, toolName, id, date, draws), dataset, projectId, today)
  {
    var submitted := Submitted(expName, dataset, toolName);
    SubmittedReads(expName, dataset, toolName);
    var r := MockData.AddExperiment(store, submitted, id, date, projectId, today, toolName, draws);
    MockData.ClearDraft(store);
  }

  /** How `addExperiment` reads the submitted fields: the model is the tool's
      name and the project is the dataset. */
  lemma SubmittedReads(expName: string, dataset: string, toolName: string)
    ensures MockData.ReadModel(Get(Submitted(expName, dataset, toolName), "model"), toolName)
      == Some(MockData.NamedModel(toolName))
    ensures Get(Submitted(expName, dataset, toolName), "project") == Some(Str(dataset))
  {
    SubmittedValues(expName, dataset, toolName);
  }

  /** After `finishExperiment` the experiment list starts with the filed
      record followed by the old list, the project list is the old one with
      the dataset's project bumped or added, both drafts are gone, and every
      other key is unchanged. */
  lemma FinishedItemsSpec(items: map<string, Storage.Item>, record: Record, dataset: string,
                          projectId: int, today: string)
    ensures var after := FinishedItems(items, record, dataset, projectId, today);
      MockData.StoredList(after, MockData.EXPERIMENTS) == [record] + MockData.StoredList(items, MockData.EXPERIMENTS) &&
      MockData.StoredList(after, MockData.PROJECTS) == MockData.ProjectsAfterExperiment(
        MockData.StoredList(items, MockData.PROJECTS), Some(Str(dataset)), projectId, today) &&
      MockData.DRAFT_PROJECT !in after && MockData.DRAFT_EXPERIMENT_NAME !in after
    ensures var after := FinishedItems(items, record, dataset, projectId, today);
      forall k ::
        (k in items && k != MockData.EXPERIMENTS && k != MockData.PROJECTS &&
         k != MockData.DRAFT_PROJECT && k != MockData.DRAFT_EXPERIMENT_NAME) ==>
        k in after && after[k] == items[k]
  {
  }
}
