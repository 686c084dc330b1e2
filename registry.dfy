/** The backend's result registry (backend/compare/registry.py): a JSON file
    holding a list of result records, upserted on the pair (dataset, tool). */
module Registry {
  import opened Wrappers
  import opened Json
  import opened Strings
  import opened Seqs

  const UNKNOWN_MODEL := "UNKNOWN_MODEL"

  /** `r.get("dataset") == dataset and r.get("tool") == tool`; a record
      without the field matches an entry without it (`None == None`). */
  predicate SameKey(r: Record, dataset: Option<Value>, tool: Option<Value>) {
    Get(r, "dataset") == dataset && Get(r, "tool") == tool
  }

  /** The comprehension's condition: keep what does not share the key. */
  function Differs(dataset: Option<Value>, tool: Option<Value>): Record -> bool {
    r => !SameKey(r, dataset, tool)
  }

  function Matches(dataset: Option<Value>, tool: Option<Value>): Record -> bool {
    r => SameKey(r, dataset, tool)
  }

  /** `"model_id" in lb[0]` followed by `lb[0]["model_id"]`. A dict head
      answers by its keys; a string head by substring and a list head by
      membership, and indexing either with "model_id" raises TypeError
      (a formatted number string never contains it); `in` on a number,
      boolean or None raises TypeError. */
  function HeadModelId(head: Value): (r: Result<Option<Value>, string>)
    ensures head.Obj? ==> r == Ok(Get(head.fields, "model_id"))
    ensures head.Null? || head.Bool? || head.Num? ==> r == Err("TypeError")
  {
    match head
    case Obj(f) => Ok(Get(f, "model_id"))
    case Str(s) => if Contains(s, "model_id") then Err("TypeError") else Ok(None)
    case Arr(xs) => if Str("model_id") in xs then Err("TypeError") else Ok(None)
    case Fixed(_, _) => Ok(None)
    case _ => Err("TypeError")
  }

  /** The `best_model` defaulting of `save_result`. */
  function WithBestModel(entry: Record): (r: Result<Record, string>)
    ensures PyTruthyOpt(Get(entry, "best_model")) ==> r == Ok(entry)
    ensures r.Ok? ==> r.value.Keys == entry.Keys + {"best_model"}
    ensures r.Ok? ==> forall k :: k in entry && k != "best_model" ==> r.value[k] == entry[k]
  {
    if PyTruthyOpt(Get(entry, "best_model")) then Ok(entry)
    else
      var lb := Get(entry, "leaderboard").GetOr(Arr([]));
      if PyTruthy(lb) && lb.Arr? then
        match HeadModelId(lb.items[0])
        case Err(e) => Err(e)
        case Ok(Some(id)) => Ok(entry["best_model" := id])
        case Ok(None) => Ok(entry["best_model" := Str(UNKNOWN_MODEL)])
      else Ok(entry["best_model" := Str(UNKNOWN_MODEL)])
  }

  /** The stored list after `save_result`: old records with the entry's
      (dataset, tool) removed, the entry appended. */
  function Upsert(data: seq<Record>, entry: Record): seq<Record> {
    Filter(data, Differs(Get(entry, "dataset"), Get(entry, "tool"))) + [entry]
  }

  /** The entry, defaulted, then upserted. */
  function Saved(data: seq<Record>, entry: Record): Result<seq<Record>, string> {
    match WithBestModel(entry)
    case Err(e) => Err(e)
    case Ok(e) => Ok(Upsert(data, e))
  }

  /** Without a truthy `best_model`, the head of a non-empty leaderboard
      list supplies it when it is a dict with `model_id`, and otherwise it
      is "UNKNOWN_MODEL" (for a head that is a dict without `model_id`, or
      when the leaderboard is missing, empty or not a list). */
  lemma BestModelDefaulting(entry: Record)
    requires !PyTruthyOpt(Get(entry, "best_model"))
    ensures var lb := Get(entry, "leaderboard").GetOr(Arr([]));
      (lb.Arr? && lb.items != [] && lb.items[0].Obj? && "model_id" in lb.items[0].fields ==>
        WithBestModel(entry) == Ok(entry["best_model" := lb.items[0].fields["model_id"]])) &&
      (!(lb.Arr? && lb.items != []) || (lb.items[0].Obj? && "model_id" !in lb.items[0].fields) ==>
        WithBestModel(entry) == Ok(entry["best_model" := Str(UNKNOWN_MODEL)]))
  {
  }

  /** Defaulting twice is defaulting once. */
  lemma WithBestModelIdempotent(entry: Record)
    requires WithBestModel(entry).Ok?
    ensures WithBestModel(WithBestModel(entry).value) == WithBestModel(entry)
  {
    var e := WithBestModel(entry).value;
    if !PyTruthyOpt(Get(entry, "best_model")) {
      assert Get(e, "leaderboard") == Get(entry, "leaderboard");
      assert e == entry["best_model" := e["best_model"]];
      assert e["best_model" := e["best_model"]] == e;
    }
  }

  /** After an upsert exactly one record carries the entry's key, the last. */
  lemma UpsertOneMatchLast(data: seq<Record>, entry: Record)
    ensures var d, t := Get(entry, "dataset"), Get(entry, "tool");
      var after := Upsert(data, entry);
      after[|after| - 1] == entry && Count(after, Matches(d, t)) == 1
  {
    var d, t := Get(entry, "dataset"), Get(entry, "tool");
    var kept := Filter(data, Differs(d, t));
    CountNone(kept, Matches(d, t));
    CountAppend(kept, [entry], Matches(d, t));
    assert [entry][..0] == [];
  }

  /** Records under another key are all kept, in their original order. */
  lemma UpsertKeepsOthers(data: seq<Record>, entry: Record)
    ensures var p := Differs(Get(entry, "dataset"), Get(entry, "tool"));
      Filter(Upsert(data, entry), p) == Filter(data, p) &&
      IsSubsequence(Filter(data, p), data)
  {
    var p := Differs(Get(entry, "dataset"), Get(entry, "tool"));
    var kept := Filter(data, p);
    FilterAppend(kept, [entry], p);
    assert [entry][..0] == [];
    FilterIdempotent(data, p);
    FilterIsSubsequence(data, p);
  }

  /** New length = old length - old records with the key + 1. */
  lemma UpsertLength(data: seq<Record>, entry: Record)
    ensures var d, t := Get(entry, "dataset"), Get(entry, "tool");
      |Upsert(data, entry)| == |data| - Count(data, Matches(d, t)) + 1
  {
    var d, t := Get(entry, "dataset"), Get(entry, "tool");
    FilterLength(data, Differs(d, t));
    CountComplement(data, d, t);
  }

  lemma {:induction false} CountComplement(data: seq<Record>, d: Option<Value>, t: Option<Value>)
    ensures Count(data, Differs(d, t)) + Count(data, Matches(d, t)) == |data|
  {
    if data != [] {
      CountComplement(data[..|data| - 1], d, t);
    }
  }

  /** Saving the same entry twice stores what saving it once stores. */
  lemma SaveIdempotent(data: seq<Record>, entry: Record)
    requires Saved(data, entry).Ok?
    ensures Saved(Saved(data, entry).value, entry) == Saved(data, entry)
  {
    var e := WithBestModel(entry).value;
    var p := Differs(Get(e, "dataset"), Get(e, "tool"));
    assert Get(e, "dataset") == Get(entry, "dataset") && Get(e, "tool") == Get(entry, "tool");
    var once := Upsert(data, e);
    FilterAppend(Filter(data, p), [e], p);
    assert [e][..0] == [];
    FilterIdempotent(data, p);
    assert Filter(once, p) == Filter(data, p);
  }

  /** The comprehension of `save_result`, as the loop it is. */
  method WithoutKey(data: seq<Record>, dataset: Option<Value>, tool: Option<Value>)
    returns (kept: seq<Record>)
    ensures kept == Filter(data, Differs(dataset, tool))
  {
    kept := [];
    var i := 0;
    while i < |data|
      invariant 0 <= i <= |data|
      invariant kept == Filter(data[..i], Differs(dataset, tool))
    {
      FilterPrefixStep(data, i, Differs(dataset, tool));
      if Differs(dataset, tool)(data[i]) {
        kept := kept + [data[i]];
      }
      i := i + 1;
    }
    assert data[..|data|] == data;
  }

  /** The results file: `None` until the first save creates it. */
  class ResultStore {
    var file: Option<seq<Record>>

    constructor ()
      ensures file == None
    {
      file := None;
    }

    /** `load_results()`: `[]` when the file does not exist. */
    function LoadResults(): (data: seq<Record>)
      reads this
      ensures file.None? ==> data == []
      ensures file.Some? ==> data == file.value
    {
      file.GetOr([])
    }

    /** `save_result(entry)`. The caller's dict is updated in place; the
        updated entry is returned. A TypeError raised by the defaulting
        writes nothing. */
    method SaveResult(entry: Record) returns (r: Result<Record, string>)
      modifies this
      ensures r == WithBestModel(entry)
      ensures r.Err? ==> file == old(file)
      ensures r.Ok? ==> file == Some(Upsert(old(LoadResults()), r.value))
    {
      var data := LoadResults();
      r := WithBestModel(entry);
      if r.Err? {
        return;
      }
      var e := r.value;
      data := WithoutKey(data, Get(e, "dataset"), Get(e, "tool"));
      data := data + [e];
      file := Some(data);
    }
  }
}
