/** The experiments list (frontend/src/pages/Experiments.jsx): a search box
    over the stored experiments and a check-box selection that opens the
    comparison once two or more are ticked. */
module ExperimentsPage {
  import opened Wrappers
  import opened Json
  import opened Seqs
  import opened Strings
  import MockData
  import Storage
  import ComparePage

  /** `handleSelect(id)`: an id already selected is removed, any other is
      added at the end. Ids are compared as `includes` and `!==` compare
      them, so two different experiments with an object id each are two
      ids. */
  function Toggle(selected: seq<Ident>, id: Ident): (r: seq<Ident>)
    ensures id in r <==> id !in selected
    ensures forall x :: x != id ==> (x in r <==> x in selected)
    ensures id !in selected ==> r == selected + [id]
    ensures id in selected ==> IsSubsequence(r, selected) && |r| < |selected|
  {
    if id in selected then
      FilterIsSubsequence(selected, Differs(id));
      FilterLength(selected, Differs(id));
      CountDropsMatch(selected, id);
      Filter(selected, Differs(id))
    else selected + [id]
  }

  function Differs(id: Ident): Ident -> bool {
    i => i != id
  }

  lemma {:induction false} CountDropsMatch(s: seq<Ident>, id: Ident)
    requires id in s
    ensures Count(s, Differs(id)) < |s|
  {
    var init := s[..|s| - 1];
    if s[|s| - 1] != id {
      assert id in init;
      CountDropsMatch(init, id);
    }
  }

  /** A duplicate-free selection stays duplicate-free. */
  lemma ToggleKeepsNoDuplicates(selected: seq<Ident>, id: Ident)
    requires NoDuplicates(selected)
    ensures NoDuplicates(Toggle(selected, id))
  {
    if id in selected {
      FilterNoDuplicates(selected, Differs(id));
    }
  }

  /** Ticking an unticked id and unticking it again restores the selection;
      unticking a ticked id and ticking it again moves it to the end. */
  lemma ToggleTwice(selected: seq<Ident>, id: Ident)
    ensures id !in selected ==> Toggle(Toggle(selected, id), id) == selected
    ensures id in selected ==>
      Toggle(Toggle(selected, id), id) == Filter(selected, Differs(id)) + [id]
  {
    if id !in selected {
      FilterAppend(selected, [id], Differs(id));
      FilterAll(selected, Differs(id));
      assert Filter([id], Differs(id)) == Filter([id][..0], Differs(id));
    }
  }

  /** The row test of `filtered`: the lower-cased name contains the
      lower-cased search, or else the project does. A name that is not a
      string, or a truthy project that is not one, makes `toLowerCase`
      throw. */
  function Keep(e: Record, search: string): (r: Result<bool, string>)
  {
    var q := ToLower(search);
    var name := Get(e, "name");
    if !(name.Some? && name.value.Str?) then Err("TypeError")
    else if Contains(ToLower(name.value.s), q) then Ok(true)
    else
      var project := Get(e, "project");
      if !JsTruthyOpt(project) then Ok(false)
      else if project.value.Str? then Ok(Contains(ToLower(project.value.s), q))
      else Err("TypeError")
  }

  predicate Kept(search: string, e: Record) {
    Keep(e, search) == Ok(true)
  }

  function KeptBy(search: string): Record -> bool {
    e => Kept(search, e)
  }

  /** A row is kept exactly when its name, or else its non-empty project,
      contains the search, ignoring ASCII case. */
  lemma KeepSpec(e: Record, search: string)
    ensures Kept(search, e) <==>
      "name" in e && e["name"].Str? &&
      (Contains(ToLower(e["name"].s), ToLower(search)) ||
       ("project" in e && e["project"].Str? && e["project"].s != "" &&
        Contains(ToLower(e["project"].s), ToLower(search))))
  {
  }

  /** `filtered`: a row that makes the test throw makes the whole render
      throw. */
  function Filtered(experiments: seq<Record>, search: string): (r: Result<seq<Record>, string>)
  {
    if experiments == [] then Ok([])
    else
      var init := Filtered(experiments[..|experiments| - 1], search);
      var keep := Keep(experiments[|experiments| - 1], search);
      if init.Err? then init
      else if keep.Err? then Err(keep.error)
      else Ok(init.value + (if keep.value then [experiments[|experiments| - 1]] else []))
  }

  /** Filtering succeeds exactly when every row can be tested, and then
      keeps the rows that pass, in stored order. */
  lemma {:induction false} FilteredSpec(experiments: seq<Record>, search: string)
    ensures Filtered(experiments, search).Ok? <==> forall e :: e in experiments ==> Keep(e, search).Ok?
    ensures Filtered(experiments, search).Ok? ==>
      Filtered(experiments, search).value == Filter(experiments, KeptBy(search))
  {
    if experiments != [] {
      var init := experiments[..|experiments| - 1];
      var last := experiments[|experiments| - 1];
      FilteredSpec(init, search);
      assert forall e :: e in experiments <==> e in init || e == last;
    }
  }

  /** The kept rows are a subsequence of the stored ones. */
  lemma FilteredInOrder(experiments: seq<Record>, search: string)
    requires Filtered(experiments, search).Ok?
    ensures IsSubsequence(Filtered(experiments, search).value, experiments)
  {
    FilteredSpec(experiments, search);
    FilterIsSubsequence(experiments, KeptBy(search));
  }

  predicate HasStringName(e: Record) {
    "name" in e && e["name"].Str?
  }

  /** An empty search keeps every row. */
  lemma EmptySearchKeepsAll(experiments: seq<Record>)
    requires forall e :: e in experiments ==> HasStringName(e)
    ensures Filtered(experiments, "") == Ok(experiments)
  {
    forall e: Record | e in experiments
      ensures Keep(e, "") == Ok(true)
    {
      ContainsEmpty(ToLower(e["name"].s));
    }
    FilteredSpec(experiments, "");
    FilterAll(experiments, KeptBy(""));
  }

  /** The buttons beside the search box, or the empty-state button. */
  datatype Action = Compare(count: nat) | Run | RunFirst

  function Actions(experiments: seq<Record>, selected: seq<Ident>): (a: Action)
    ensures a == RunFirst <==> experiments == []
    ensures a.Compare? <==> experiments != [] && |selected| >= 2
    ensures a.Compare? ==> a.count == |selected|
    ensures a == Run <==> experiments != [] && |selected| < 2
  {
    if experiments == [] then RunFirst
    else if |selected| >= 2 then Compare(|selected|)
    else Run
  }

  /** Compare hands over a non-empty id list, so the comparison page does
      not redirect, and shows exactly the stored experiments whose ticked id
      is a primitive: the page reads the store afresh, so an object or array
      id matches none of its records. */
  lemma CompareShowsSelected(stored: seq<Record>, selected: seq<Ident>)
    requires Actions(stored, selected).Compare?
    ensures ComparePage.Selection(stored, selected).Some?
    ensures forall e :: e in ComparePage.Selection(stored, selected).value <==>
      e in stored && !IsReference(Get(e, "id")) && Primitive(Get(e, "id")) in selected
  {
  }

  /** Ticking two different rows selects two ids, unless their ids are
      `===`, in which case the second tick unticks the first. */
  lemma TickTwoRows(experiments: seq<Record>, i: nat, j: nat)
    requires i < |experiments| && j < |experiments| && i != j
    ensures var a := IdentOf(experiments, i, "id");
      var b := IdentOf(experiments, j, "id");
      Toggle(Toggle([], a), b) ==
        (if StrictEq(Get(experiments[i], "id"), Get(experiments[j], "id")) then [] else [a, b])
  {
    var a := IdentOf(experiments, i, "id");
    var b := IdentOf(experiments, j, "id");
    SameIdent(experiments, i, j, "id");
    if a == b {
      assert Toggle([], a) == [a];
      assert Filter([a], Differs(a)) == Filter([a][..0], Differs(a)) + [];
    }
  }

  class ExperimentsView {
    var selected: seq<Ident>
    var search: string
    var experiments: seq<Record>

    /** The first render with the mount effect applied. */
    constructor (store: Storage.LocalStorage)
      ensures selected == [] && search == ""
      ensures experiments == MockData.Experiments(store)
    {
      selected := [];
      search := "";
      experiments := MockData.Experiments(store);
    }

    /** The check box of `experiments[row]`: ticked iff its id is selected. */
    function Checked(row: nat): bool
      reads this
      requires row < |experiments|
    {
      IdentOf(experiments, row, "id") in selected
    }

    /** A click on the check box of `experiments[row]`, which calls
        `handleSelect(exp.id)`. */
    method HandleSelect(row: nat)
      requires row < |experiments|
      modifies this
      ensures search == old(search) && experiments == old(experiments)
      ensures selected == Toggle(old(selected), IdentOf(experiments, row, "id"))
      ensures Checked(row) <==> !old(Checked(row))
    {
      var id := IdentOf(experiments, row, "id");
      if id in selected {
        selected := Filter(selected, Differs(id));
      } else {
        selected := selected + [id];
      }
    }

    method SetSearch(text: string)
      modifies this
      ensures search == text
      ensures selected == old(selected) && experiments == old(experiments)
    {
      search := text;
    }

    function Rows(): Result<seq<Record>, string>
      reads this
    {
      Filtered(experiments, search)
    }
  }
}
