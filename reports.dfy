/** The report builder (frontend/src/pages/Reports.jsx): five check-boxes
    over a configuration object, and a preview whose sections follow four
    of them. */
module Reports {
  import opened Strings
  import opened Seqs

  /** A JavaScript object of booleans: its keys in insertion order, as
      `Object.keys` lists them, and their values. */
  datatype Config = Config(keys: seq<string>, flags: map<string, bool>)
  {
    predicate Valid() {
      NoDuplicates(keys) && (forall k :: k in flags ==> k in keys) && (forall k :: k in keys ==> k in flags)
    }
  }

  const INITIAL := Config(
    ["modelPerformance", "featureImportance", "confusionMatrix", "hyperparameters", "systemLogs"],
    map["modelPerformance" := true, "featureImportance" := true, "confusionMatrix" := false,
        "hyperparameters" := true, "systemLogs" := false])

  /** The initial configuration: five keys in this order, three ticked. */
  lemma InitialConfig()
    ensures INITIAL.Valid() && |INITIAL.keys| == 5
    ensures INITIAL.flags["modelPerformance"] && INITIAL.flags["featureImportance"] && INITIAL.flags["hyperparameters"]
    ensures !INITIAL.flags["confusionMatrix"] && !INITIAL.flags["systemLogs"]
  {
  }

  /** `toggle(key)`: `{ ...config, [key]: !config[key] }`. An absent key is
      `undefined`, whose negation is `true`, and it joins at the end. */
  function Toggle(c: Config, key: string): (r: Config)
    requires c.Valid()
    ensures r.Valid()
  {
    var flipped := !(key in c.flags && c.flags[key]);
    if key in c.flags then Config(c.keys, c.flags[key := flipped])
    else
      assert NoDuplicates(c.keys + [key]);
      Config(c.keys + [key], c.flags[key := flipped])
  }

  /** Toggling flips the named key and leaves every other key and the key
      order alone; an existing key keeps the key set. */
  lemma ToggleSpec(c: Config, key: string)
    requires c.Valid()
    ensures var r := Toggle(c, key);
      key in r.flags && r.flags[key] == !(key in c.flags && c.flags[key]) &&
      (forall k :: k in c.flags && k != key ==> k in r.flags && r.flags[k] == c.flags[k]) &&
      (key in c.flags ==> r.keys == c.keys && r.flags.Keys == c.flags.Keys) &&
      (key !in c.flags ==> r.keys == c.keys + [key] && r.flags[key])
  {
  }

  /** Toggling an existing key twice gives back the configuration. */
  lemma ToggleTwice(c: Config, key: string)
    requires c.Valid() && key in c.flags
    ensures Toggle(Toggle(c, key), key) == c
  {
    var r := Toggle(Toggle(c, key), key);
    assert r.flags == c.flags;
  }

  /** The preview sections in page order, each with the flag it follows. */
  const SECTIONS: seq<string> := ["modelPerformance", "featureImportance", "confusionMatrix", "hyperparameters"]

  predicate Ticked(c: Config, key: string) {
    key in c.flags && c.flags[key]
  }

  function TickedIn(c: Config): string -> bool {
    k => Ticked(c, k)
  }

  /** The sections the preview renders. */
  function Sections(c: Config): (s: seq<string>)
    ensures forall k :: k in s <==> k in SECTIONS && Ticked(c, k)
  {
    Filter(SECTIONS, TickedIn(c))
  }

  /** The system-logs box shows no section: ticking it changes nothing in
      the preview. */
  lemma SystemLogsShowsNothing(c: Config)
    requires c.Valid()
    ensures Sections(Toggle(c, "systemLogs")) == Sections(c)
  {
    var r := Toggle(c, "systemLogs");
    assert forall k :: k in SECTIONS ==> (Ticked(r, k) <==> Ticked(c, k));
    SameFilter(SECTIONS, TickedIn(r), TickedIn(c));
  }

  lemma {:induction false} SameFilter(s: seq<string>, p: string -> bool, q: string -> bool)
    requires forall k :: k in s ==> (p(k) <==> q(k))
    ensures Filter(s, p) == Filter(s, q)
  {
    if s != [] {
      SameFilter(s[..|s| - 1], p, q);
    }
  }

  /** The initial preview shows model performance, feature importance and
      hyperparameters, but not the confusion matrix. */
  lemma InitialSections()
    ensures Sections(INITIAL) == ["modelPerformance", "featureImportance", "hyperparameters"]
  {
    var p := TickedIn(INITIAL);
    assert p(SECTIONS[0]) && p(SECTIONS[1]) && !p(SECTIONS[2]) && p(SECTIONS[3]) by {
      InitialConfig();
    }
    FilterDropsThird(SECTIONS, p);
  }

  /** Filtering four items of which only the third fails. */
  lemma FilterDropsThird(s: seq<string>, p: string -> bool)
    requires |s| == 4 && p(s[0]) && p(s[1]) && !p(s[2]) && p(s[3])
    ensures Filter(s, p) == [s[0], s[1], s[3]]
  {
    assert s[..1][..0] == [];
    assert Filter(s[..1], p) == [s[0]];
    assert s[..2][..1] == s[..1];
    assert Filter(s[..2], p) == [s[0], s[1]];
    assert s[..3][..2] == s[..2];
    assert Filter(s[..3], p) == [s[0], s[1]];
    assert s[..3] == s[..|s| - 1];
  }

  /** `key.replace(/([A-Z])/g, ' $1').trim()`: a space before each capital. */
  function Label(key: string): string {
    Trim(Spaced(key))
  }

  /** One space is inserted per capital letter. */
  function Spaced(key: string): (r: string)
    ensures |r| == |key| + |Filter(key, IsCapital)|
  {
    if key == [] then []
    else Spaced(key[..|key| - 1]) + (if 'A' <= key[|key| - 1] <= 'Z' then [' ', key[|key| - 1]] else [key[|key| - 1]])
  }

  /** Removing the inserted spaces gives the key back. */
  lemma {:induction false} SpacedKeepsLetters(key: string)
    requires ' ' !in key
    ensures Filter(Spaced(key), NotSpace) == key
  {
    if key != [] {
      var init := key[..|key| - 1];
      var c := key[|key| - 1];
      assert key == init + [c];
      assert ' ' !in init;
      SpacedKeepsLetters(init);
      var tail := if 'A' <= c <= 'Z' then [' ', c] else [c];
      assert Spaced(key) == Spaced(init) + tail;
      FilterAppend(Spaced(init), tail, NotSpace);
      TailKeepsLetter(c);
    }
  }

  /** Each letter of the key is shifted right by one place per capital
      before it, and a capital comes right after its own space. */
  lemma {:induction false} SpacedPositions(key: string)
    ensures forall i :: 0 <= i < |key| ==> Placed(key, Spaced(key), i)
  {
    if key != [] {
      var n := |key|;
      var init := key[..n - 1];
      var c := key[n - 1];
      SpacedPositions(init);
      var tail := if IsCapital(c) then [' ', c] else [c];
      assert key == init + [c];
      assert Spaced(key) == Spaced(init) + tail;
      forall i | 0 <= i < n
        ensures Placed(key, Spaced(key), i)
      {
        if i < n - 1 {
          PlacedExtend(init, Spaced(init), c, tail, i);
        } else {
          PlacedLast(init, c);
        }
      }
    }
  }

  lemma PlacedExtend(a: string, s: string, c: char, tail: string, i: nat)
    requires i < |a| && Placed(a, s, i)
    ensures Placed(a + [c], s + tail, i)
  {
    var b := a + [c];
    assert b[i] == a[i] && b[..i] == a[..i];
  }

  lemma PlacedLast(a: string, c: char)
    ensures Placed(a + [c], Spaced(a) + (if IsCapital(c) then [' ', c] else [c]), |a|)
  {
    var b := a + [c];
    var s := Spaced(a);
    var r := s + (if IsCapital(c) then [' ', c] else [c]);
    assert b[|a|] == c && b[..|a|] == a;
    assert |a| + |Filter(a, IsCapital)| == |s|;
    if IsCapital(c) {
      assert r[|s|] == ' ' && r[|s| + 1] == c;
    } else {
      assert r[|s|] == c;
    }
  }

  /** In `r`, the letter `key[i]` sits at `i` plus the number of capitals
      before it, one place further for a capital, with a space before it. */
  predicate Placed(key: string, r: string, i: nat)
    requires i < |key|
  {
    var j := i + |Filter(key[..i], IsCapital)|;
    if IsCapital(key[i]) then j + 1 < |r| && r[j] == ' ' && r[j + 1] == key[i]
    else j < |r| && r[j] == key[i]
  }

  lemma TailKeepsLetter(c: char)
    requires c != ' '
    ensures Filter(if 'A' <= c <= 'Z' then [' ', c] else [c], NotSpace) == [c]
  {
    var tail := if 'A' <= c <= 'Z' then [' ', c] else [c];
    if 'A' <= c <= 'Z' {
      assert tail[..1] == [' '] && tail[..1][..0] == [];
    } else {
      assert tail[..0] == [];
    }
  }

  predicate IsCapital(c: char) {
    'A' <= c <= 'Z'
  }

  predicate NotSpace(c: char) {
    c != ' '
  }

  class ReportsView {
    var config: Config

    constructor ()
      ensures config == INITIAL
    {
      config := INITIAL;
    }

    /** Clicking the box of `key`. */
    method OnToggle(key: string)
      requires config.Valid()
      modifies this
      ensures config == Toggle(old(config), key) && config.Valid()
    {
      config := Toggle(config, key);
    }
  }
}
