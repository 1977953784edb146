/** The options store of the simulator: three dictionaries with fixed keys
    (instrument options, simulation options and model choices) that
    scenarios and manual settings overwrite in place. */
module Options {
  import opened Wrappers

  /** An option value as the store holds it: an integer, a floating-point
      constant (modelled by the exact decimal it is written as) or a string.
      Values are only stored, never computed with. */
  datatype Value = Int(i: int) | Real(x: real) | Str(text: string)

  /** The three dictionaries of the store. */
  datatype Dict = ArrayDict | OtherDict | ModelsDict

  /** The order in which a manual setting searches the dictionaries. */
  const SearchOrder: seq<Dict> := [ArrayDict, OtherDict, ModelsDict]

  /** Position of a dictionary in the search order. */
  function Rank(d: Dict): (n: nat)
    ensures n < |SearchOrder| && SearchOrder[n] == d
  {
    match d
    case ArrayDict => 0
    case OtherDict => 1
    case ModelsDict => 2
  }

  const ArrayKeys: set<string> :=
    {"diameter", "quantum_eff", "throughput", "wl_min", "wl_max",
     "spec_res", "baseline", "bl_min", "bl_max", "ratio"}
  const OtherKeys: set<string> := {"image_size", "wl_optimal", "n_plugins"}
  const ModelsKeys: set<string> := {"localzodi", "habitable"}
  const AllKeys: set<string> := ArrayKeys + OtherKeys + ModelsKeys

  /** The value of the three dictionaries. */
  datatype Store = Store(arrayOptions: map<string, Value>, other: map<string, Value>, models: map<string, Value>)

  function Get(s: Store, d: Dict): map<string, Value> {
    match d
    case ArrayDict => s.arrayOptions
    case OtherDict => s.other
    case ModelsDict => s.models
  }

  function Put(s: Store, d: Dict, m: map<string, Value>): Store {
    match d
    case ArrayDict => s.(arrayOptions := m)
    case OtherDict => s.(other := m)
    case ModelsDict => s.(models := m)
  }

  /** Every dictionary holds exactly its documented keys. */
  predicate WellFormed(s: Store) {
    s.arrayOptions.Keys == ArrayKeys && s.other.Keys == OtherKeys && s.models.Keys == ModelsKeys
  }

  /** A value written as 0 or 0. in the source. */
  predicate IsZero(v: Value) {
    v == Int(0) || v == Real(0.0)
  }

  /** The documented key sets have 10, 3 and 2 keys and no key in common. */
  lemma KeySetsDisjoint()
    ensures |ArrayKeys| == 10 && |OtherKeys| == 3 && |ModelsKeys| == 2
    ensures ArrayKeys !! OtherKeys && ArrayKeys !! ModelsKeys && OtherKeys !! ModelsKeys
  {
  }

  /** The store as the constructor leaves it. */
  function Initial(): (s: Store)
    ensures WellFormed(s)
    ensures forall k :: k in s.arrayOptions ==> IsZero(s.arrayOptions[k])
    ensures forall k :: k in s.other ==> IsZero(s.other[k])
    ensures forall k :: k in s.models ==> s.models[k] == Str("")
  {
    Store(
      map["diameter" := Real(0.0), "quantum_eff" := Real(0.0), "throughput" := Real(0.0),
          "wl_min" := Real(0.0), "wl_max" := Real(0.0), "spec_res" := Int(0),
          "baseline" := Real(0.0), "bl_min" := Real(0.0), "bl_max" := Real(0.0),
          "ratio" := Real(0.0)],
      map["image_size" := Int(0), "wl_optimal" := Real(0.0), "n_plugins" := Int(0)],
      map["localzodi" := Str(""), "habitable" := Str("")])
  }

  // ---------------------------------------------------------------------------
  // Scenarios

  /** The case-specific aperture diameter and wavelength band of a scenario. */
  datatype Band = Band(diameter: real, wlMin: real, wlMax: real)

  /** The settings of the three recognised scenarios; None for any other name. */
  function CaseBand(scenario: string): (r: Option<Band>)
    ensures r.Some? <==> scenario in {"baseline", "pessimistic", "optimistic"}
    ensures r.Some? ==> 0.0 < r.value.diameter && 0.0 < r.value.wlMin < r.value.wlMax
  {
    if scenario == "baseline" then Some(Band(2.0, 4.0, 18.5))
    else if scenario == "pessimistic" then Some(Band(1.0, 6.0, 17.0))
    else if scenario == "optimistic" then Some(Band(3.5, 3.0, 20.0))
    else None
  }

  predicate Recognised(scenario: string) {
    CaseBand(scenario).Some?
  }

  /** The instrument options every scenario overwrites, and the ones only a
      recognised scenario overwrites. */
  const CommonArrayKeys: set<string> :=
    {"quantum_eff", "throughput", "spec_res", "baseline", "bl_min", "bl_max", "ratio"}
  const CaseKeys: set<string> := {"diameter", "wl_min", "wl_max"}

  /** The store after a scenario has been applied to s. */
  function Scenario(s: Store, scenario: string): Store {
    var arrayOptions := s.arrayOptions["quantum_eff" := Real(0.7)]["throughput" := Real(0.05)]
      ["spec_res" := Real(20.0)]["baseline" := Real(20.0)]["bl_min" := Real(10.0)]
      ["bl_max" := Real(100.0)]["ratio" := Real(6.0)];
    var other := s.other["image_size" := Int(256)]["wl_optimal" := Int(15)]["n_plugins" := Int(5)];
    var models := s.models["localzodi" := Str("darwinsim")]["habitable" := Str("MS")];
    match CaseBand(scenario)
    case None => Store(arrayOptions, other, models)
    case Some(b) =>
      Store(arrayOptions["diameter" := Real(b.diameter)]["wl_min" := Real(b.wlMin)]["wl_max" := Real(b.wlMax)],
            other, models)
  }

  /** Whatever the scenario name, the common options take the scenario constants. */
  lemma ScenarioSetsCommon(s: Store, scenario: string)
    ensures var r := Scenario(s, scenario);
      && r.arrayOptions["quantum_eff"] == Real(0.7) && r.arrayOptions["throughput"] == Real(0.05)
      && r.arrayOptions["spec_res"] == Real(20.0) && r.arrayOptions["baseline"] == Real(20.0)
      && r.arrayOptions["bl_min"] == Real(10.0) && r.arrayOptions["bl_max"] == Real(100.0)
      && r.arrayOptions["ratio"] == Real(6.0)
      && r.other["image_size"] == Int(256) && r.other["wl_optimal"] == Int(15)
      && r.other["n_plugins"] == Int(5)
      && r.models["localzodi"] == Str("darwinsim") && r.models["habitable"] == Str("MS")
  {
  }

  /** The three recognised scenarios set diameter and band as documented; in
      every one of them the band is non-empty and the baseline lies within
      its allowed range. */
  lemma RecognisedScenarios(s: Store, scenario: string)
    requires Recognised(scenario)
    ensures var r := Scenario(s, scenario);
      && (scenario == "baseline" ==>
            r.arrayOptions["diameter"] == Real(2.0) && r.arrayOptions["wl_min"] == Real(4.0) && r.arrayOptions["wl_max"] == Real(18.5))
      && (scenario == "pessimistic" ==>
            r.arrayOptions["diameter"] == Real(1.0) && r.arrayOptions["wl_min"] == Real(6.0) && r.arrayOptions["wl_max"] == Real(17.0))
      && (scenario == "optimistic" ==>
            r.arrayOptions["diameter"] == Real(3.5) && r.arrayOptions["wl_min"] == Real(3.0) && r.arrayOptions["wl_max"] == Real(20.0))
      && r.arrayOptions["wl_min"].Real? && r.arrayOptions["wl_max"].Real? && r.arrayOptions["wl_min"].x < r.arrayOptions["wl_max"].x
      && r.arrayOptions["bl_min"].x <= r.arrayOptions["baseline"].x <= r.arrayOptions["bl_max"].x
  {
  }

  /** An unrecognised scenario leaves diameter and band as they were, although
      the common options are still overwritten. */
  lemma UnrecognisedScenario(s: Store, scenario: string)
    requires !Recognised(scenario)
    ensures var r := Scenario(s, scenario);
      forall k :: k in CaseKeys && k in s.arrayOptions ==> k in r.arrayOptions && r.arrayOptions[k] == s.arrayOptions[k]
  {
  }

  /** A scenario writes only the documented keys: every other entry is kept. */
  lemma ScenarioFrame(s: Store, scenario: string)
    ensures var r := Scenario(s, scenario);
      && (forall k :: k in s.arrayOptions && k !in CommonArrayKeys + CaseKeys ==> r.arrayOptions[k] == s.arrayOptions[k])
      && (forall k :: k in s.other && k !in OtherKeys ==> r.other[k] == s.other[k])
      && (forall k :: k in s.models && k !in ModelsKeys ==> r.models[k] == s.models[k])
  {
  }

  /** On a well-formed store a scenario adds no key. */
  lemma ScenarioKeepsKeys(s: Store, scenario: string)
    requires WellFormed(s)
    ensures WellFormed(Scenario(s, scenario))
  {
  }

  /** Applying the same scenario twice is the same as applying it once. */
  lemma ScenarioIdempotent(s: Store, scenario: string)
    ensures Scenario(Scenario(s, scenario), scenario) == Scenario(s, scenario)
  {
  }

  // ---------------------------------------------------------------------------
  // Manual settings

  /** The index, from position `from` on in the search order, of the first
      dictionary that contains key. */
  function FirstContaining(s: Store, key: string, from: nat): (r: Option<nat>)
    requires from <= |SearchOrder|
    ensures r.Some? ==> from <= r.value < |SearchOrder| && key in Get(s, SearchOrder[r.value])
    ensures r.Some? ==> forall j :: from <= j < r.value ==> key !in Get(s, SearchOrder[j])
    ensures r.None? ==> forall j :: from <= j < |SearchOrder| ==> key !in Get(s, SearchOrder[j])
    decreases |SearchOrder| - from
  {
    if from == |SearchOrder| then None
    else if key in Get(s, SearchOrder[from]) then Some(from)
    else FirstContaining(s, key, from + 1)
  }

  /** The search finds the dictionary at index j when that is the first one
      holding key. */
  lemma {:induction false} FirstContainingIs(s: Store, key: string, j: nat, from: nat)
    requires from <= j < |SearchOrder| && key in Get(s, SearchOrder[j])
    requires forall m :: from <= m < j ==> key !in Get(s, SearchOrder[m])
    ensures FirstContaining(s, key, from) == Some(j)
    decreases j - from
  {
  }

  /** The key is held by one of the dictionaries. */
  predicate Known(s: Store, key: string) {
    key in s.arrayOptions || key in s.other || key in s.models
  }

  /** No key is held by two dictionaries. */
  predicate Disjoint(s: Store) {
    s.arrayOptions.Keys !! s.other.Keys && s.arrayOptions.Keys !! s.models.Keys && s.other.Keys !! s.models.Keys
  }

  /** In a well-formed store the known keys are exactly the documented ones,
      each in one dictionary. */
  lemma WellFormedKeys(s: Store)
    requires WellFormed(s)
    ensures Disjoint(s)
    ensures forall k :: Known(s, k) <==> k in AllKeys
  {
  }

  /** Setting one option: the key is written in the first dictionary that
      contains it; an unknown key gives None. */
  function SetOption(s: Store, key: string, v: Value): (r: Option<Store>)
    ensures r.None? <==> !Known(s, key)
    ensures r.Some? ==> forall d :: Get(r.value, d).Keys == Get(s, d).Keys
    ensures r.Some? ==> forall d, k {:trigger Get(r.value, d)[k]} :: k in Get(s, d) ==>
      Get(r.value, d)[k] ==
        if k == key && (forall d' :: Rank(d') < Rank(d) ==> key !in Get(s, d')) then v else Get(s, d)[k]
  {
    match FirstContaining(s, key, 0)
    case None =>
      assert key !in Get(s, SearchOrder[0]) && key !in Get(s, SearchOrder[1]) && key !in Get(s, SearchOrder[2]);
      None
    case Some(j) =>
      var d := SearchOrder[j];
      assert forall d' :: Rank(d') < Rank(d) ==> key !in Get(s, d') by {
        forall d' | Rank(d') < Rank(d) ensures key !in Get(s, d') { assert SearchOrder[Rank(d')] == d'; }
      }
      Some(Put(s, d, Get(s, d)[key := v]))
  }

  /** Outcome of a manual setting: all options applied, or stopped at the
      first unknown option with the earlier ones already applied. */
  datatype ManualResult = Completed(store: Store) | UnknownOption(store: Store, key: string)

  function UnknownKey(r: ManualResult): Option<string> {
    match r
    case Completed(_) => None
    case UnknownOption(_, k) => Some(k)
  }

  /** Every key of the keyword arguments is held by the store. */
  predicate AllKnown(s: Store, kw: seq<(string, Value)>) {
    forall i :: 0 <= i < |kw| ==> Known(s, kw[i].0)
  }

  /** The store after the keyword arguments kw, in their given order, have
      been applied to s. */
  function Manual(s: Store, kw: seq<(string, Value)>): (r: ManualResult)
    ensures forall d :: Get(r.store, d).Keys == Get(s, d).Keys
    ensures r.Completed? <==> AllKnown(s, kw)
    ensures r.UnknownOption? ==> (exists i :: 0 <= i < |kw| && kw[i].0 == r.key) && !Known(s, r.key)
    decreases |kw|
  {
    if kw == [] then Completed(s)
    else
      match SetOption(s, kw[0].0, kw[0].1)
      case None => UnknownOption(s, kw[0].0)
      case Some(t) =>
        var r := Manual(t, kw[1..]);
        assert forall k :: Known(t, k) == Known(s, k) by {
          assert forall d :: Get(t, d).Keys == Get(s, d).Keys;
        }
        assert r.UnknownOption? ==> exists i :: 0 <= i < |kw| && kw[i].0 == r.key by {
          if r.UnknownOption? {
            var i :| 0 <= i < |kw[1..]| && kw[1..][i].0 == r.key;
            assert kw[i + 1].0 == r.key;
          }
        }
        assert AllKnown(s, kw) <==> Known(s, kw[0].0) && AllKnown(t, kw[1..]) by {
          if Known(s, kw[0].0) && AllKnown(t, kw[1..]) {
            forall i | 0 <= i < |kw| ensures Known(s, kw[i].0) {
              if i > 0 { assert kw[i] == kw[1..][i - 1]; }
            }
          }
        }
        r
  }

  /** The keys of the keyword arguments are pairwise distinct, as those of a
      keyword-argument dictionary are. */
  predicate DistinctKeys(kw: seq<(string, Value)>) {
    forall i, j :: 0 <= i < j < |kw| ==> kw[i].0 != kw[j].0
  }

  /** The value given for key k, if any. */
  function ValueFor(kw: seq<(string, Value)>, k: string): (r: Option<Value>)
    ensures r.Some? <==> exists i :: 0 <= i < |kw| && kw[i].0 == k
    ensures r.Some? ==> exists i :: 0 <= i < |kw| && kw[i] == (k, r.value)
  {
    if kw == [] then None
    else if kw[0].0 == k then Some(kw[0].1)
    else
      var r := ValueFor(kw[1..], k);
      assert (exists i :: 0 <= i < |kw[1..]| && kw[1..][i].0 == k) <==> (exists i :: 0 <= i < |kw| && kw[i].0 == k) by {
        if exists i :: 0 <= i < |kw| && kw[i].0 == k {
          var i :| 0 <= i < |kw| && kw[i].0 == k;
          assert kw[1..][i - 1].0 == k;
        }
      }
      assert r.Some? ==> exists i :: 0 <= i < |kw| && kw[i] == (k, r.value) by {
        if r.Some? {
          var i :| 0 <= i < |kw[1..]| && kw[1..][i] == (k, r.value);
          assert kw[i + 1] == (k, r.value);
        }
      }
      r
  }

  /** The tail of distinct keyword arguments is distinct and does not mention
      the head's key. */
  lemma DistinctTail(kw: seq<(string, Value)>)
    requires kw != [] && DistinctKeys(kw)
    ensures DistinctKeys(kw[1..])
    ensures ValueFor(kw[1..], kw[0].0).None?
  {
  }

  /** Known and distinct keyword arguments all take effect on a store whose
      dictionaries are disjoint: each given key now holds its given value,
      every other entry of every dictionary is unchanged. */
  lemma {:induction false} ManualSetsGivenValues(s: Store, kw: seq<(string, Value)>)
    requires Disjoint(s) && AllKnown(s, kw) && DistinctKeys(kw)
    ensures Manual(s, kw).Completed?
    ensures forall d, k :: k in Get(s, d) ==>
      Get(Manual(s, kw).store, d)[k] == match ValueFor(kw, k) case Some(v) => v case None => Get(s, d)[k]
    decreases |kw|
  {
    if kw != [] {
      var (key, v) := kw[0];
      var t := SetOption(s, key, v).value;
      var rest := kw[1..];
      assert forall d :: Get(t, d).Keys == Get(s, d).Keys;
      assert Disjoint(t);
      assert AllKnown(t, rest) by {
        forall i | 0 <= i < |rest| ensures Known(t, rest[i].0) { assert rest[i] == kw[i + 1]; }
      }
      DistinctTail(kw);
      ManualSetsGivenValues(t, rest);
      forall d, k | k in Get(s, d)
        ensures Get(Manual(s, kw).store, d)[k] == match ValueFor(kw, k) case Some(v) => v case None => Get(s, d)[k]
      {
        if k == key {
          // the dictionaries are disjoint, so d is the first one to hold key
          assert forall d' :: Rank(d') < Rank(d) ==> key !in Get(s, d');
        }
      }
    }
  }

  /** The keyword arguments before the first unknown key are applied; that
      key and everything after it are not. */
  lemma {:induction false} ManualStopsAtFirstUnknown(s: Store, kw: seq<(string, Value)>, i: nat)
    requires i < |kw| && !Known(s, kw[i].0)
    requires forall j :: 0 <= j < i ==> Known(s, kw[j].0)
    ensures Manual(s, kw[..i]).Completed?
    ensures Manual(s, kw) == UnknownOption(Manual(s, kw[..i]).store, kw[i].0)
    decreases i
  {
    if i > 0 {
      var t := SetOption(s, kw[0].0, kw[0].1).value;
      assert forall d :: Get(t, d).Keys == Get(s, d).Keys;
      assert forall k :: Known(t, k) == Known(s, k);
      assert kw[1..][i - 1] == kw[i];
      assert forall j :: 0 <= j < i - 1 ==> Known(t, kw[1..][j].0) by {
        forall j | 0 <= j < i - 1 ensures Known(t, kw[1..][j].0) { assert kw[1..][j] == kw[j + 1]; }
      }
      ManualStopsAtFirstUnknown(t, kw[1..], i - 1);
      assert kw[..i][1..] == kw[1..][..i - 1];
    }
  }

  /** An entry for a key not among the keyword arguments keeps its value. */
  lemma {:induction false} ManualKeepsOtherEntries(s: Store, kw: seq<(string, Value)>, d: Dict, k: string)
    requires k in Get(s, d) && ValueFor(kw, k).None?
    ensures Get(Manual(s, kw).store, d)[k] == Get(s, d)[k]
    decreases |kw|
  {
    if kw != [] {
      match SetOption(s, kw[0].0, kw[0].1)
      case None =>
      case Some(t) =>
        assert ValueFor(kw[1..], k).None?;
        ManualKeepsOtherEntries(t, kw[1..], d, k);
    }
  }

  /** Repeating a manual setting with the same arguments changes nothing
      further, whether or not it stopped at an unknown key. */
  lemma {:induction false} ManualIdempotent(s: Store, kw: seq<(string, Value)>)
    requires DistinctKeys(kw)
    ensures Manual(Manual(s, kw).store, kw) == Manual(s, kw)
    decreases |kw|
  {
    if kw != [] {
      var (key, v) := kw[0];
      match SetOption(s, key, v)
      case None =>
      case Some(t) =>
        var rest := kw[1..];
        DistinctTail(kw);
        var r := Manual(t, rest);
        // key is first held by the same dictionary in r.store as in s, and r.store holds v there
        var j := FirstContaining(s, key, 0).value;
        var d := SearchOrder[j];
        assert forall d' :: Get(r.store, d').Keys == Get(s, d').Keys;
        FirstContainingIs(r.store, key, j, 0);
        ManualKeepsOtherEntries(t, rest, d, key);
        assert Get(t, d)[key] == v by { assert Rank(d) == j; }
        assert Get(r.store, d)[key := v] == Get(r.store, d);
        assert Put(r.store, d, Get(r.store, d)) == r.store;
        assert SetOption(r.store, key, v) == Some(r.store);
        ManualIdempotent(t, rest);
    }
  }

  /** A manual setting keeps a well-formed store well-formed. */
  lemma ManualKeepsWellFormed(s: Store, kw: seq<(string, Value)>)
    requires WellFormed(s)
    ensures WellFormed(Manual(s, kw).store)
  {
    var r := Manual(s, kw).store;
    assert Get(r, ArrayDict).Keys == Get(s, ArrayDict).Keys;
    assert Get(r, OtherDict).Keys == Get(s, OtherDict).Keys;
    assert Get(r, ModelsDict).Keys == Get(s, ModelsDict).Keys;
  }

  /** Setting the baseline scenario and then a 4 m diameter keeps the
      scenario's band and replaces its diameter. */
  lemma BaselineThenDiameter()
    ensures var r := Manual(Scenario(Initial(), "baseline"), [("diameter", Real(4.0))]);
      && r.Completed?
      && r.store.arrayOptions["diameter"] == Real(4.0)
      && r.store.arrayOptions["wl_min"] == Real(4.0)
      && r.store.arrayOptions["wl_max"] == Real(18.5)
  {
  }

  // ---------------------------------------------------------------------------
  // The store object

  /** The options object: its three dictionaries are updated in place. */
  class Options {
    var arrayOptions: map<string, Value>
    var other: map<string, Value>
    var models: map<string, Value>

    function State(): Store
      reads this
    {
      Store(arrayOptions, other, models)
    }

    /** Every dictionary holds exactly its documented keys. */
    predicate Valid()
      reads this
    {
      WellFormed(State())
    }

    constructor ()
      ensures State() == Initial() && Valid()
    {
      var s := Initial();
      arrayOptions := s.arrayOptions;
      other := s.other;
      models := s.models;
    }

    /** Applies a named scenario; returns whether the name was unrecognised,
        in which case a warning is due. */
    method SetScenario(scenario: string) returns (warned: bool)
      modifies this
      ensures State() == Scenario(old(State()), scenario)
      ensures warned <==> !Recognised(scenario)
      ensures old(Valid()) ==> Valid()
    {
      if Valid() { ScenarioKeepsKeys(State(), scenario); }
      arrayOptions := arrayOptions["quantum_eff" := Real(0.7)];
      arrayOptions := arrayOptions["throughput" := Real(0.05)];
      arrayOptions := arrayOptions["spec_res" := Real(20.0)];
      arrayOptions := arrayOptions["baseline" := Real(20.0)];
      arrayOptions := arrayOptions["bl_min" := Real(10.0)];
      arrayOptions := arrayOptions["bl_max" := Real(100.0)];
      arrayOptions := arrayOptions["ratio" := Real(6.0)];

      other := other["image_size" := Int(256)];
      other := other["wl_optimal" := Int(15)];
      other := other["n_plugins" := Int(5)];

      models := models["localzodi" := Str("darwinsim")];
      models := models["habitable" := Str("MS")];

      warned := false;
      if scenario == "baseline" {
        arrayOptions := arrayOptions["diameter" := Real(2.0)];
        arrayOptions := arrayOptions["wl_min" := Real(4.0)];
        arrayOptions := arrayOptions["wl_max" := Real(18.5)];
      } else if scenario == "pessimistic" {
        arrayOptions := arrayOptions["diameter" := Real(1.0)];
        arrayOptions := arrayOptions["wl_min" := Real(6.0)];
        arrayOptions := arrayOptions["wl_max" := Real(17.0)];
      } else if scenario == "optimistic" {
        arrayOptions := arrayOptions["diameter" := Real(3.5)];
        arrayOptions := arrayOptions["wl_min" := Real(3.0)];
        arrayOptions := arrayOptions["wl_max" := Real(20.0)];
      } else {
        warned := true;
      }
    }

    /** Writes one entry of dictionary d. */
    method Write(d: Dict, key: string, v: Value)
      modifies this
      ensures State() == Put(old(State()), d, Get(old(State()), d)[key := v])
    {
      match d
      case ArrayDict => arrayOptions := arrayOptions[key := v];
      case OtherDict => other := other[key := v];
      case ModelsDict => models := models[key := v];
    }

    /** Applies the keyword arguments in order, each to the first dictionary
        that holds its key; stops at the first unknown key and returns it
        (the error the source raises), leaving the earlier ones applied. */
    method SetManual(kwargs: seq<(string, Value)>) returns (unknown: Option<string>)
      modifies this
      ensures State() == Manual(old(State()), kwargs).store
      ensures unknown == UnknownKey(Manual(old(State()), kwargs))
      ensures old(Valid()) ==> Valid()
    {
      if Valid() { ManualKeepsWellFormed(State(), kwargs); }
      var i := 0;
      while i < |kwargs|
        invariant 0 <= i <= |kwargs|
        invariant Manual(State(), kwargs[i..]) == Manual(old(State()), kwargs)
      {
        var (key, value) := kwargs[i];
        ghost var before := State();
        assert kwargs[i..][0] == (key, value) && kwargs[i..][1..] == kwargs[i + 1..];
        var optionSet := false;
        var j := 0;
        while j < |SearchOrder|
          invariant 0 <= j <= |SearchOrder|
          invariant State() == before
          invariant FirstContaining(before, key, j) == FirstContaining(before, key, 0)
        {
          if key in Get(State(), SearchOrder[j]) {
            Write(SearchOrder[j], key, value);
            optionSet := true;
            break;
          }
          j := j + 1;
        }
        if !optionSet {
          return Some(key);
        }
        i := i + 1;
      }
      assert kwargs[i..] == [];
      return None;
    }
  }
}
