/**
 * The attribute-analysis script: it reads the devices out of a diagnostics
 * file, lists every attribute path of each device and compares them with the
 * paths the sensor catalog reads.
 */
module Analyzer {
  import opened Wrappers
  import opened AttrTree
  import opened SensorDescription
  import Text

  /** Keys the script never descends into or reports, at any depth. */
  const SkipKeys: set<string> := {
    "id", "device_id", "location_id", "owner", "address",
    "latitude", "longitude", "wifi_name", "description",
    "ring_id", "schema_id", "device_resource_id", "alerts",
    "motion_zones", "advanced_motion_zones", "ignore_zones",
    "advanced_pir_motion_zones", "motion_snooze_presets",
    "live_view_presets", "supported_rpc_commands"
  }

  // ------------------------------------------------------------------- paths

  /**
   * `extract_all_paths(data)`: the dotted path of every leaf that is neither a
   * dict nor a list, skipping the keys of `SkipKeys`; nothing for a non-dict.
   */
  function ExtractAllPaths(data: Node): set<string>
  {
    LeafPaths(data, "", SkipKeys, false)
  }

  /** A value that is not a dict has no paths. */
  lemma NonDictHasNoPaths(data: Node)
    requires !data.Map?
    ensures ExtractAllPaths(data) == {}
  {
  }

  /**
   * A path is listed exactly when it is the dotted form of a walk from a
   * top-level key to a value that is neither a dict nor a list, passing no
   * skipped key.
   */
  lemma ExtractAllPathsExact(data: Node, p: string)
    requires NoDictUnderEmptyKey(data)
    ensures p in ExtractAllPaths(data) <==>
      exists keys :: IsLeafKeyPath(data, keys, SkipKeys, false) && p == Text.Join(keys, '.')
  {
    LeafPathsAreJoinedKeyPaths(data, "", SkipKeys, false);
    if p in ExtractAllPaths(data) {
      var keys :| keys in LeafKeyPaths(data, SkipKeys, false) && p == DottedPath("", keys);
      LeafKeyPathsExact(data, keys, SkipKeys, false);
    }
    if exists keys :: IsLeafKeyPath(data, keys, SkipKeys, false) && p == Text.Join(keys, '.') {
      var keys :| IsLeafKeyPath(data, keys, SkipKeys, false) && p == Text.Join(keys, '.');
      LeafKeyPathsExact(data, keys, SkipKeys, false);
      assert p == DottedPath("", keys);
    }
  }

  /** No listed walk passes a skipped key, and no walk ends at a list. */
  lemma ListedWalksAvoidSkippedKeys(data: Node, keys: seq<string>, i: int)
    requires keys in LeafKeyPaths(data, SkipKeys, false)
    requires 0 <= i < |keys|
    ensures keys[i] !in SkipKeys
    ensures ValueAt(data, keys).Some? && !ValueAt(data, keys).value.List? && !ValueAt(data, keys).value.Map?
  {
    LeafKeyPathsExact(data, keys, SkipKeys, false);
  }

  /** Whatever a skipped key holds, or whether it is there at all, the paths are the same. */
  lemma SkippedKeyIgnored(m: map<string, Node>, k: string, v: Node)
    requires k in SkipKeys
    ensures ExtractAllPaths(Map(m[k := v])) == ExtractAllPaths(Map(m - {k}))
  {
    var a, b := m[k := v], m - {k};
    forall p | p in ExtractAllPaths(Map(a)) ensures p in ExtractAllPaths(Map(b)) {
      var j :| j in a && j !in SkipKeys && p in ChildLeafPaths(a[j], JoinKey("", j), SkipKeys, false);
      assert j in b && b[j] == a[j];
    }
    forall p | p in ExtractAllPaths(Map(b)) ensures p in ExtractAllPaths(Map(a)) {
      var j :| j in b && j !in SkipKeys && p in ChildLeafPaths(b[j], JoinKey("", j), SkipKeys, false);
      assert j in a && a[j] == b[j];
    }
  }

  /** A list under a key adds nothing: it counts as if the key were absent. */
  lemma ListsAddNothing(m: map<string, Node>, k: string, items: seq<Node>)
    ensures ExtractAllPaths(Map(m[k := List(items)])) == ExtractAllPaths(Map(m - {k}))
  {
    var a, b := m[k := List(items)], m - {k};
    forall p | p in ExtractAllPaths(Map(a)) ensures p in ExtractAllPaths(Map(b)) {
      var j :| j in a && j !in SkipKeys && p in ChildLeafPaths(a[j], JoinKey("", j), SkipKeys, false);
      assert j in b && b[j] == a[j];
    }
    forall p | p in ExtractAllPaths(Map(b)) ensures p in ExtractAllPaths(Map(a)) {
      var j :| j in b && j !in SkipKeys && p in ChildLeafPaths(b[j], JoinKey("", j), SkipKeys, false);
      assert j in a && a[j] == b[j];
    }
  }

  /** `get_defined_paths`: the non-empty `attr_path`s of the catalog. */
  method DefinedPaths(catalog: seq<Descriptor>) returns (paths: set<string>)
    ensures forall p :: p in paths <==> p != "" && exists d :: d in catalog && d.attrPath == p
  {
    paths := {};
    for i := 0 to |catalog|
      invariant forall p :: p in paths <==> p != "" && exists j :: 0 <= j < i && catalog[j].attrPath == p
    {
      if catalog[i].attrPath != "" {
        paths := paths + {catalog[i].attrPath};
      }
    }
    forall p | p != "" && (exists d :: d in catalog && d.attrPath == p) ensures p in paths {
      var d :| d in catalog && d.attrPath == p;
      var j :| 0 <= j < |catalog| && catalog[j] == d;
    }
  }

  // ---------------------------------------------------------- finding devices

  /** The only Python error the lookups below can raise: a value of the wrong kind. */
  datatype PyError = TypeError

  /** `key in container`: a key of a dict, an element of a list, a substring of a string. */
  function In(key: string, container: Node): (r: Result<bool, PyError>)
    ensures r.Err? <==> container.Int? || container.Bool? || container.Null?
  {
    match container
    case Map(m) => Ok(key in m)
    case List(items) => Ok(Str(key) in items)
    case Str(s) => Ok(Text.Contains(s, key))
    case _ => Err(TypeError)
  }

  /** `container[key]` once `key in container` held: only a dict can be indexed by a string. */
  function Index(container: Node, key: string): (r: Result<Node, PyError>)
    ensures container.Map? && key in container.entries ==> r == Ok(container.entries[key])
    ensures !container.Map? ==> r.Err?
  {
    if container.Map? && key in container.entries then Ok(container.entries[key]) else Err(TypeError)
  }

  /**
   * `extract_device_data`: `data.device_data`, else `data.devices`, else a
   * top-level `device_data`, else the input itself when it is a list, else
   * an empty list.
   */
  function ExtractDeviceData(diagnostics: Node): Result<Node, PyError>
  {
    match In("data", diagnostics)
    case Err(e) => Err(e)
    case Ok(hasData) =>
      match (if hasData then DataSection(diagnostics) else Ok(None))
      case Err(e) => Err(e)
      case Ok(Some(v)) => Ok(v)
      case Ok(None) =>
        match In("device_data", diagnostics)
        case Err(e) => Err(e)
        case Ok(hasDeviceData) =>
          if hasDeviceData then Index(diagnostics, "device_data")
          else if diagnostics.List? then Ok(diagnostics)
          else Ok(List([]))
  }

  /** What the `data` section gives, if anything: its `device_data`, else its `devices`. */
  function DataSection(diagnostics: Node): Result<Option<Node>, PyError>
  {
    match Index(diagnostics, "data")
    case Err(e) => Err(e)
    case Ok(data) =>
      match In("device_data", data)
      case Err(e) => Err(e)
      case Ok(true) => Found(Index(data, "device_data"))
      case Ok(false) =>
        match In("devices", data)
        case Err(e) => Err(e)
        case Ok(true) => Found(Index(data, "devices"))
        case Ok(false) => Ok(None)
  }

  function Found(r: Result<Node, PyError>): Result<Option<Node>, PyError>
  {
    match r
    case Ok(v) => Ok(Some(v))
    case Err(e) => Err(e)
  }

  /** The sources of a dict-shaped file, tried in their order. */
  lemma DeviceDataPriority(m: map<string, Node>)
    ensures "data" in m && m["data"].Map? && "device_data" in m["data"].entries ==>
      ExtractDeviceData(Map(m)) == Ok(m["data"].entries["device_data"])
    ensures "data" in m && m["data"].Map? && "device_data" !in m["data"].entries && "devices" in m["data"].entries ==>
      ExtractDeviceData(Map(m)) == Ok(m["data"].entries["devices"])
    ensures (("data" !in m || (m["data"].Map? && "device_data" !in m["data"].entries && "devices" !in m["data"].entries))
      && "device_data" in m) ==>
      ExtractDeviceData(Map(m)) == Ok(m["device_data"])
    ensures (("data" !in m || (m["data"].Map? && "device_data" !in m["data"].entries && "devices" !in m["data"].entries))
      && "device_data" !in m) ==>
      ExtractDeviceData(Map(m)) == Ok(List([]))
  {
  }

  /** A list that holds neither of the two marker strings is taken as the device list itself. */
  lemma DeviceListTakenAsIs(items: seq<Node>)
    requires Str("data") !in items && Str("device_data") !in items
    ensures ExtractDeviceData(List(items)) == Ok(List(items))
  {
  }

  /** A `data` entry that is a number, a boolean or `None` makes the lookup raise. */
  lemma ScalarDataRaises(m: map<string, Node>)
    requires "data" in m && (m["data"].Int? || m["data"].Bool? || m["data"].Null?)
    ensures ExtractDeviceData(Map(m)) == Err(TypeError)
  {
  }

  // ----------------------------------------------------------------- analysis

  /** A missing path worth listing for a device: two segments or more, the first a top-level key of the device. */
  predicate Relevant(p: string, device: map<string, Node>)
  {
    |Text.Split(p, '.')| > 1 && Text.Split(p, '.')[0] in device
  }

  /** A dotted path under a top-level key of the device is relevant. */
  lemma KeyedPathRelevant(k: string, rest: string, device: map<string, Node>)
    requires '.' !in k && k in device
    ensures Relevant(k + "." + rest, device)
  {
    Text.SplitAround(k, rest, '.');
    Text.SplitNoSeparator(k, '.');
  }

  /** A path without a dot is never relevant. */
  lemma UndottedPathIrrelevant(p: string, device: map<string, Node>)
    requires '.' !in p
    ensures !Relevant(p, device)
  {
    Text.SplitNoSeparator(p, '.');
  }

  /** What the script finds for one device. */
  datatype DeviceAnalysis = DeviceAnalysis(
    paths: set<string>,
    newAttributes: set<string>,
    missingAttributes: set<string>,
    relevantMissing: set<string>)

  /** `a` is what the script finds for `device`. */
  ghost predicate AnalysisOf(a: DeviceAnalysis, device: map<string, Node>, defined: set<string>)
  {
    && a.paths == ExtractAllPaths(Map(device))
    && a.newAttributes == a.paths - defined
    && a.missingAttributes == defined - a.paths
    && (forall p :: p in a.relevantMissing <==> p in a.missingAttributes && Relevant(p, device))
  }

  /** The per-device part of `analyze`. */
  method AnalyzeDevice(device: map<string, Node>, defined: set<string>) returns (a: DeviceAnalysis)
    ensures a.paths == ExtractAllPaths(Map(device))
    ensures a.newAttributes == a.paths - defined
    ensures a.missingAttributes == defined - a.paths
    ensures forall p :: p in a.relevantMissing <==> p in a.missingAttributes && Relevant(p, device)
  {
    var paths := ExtractAllPaths(Map(device));
    var missing := defined - paths;
    var relevant: set<string> := {};
    var rest := missing;
    while rest != {}
      invariant rest <= missing
      invariant forall p :: p in relevant <==> p in missing && p !in rest && Relevant(p, device)
      decreases |rest|
    {
      var p :| p in rest;
      var parts := Text.Split(p, '.');
      if |parts| > 1 {
        var parent := parts[0];
        if parent in device {
          relevant := relevant + {p};
        }
      }
      rest := rest - {p};
    }
    a := DeviceAnalysis(paths, paths - defined, missing, relevant);
  }

  /** Every path found on some device. */
  function AllPaths(devices: seq<map<string, Node>>): set<string>
  {
    if devices == [] then {}
    else AllPaths(devices[..|devices| - 1]) + ExtractAllPaths(Map(devices[|devices| - 1]))
  }

  /** A path is in the union exactly when some device has it. */
  lemma {:induction false} AllPathsExact(devices: seq<map<string, Node>>, p: string)
    ensures p in AllPaths(devices) <==> exists i :: 0 <= i < |devices| && p in ExtractAllPaths(Map(devices[i]))
  {
    if devices != [] {
      var init := devices[..|devices| - 1];
      AllPathsExact(init, p);
      assert forall i :: 0 <= i < |init| ==> init[i] == devices[i];
    }
  }

  /** The summary of `analyze`. */
  datatype Totals = Totals(allPaths: set<string>, totalNew: set<string>, totalMissing: set<string>)

  /** `analyze` on the devices found: one analysis per device, in order, and the totals. */
  method Analyze(devices: seq<map<string, Node>>, defined: set<string>) returns (per: seq<DeviceAnalysis>, t: Totals)
    ensures |per| == |devices|
    ensures forall i :: 0 <= i < |devices| ==> AnalysisOf(per[i], devices[i], defined)
    ensures t.allPaths == AllPaths(devices)
    ensures t.totalNew == t.allPaths - defined
    ensures t.totalMissing == defined - t.allPaths
  {
    per := [];
    var all: set<string> := {};
    for i := 0 to |devices|
      invariant |per| == i
      invariant all == AllPaths(devices[..i])
      invariant forall j :: 0 <= j < i ==> AnalysisOf(per[j], devices[j], defined)
    {
      AllPathsStep(devices, i);
      var before := per;
      var a := AnalyzeDevice(devices[i], defined);
      assert AnalysisOf(a, devices[i], defined);
      all := all + a.paths;
      per := per + [a];
      assert forall j :: 0 <= j < i ==> per[j] == before[j];
    }
    assert devices[..|devices|] == devices;
    t := Totals(all, all - defined, defined - all);
  }

  lemma AllPathsStep(devices: seq<map<string, Node>>, i: int)
    requires 0 <= i < |devices|
    ensures AllPaths(devices[..i + 1]) == AllPaths(devices[..i]) + ExtractAllPaths(Map(devices[i]))
  {
    assert devices[..i + 1][..i] == devices[..i];
  }

  /** A path is missing in total exactly when it is missing from every device. */
  lemma TotalMissingEverywhere(devices: seq<map<string, Node>>, defined: set<string>, p: string)
    ensures p in defined - AllPaths(devices) <==>
      p in defined && forall i :: 0 <= i < |devices| ==> p in defined - ExtractAllPaths(Map(devices[i]))
  {
    AllPathsExact(devices, p);
  }

  /** A path is new in total exactly when it is new on some device. */
  lemma TotalNewSomewhere(devices: seq<map<string, Node>>, defined: set<string>, p: string)
    ensures p in AllPaths(devices) - defined <==>
      exists i :: 0 <= i < |devices| && p in ExtractAllPaths(Map(devices[i])) - defined
  {
    AllPathsExact(devices, p);
  }
}
