/**
 * The config-entry diagnostics report: the attribute paths of a device, the
 * catalog's coverage of them, the number of registry entities of a device and
 * the differences between devices of the same model.
 */
module Diagnostics {
  import opened AttrTree
  import opened SensorDescription
  import Text
  import SensorCatalog
  import CatalogFacts
  import SensorSetup

  // --------------------------------------------------------- attribute paths

  /**
   * `_extract_all_attribute_paths(attrs)`: the dotted path of every value
   * that is not a dict, at any depth; `None` and lists are leaves.
   */
  function AttributePaths(attrs: map<string, Node>): set<string>
  {
    LeafPaths(Map(attrs), "", {}, true)
  }

  /**
   * A path is listed exactly when it is the dotted form of a walk from a
   * top-level key to a value that is not a dict (so an empty dict adds nothing).
   */
  lemma AttributePathsExact(attrs: map<string, Node>, p: string)
    requires NoDictUnderEmptyKey(Map(attrs))
    ensures p in AttributePaths(attrs) <==>
      exists keys :: IsLeafKeyPath(Map(attrs), keys, {}, true) && p == Text.Join(keys, '.')
  {
    LeafPathsAreJoinedKeyPaths(Map(attrs), "", {}, true);
    if p in AttributePaths(attrs) {
      var keys :| keys in LeafKeyPaths(Map(attrs), {}, true) && p == DottedPath("", keys);
      LeafKeyPathsExact(Map(attrs), keys, {}, true);
    }
    if exists keys :: IsLeafKeyPath(Map(attrs), keys, {}, true) && p == Text.Join(keys, '.') {
      var keys :| IsLeafKeyPath(Map(attrs), keys, {}, true) && p == Text.Join(keys, '.');
      LeafKeyPathsExact(Map(attrs), keys, {}, true);
      assert p == DottedPath("", keys);
    }
  }

  /** Every path below a non-empty prefix is that prefix, a dot and more. */
  lemma {:induction false} PathsExtendPrefix(n: Node, prefix: string, skip: set<string>, listsAreLeaves: bool, p: string)
    requires prefix != "" && p in LeafPaths(n, prefix, skip, listsAreLeaves)
    ensures Text.StartsWith(p, prefix + ".")
    decreases n
  {
    var m := n.entries;
    var k :| k in m && k !in skip && p in ChildLeafPaths(m[k], JoinKey(prefix, k), skip, listsAreLeaves);
    var q := prefix + "." + k;
    if m[k].Map? {
      PathsExtendPrefix(m[k], q, skip, listsAreLeaves, p);
      assert p[..|q + "."|][..|prefix + "."|] == p[..|prefix + "."|];
      assert (q + ".")[..|prefix + "."|] == prefix + ".";
    } else {
      assert p == q;
      assert q[..|prefix + "."|] == prefix + ".";
    }
  }

  /**
   * Every listed path is a top-level key, or starts with one and a dot.  The
   * one exception is a top-level `""` key holding a dict: its children's paths
   * come up without a prefix.
   */
  lemma PathsStartWithTopLevelKey(attrs: map<string, Node>, p: string)
    requires NoDictUnderEmptyKey(Map(attrs))
    requires p in AttributePaths(attrs)
    ensures exists k :: k in attrs && (p == k || Text.StartsWith(p, k + "."))
  {
    var k :| k in attrs && p in ChildLeafPaths(attrs[k], JoinKey("", k), {}, true);
    if attrs[k].Map? {
      PathsExtendPrefix(attrs[k], k, {}, true, p);
    }
  }

  /**
   * The condition of `AttributePathsExact` cannot be dropped: for
   * `{"": {"b": 1}}` the only path is `"b"`, while the walk `["", "b"]` to
   * the leaf joins to `".b"`.
   */
  lemma EmptyKeyDictLosesStep()
    ensures var attrs := map["" := Map(map["b" := Int(1)])];
      && AttributePaths(attrs) == {"b"}
      && IsLeafKeyPath(Map(attrs), ["", "b"], {}, true)
      && Text.Join(["", "b"], '.') == ".b"
  {
    var inner := Map(map["b" := Int(1)]);
    var attrs := map["" := inner];
    assert "b" in inner.entries && "b" in ChildLeafPaths(inner.entries["b"], JoinKey("", "b"), {}, true);
    assert LeafPaths(inner, "", {}, true) == {"b"};
    assert "" in attrs && "b" in ChildLeafPaths(attrs[""], JoinKey("", ""), {}, true);
    assert ValueAt(Map(attrs), ["", "b"]) == ValueAt(inner, ["b"]);
  }

  /** A dict none of whose values is a dict yields exactly its keys. */
  lemma FlatAttributesGiveKeys(attrs: map<string, Node>)
    requires forall k :: k in attrs ==> !attrs[k].Map?
    ensures AttributePaths(attrs) == attrs.Keys
  {
    forall k | k in attrs ensures k in AttributePaths(attrs) {
      assert k in ChildLeafPaths(attrs[k], JoinKey("", k), {}, true);
    }
    forall p | p in AttributePaths(attrs) ensures p in attrs {
      var k :| k in attrs && p in ChildLeafPaths(attrs[k], JoinKey("", k), {}, true);
    }
  }

  // --------------------------------------------------------- sensor coverage

  /** The `attr_path`s of a catalog, as a set. */
  function DefinedPaths(catalog: seq<Descriptor>): (r: set<string>)
    ensures forall p :: p in r <==> exists d :: d in catalog && d.attrPath == p
    ensures |r| <= |catalog|
  {
    if catalog == [] then {}
    else
      var init := catalog[..|catalog| - 1];
      assert forall d :: d in catalog <==> d in init || d == catalog[|catalog| - 1];
      DefinedPaths(init) + {catalog[|catalog| - 1].attrPath}
  }

  /** The keys of the descriptors available on `attrs`, in catalog order. */
  function AvailableKeys(catalog: seq<Descriptor>, attrs: Node): (r: seq<string>)
  {
    if catalog == [] then []
    else
      var d := catalog[|catalog| - 1];
      AvailableKeys(catalog[..|catalog| - 1], attrs) + (if IsAvailable(d, attrs) then [d.key] else [])
  }

  /** The keys of the other descriptors, in catalog order. */
  function UnavailableKeys(catalog: seq<Descriptor>, attrs: Node): (r: seq<string>)
  {
    if catalog == [] then []
    else
      var d := catalog[|catalog| - 1];
      UnavailableKeys(catalog[..|catalog| - 1], attrs) + (if IsAvailable(d, attrs) then [] else [d.key])
  }

  /** Every descriptor lands in exactly one of the two lists. */
  lemma {:induction false} KeysPartitioned(catalog: seq<Descriptor>, attrs: Node, k: string)
    ensures |AvailableKeys(catalog, attrs)| + |UnavailableKeys(catalog, attrs)| == |catalog|
    ensures k in AvailableKeys(catalog, attrs) <==> exists d :: d in catalog && d.key == k && IsAvailable(d, attrs)
    ensures k in UnavailableKeys(catalog, attrs) <==> exists d :: d in catalog && d.key == k && !IsAvailable(d, attrs)
  {
    if catalog != [] {
      var init := catalog[..|catalog| - 1];
      KeysPartitioned(init, attrs, k);
      assert forall d :: d in catalog <==> d in init || d == catalog[|catalog| - 1];
    }
  }

  /** No key occurs twice in the catalog. */
  predicate DistinctKeys(catalog: seq<Descriptor>)
  {
    forall i, j :: 0 <= i < j < |catalog| ==> catalog[i].key != catalog[j].key
  }

  /** With distinct keys, no available key is listed twice. */
  lemma {:induction false} AvailableKeysDistinct(catalog: seq<Descriptor>, attrs: Node)
    requires DistinctKeys(catalog)
    ensures forall i, j :: 0 <= i < j < |AvailableKeys(catalog, attrs)| ==>
      AvailableKeys(catalog, attrs)[i] != AvailableKeys(catalog, attrs)[j]
  {
    if catalog != [] {
      var init, d := catalog[..|catalog| - 1], catalog[|catalog| - 1];
      AvailableKeysDistinct(init, attrs);
      if IsAvailable(d, attrs) {
        KeysPartitioned(init, attrs, d.key);
        assert d.key !in AvailableKeys(init, attrs);
      }
    }
  }

  /** The `sensor_coverage` block of a device. */
  datatype Coverage = Coverage(
    totalApiAttributes: nat,
    totalSensorDefinitions: nat,
    availableSensors: nat,
    unavailableSensors: nat,
    uncoveredAttributePaths: seq<string>,
    staleSensorPaths: seq<string>,
    availableSensorKeys: seq<string>)

  /**
   * `_get_sensor_coverage` against a catalog: each descriptor's path is
   * collected and its key filed as available or unavailable; the uncovered and
   * stale paths are the two set differences; every list comes back sorted.
   */
  lemma ScanStep(attrs: map<string, Node>, catalog: seq<Descriptor>, i: int)
    requires 0 <= i < |catalog|
    ensures DefinedPaths(catalog[..i + 1]) == DefinedPaths(catalog[..i]) + {catalog[i].attrPath}
    ensures AvailableKeys(catalog[..i + 1], Map(attrs)) ==
      AvailableKeys(catalog[..i], Map(attrs)) + (if IsAvailable(catalog[i], Map(attrs)) then [catalog[i].key] else [])
    ensures UnavailableKeys(catalog[..i + 1], Map(attrs)) ==
      UnavailableKeys(catalog[..i], Map(attrs)) + (if IsAvailable(catalog[i], Map(attrs)) then [] else [catalog[i].key])
  {
    assert catalog[..i + 1][..i] == catalog[..i];
  }

  /** The loop over `ALL_SENSORS`: the defined paths and the available and unavailable keys. */
  method ScanCatalog(attrs: map<string, Node>, catalog: seq<Descriptor>)
    returns (defined: set<string>, available: seq<string>, unavailable: seq<string>)
    ensures defined == DefinedPaths(catalog)
    ensures available == AvailableKeys(catalog, Map(attrs))
    ensures unavailable == UnavailableKeys(catalog, Map(attrs))
  {
    defined, available, unavailable := {}, [], [];
    for i := 0 to |catalog|
      invariant defined == DefinedPaths(catalog[..i])
      invariant available == AvailableKeys(catalog[..i], Map(attrs))
      invariant unavailable == UnavailableKeys(catalog[..i], Map(attrs))
    {
      var d := catalog[i];
      ScanStep(attrs, catalog, i);
      defined := defined + {d.attrPath};
      if IsAvailable(d, Map(attrs)) {
        available := available + [d.key];
      } else {
        unavailable := unavailable + [d.key];
      }
    }
    assert catalog[..|catalog|] == catalog;
  }

  method SensorCoverage(attrs: map<string, Node>, catalog: seq<Descriptor>) returns (c: Coverage)
    ensures c.totalApiAttributes == |AttributePaths(attrs)|
    ensures c.totalSensorDefinitions == |catalog|
    ensures c.availableSensors == |AvailableKeys(catalog, Map(attrs))|
    ensures c.unavailableSensors == |UnavailableKeys(catalog, Map(attrs))|
    ensures c.availableSensors + c.unavailableSensors == c.totalSensorDefinitions
    ensures Text.StrictlySorted(c.uncoveredAttributePaths)
    ensures forall p :: p in c.uncoveredAttributePaths <==> p in AttributePaths(attrs) && p !in DefinedPaths(catalog)
    ensures Text.StrictlySorted(c.staleSensorPaths)
    ensures forall p :: p in c.staleSensorPaths <==> p in DefinedPaths(catalog) && p !in AttributePaths(attrs)
    ensures Text.StrictlySorted(c.availableSensorKeys)
    ensures forall k :: k in c.availableSensorKeys <==> k in AvailableKeys(catalog, Map(attrs))
    ensures DistinctKeys(catalog) ==> |c.availableSensorKeys| == c.availableSensors
  {
    var allPaths := AttributePaths(attrs);
    var defined, available, unavailable := ScanCatalog(attrs, catalog);
    KeysPartitioned(catalog, Map(attrs), "");
    var uncovered := Text.SortedSet(allPaths - defined);
    var stale := Text.SortedSet(defined - allPaths);
    var keys := Text.SortedSet(set k | k in available);
    if DistinctKeys(catalog) {
      AvailableKeysDistinct(catalog, Map(attrs));
      Text.DistinctCount(available, set k | k in available);
    }
    c := Coverage(|allPaths|, |catalog|, |available|, |unavailable|, uncovered, stale, keys);
  }

  /** Two descriptors sharing a path leave fewer paths than descriptors. */
  lemma {:induction false} SharedPathShrinks(catalog: seq<Descriptor>, i: int, j: int)
    requires 0 <= i < j < |catalog| && catalog[i].attrPath == catalog[j].attrPath
    ensures |DefinedPaths(catalog)| < |catalog|
  {
    var init, last := catalog[..|catalog| - 1], catalog[|catalog| - 1];
    assert DefinedPaths(catalog) == DefinedPaths(init) + {last.attrPath};
    if j < |catalog| - 1 {
      assert init[i] == catalog[i] && init[j] == catalog[j];
      SharedPathShrinks(init, i, j);
    } else {
      assert init[i] in init;
      assert last.attrPath in DefinedPaths(init);
    }
  }

  /** The shipped catalog defines fewer distinct paths than its 161 descriptors. */
  lemma CatalogPathsFewerThanSensors()
    ensures |DefinedPaths(SensorCatalog.AllSensors())| < |SensorCatalog.AllSensors()| == 161
  {
    SensorCatalog.AllSensorsWellFormed();
    CatalogFacts.SharedAttributePath();
    SharedPathShrinks(SensorCatalog.AllSensors(), 12, 13);
  }

  /** The shipped catalog's keys are distinct, so its available keys come back without loss. */
  lemma CatalogKeysDistinct()
    ensures DistinctKeys(SensorCatalog.AllSensors())
  {
    SensorCatalog.AllSensorsWellFormed();
  }

  // ------------------------------------------------------------ entity count

  /** The registry unique ids counted for a device: those starting with `"{device_id}_"`. */
  function DeviceEntityIds(uniqueIds: seq<string>, deviceId: string): (r: seq<string>)
    ensures |r| <= |uniqueIds|
    ensures forall u :: u in r <==> u in uniqueIds && Text.StartsWith(u, deviceId + "_")
  {
    if uniqueIds == [] then []
    else
      var init, u := uniqueIds[..|uniqueIds| - 1], uniqueIds[|uniqueIds| - 1];
      assert forall v :: v in uniqueIds <==> v in init || v == u;
      DeviceEntityIds(init, deviceId) + (if Text.StartsWith(u, deviceId + "_") then [u] else [])
  }

  /** `entity_count`. */
  function EntityCount(uniqueIds: seq<string>, deviceId: string): nat
  {
    |DeviceEntityIds(uniqueIds, deviceId)|
  }

  /**
   * Every sensor setup creates for a device that has an id is counted for that
   * device: its unique id starts with the id the report uses and `_`.
   */
  lemma DeviceSensorsCounted(d: SensorSetup.Device, attrs: map<string, Node>, catalog: seq<Descriptor>,
                             enabled: set<string>, e: SensorSetup.Entity, uniqueIds: seq<string>)
    requires d.deviceId != "" || d.ringId.Some?
    requires e in SensorSetup.ObservationsOf(d, attrs, catalog, enabled) || e == SensorSetup.FirmwareHistoryOf(d)
    requires e.uniqueId in uniqueIds
    ensures e.uniqueId in DeviceEntityIds(uniqueIds, SensorSetup.LookupDeviceId(d))
  {
    var id := SensorSetup.EntityDeviceId(d);
    assert SensorSetup.LookupDeviceId(d) == id;
    if e in SensorSetup.ObservationsOf(d, attrs, catalog, enabled) {
      SensorSetup.ObservationsExact(d, attrs, catalog, enabled, e);
      var desc :| desc in catalog && IsAvailable(desc, Map(attrs)) && e == SensorSetup.ObservationOf(d, desc, enabled);
      ObservationIdOf(d, desc, enabled);
      UnderscoreStarts(id, "_" + desc.key);
    } else {
      assert e.uniqueId == id + "_firmware_history";
      UnderscoreStarts(id, "_firmware_history");
    }
  }

  /**
   * The sensors of a device with neither `device_id` nor `id` are not counted:
   * setup names them `"unknown_..."`, while the report falls back to `""`
   * and counts the ids starting with `_`.
   */
  lemma IdlessSensorsMissed(d: SensorSetup.Device, attrs: map<string, Node>, catalog: seq<Descriptor>,
                            enabled: set<string>, e: SensorSetup.Entity, uniqueIds: seq<string>)
    requires d.deviceId == "" && d.ringId.None?
    requires e in SensorSetup.ObservationsOf(d, attrs, catalog, enabled) || e == SensorSetup.FirmwareHistoryOf(d)
    ensures e.uniqueId !in DeviceEntityIds(uniqueIds, SensorSetup.LookupDeviceId(d))
  {
    assert SensorSetup.EntityDeviceId(d) == "unknown";
    assert SensorSetup.LookupDeviceId(d) + "_" == "_";
    var rest: string;
    if e in SensorSetup.ObservationsOf(d, attrs, catalog, enabled) {
      SensorSetup.ObservationsExact(d, attrs, catalog, enabled, e);
      var desc :| desc in catalog && IsAvailable(desc, Map(attrs)) && e == SensorSetup.ObservationOf(d, desc, enabled);
      ObservationIdOf(d, desc, enabled);
      rest := "_" + desc.key;
    } else {
      rest := "_firmware_history";
    }
    assert e.uniqueId == "unknown" + rest;
    assert e.uniqueId[0] == 'u';
  }

  lemma ObservationIdOf(d: SensorSetup.Device, desc: Descriptor, enabled: set<string>)
    ensures SensorSetup.ObservationOf(d, desc, enabled).uniqueId == SensorSetup.EntityDeviceId(d) + ("_" + desc.key)
  {
  }

  lemma UnderscoreStarts(id: string, rest: string)
    requires |rest| >= 1 && rest[0] == '_'
    ensures Text.StartsWith(id + rest, id + "_")
  {
    assert (id + rest)[..|id| + 1] == id + "_";
  }

  // ----------------------------------------------------- same-model differences

  /** What the comparison keeps of a device: its name, its model and the paths of its attributes. */
  datatype DeviceRecord = DeviceRecord(name: string, model: string, paths: set<string>)

  /** A device's record, with the paths of its (redacted) attributes. */
  function RecordOf(name: string, model: string, attrs: map<string, Node>): (r: DeviceRecord)
    ensures r.paths == AttributePaths(attrs)
  {
    DeviceRecord(name, model, AttributePaths(attrs))
  }

  /** One `inconsistencies` entry. */
  datatype Inconsistency = Inconsistency(model: string, device: string, missingAttributes: set<string>)

  /** The strings of `xs` without repeats, each where it first occurs (the keys of a dict filled in order). */
  function FirstSeen(xs: seq<string>): (r: seq<string>)
    ensures forall x :: x in r <==> x in xs
    ensures forall i, j :: 0 <= i < j < |r| ==> r[i] != r[j]
  {
    if xs == [] then []
    else
      var init, x := xs[..|xs| - 1], xs[|xs| - 1];
      assert forall y :: y in xs <==> y in init || y == x;
      FirstSeen(init) + (if x in FirstSeen(init) then [] else [x])
  }

  /** The model of every record, in order. */
  function ModelList(records: seq<DeviceRecord>): (r: seq<string>)
    ensures forall m :: m in r <==> exists rec :: rec in records && rec.model == m
  {
    if records == [] then []
    else
      var init := records[..|records| - 1];
      assert forall rec :: rec in records <==> rec in init || rec == records[|records| - 1];
      ModelList(init) + [records[|records| - 1].model]
  }

  /** The keys of `model_comparison`: each model once, in first-seen order. */
  function Models(records: seq<DeviceRecord>): seq<string>
  {
    FirstSeen(ModelList(records))
  }

  /** The records of one model, in order. */
  function ModelGroup(records: seq<DeviceRecord>, model: string): (r: seq<DeviceRecord>)
    ensures forall rec :: rec in r <==> rec in records && rec.model == model
  {
    if records == [] then []
    else
      var init, rec := records[..|records| - 1], records[|records| - 1];
      assert forall x :: x in records <==> x in init || x == rec;
      ModelGroup(init, model) + (if rec.model == model then [rec] else [])
  }

  /** The union of the paths of a group. */
  function UnionPaths(group: seq<DeviceRecord>): (r: set<string>)
    ensures forall p :: p in r <==> exists rec :: rec in group && p in rec.paths
  {
    if group == [] then {}
    else
      var init := group[..|group| - 1];
      assert forall x :: x in group <==> x in init || x == group[|group| - 1];
      UnionPaths(init) + group[|group| - 1].paths
  }

  /** One entry per record of `group` that lacks some of `all`, in order. */
  function GroupInconsistencies(model: string, group: seq<DeviceRecord>, all: set<string>): seq<Inconsistency>
  {
    if group == [] then []
    else
      var rec := group[|group| - 1];
      GroupInconsistencies(model, group[..|group| - 1], all)
      + (if all - rec.paths != {} then [Inconsistency(model, rec.name, all - rec.paths)] else [])
  }

  /** The entries for one model: none when it has fewer than two devices. */
  function ModelInconsistencies(model: string, group: seq<DeviceRecord>): seq<Inconsistency>
  {
    if |group| < 2 then [] else GroupInconsistencies(model, group, UnionPaths(group))
  }

  /** The entries for the listed models, in order. */
  function InconsistenciesFor(records: seq<DeviceRecord>, models: seq<string>): seq<Inconsistency>
  {
    if models == [] then []
    else
      var m := models[|models| - 1];
      InconsistenciesFor(records, models[..|models| - 1]) + ModelInconsistencies(m, ModelGroup(records, m))
  }

  /** `inconsistencies`, each device compared on its own attributes. */
  function Inconsistencies(records: seq<DeviceRecord>): seq<Inconsistency>
  {
    InconsistenciesFor(records, Models(records))
  }

  lemma {:induction false} GroupInconsistenciesExact(model: string, group: seq<DeviceRecord>, all: set<string>, x: Inconsistency)
    ensures x in GroupInconsistencies(model, group, all) <==>
      exists rec :: rec in group && x == Inconsistency(model, rec.name, all - rec.paths) && all - rec.paths != {}
  {
    if group != [] {
      var init := group[..|group| - 1];
      GroupInconsistenciesExact(model, init, all, x);
      assert forall y :: y in group <==> y in init || y == group[|group| - 1];
    }
  }

  lemma {:induction false} InconsistenciesForSound(records: seq<DeviceRecord>, models: seq<string>, x: Inconsistency)
    requires x in InconsistenciesFor(records, models)
    ensures exists m :: m in models && x in ModelInconsistencies(m, ModelGroup(records, m))
  {
    var init, m := models[..|models| - 1], models[|models| - 1];
    assert models == init + [m];
    if x in InconsistenciesFor(records, init) {
      InconsistenciesForSound(records, init, x);
      var m' :| m' in init && x in ModelInconsistencies(m', ModelGroup(records, m'));
      assert m' in models;
    } else {
      assert x in ModelInconsistencies(m, ModelGroup(records, m));
    }
  }

  /** Sequences laid end to end, in order. */
  function Concat(parts: seq<seq<Inconsistency>>): seq<Inconsistency>
  {
    if parts == [] then [] else Concat(parts[..|parts| - 1]) + parts[|parts| - 1]
  }

  lemma {:induction false} InConcat(parts: seq<seq<Inconsistency>>, i: int, x: Inconsistency)
    requires 0 <= i < |parts| && x in parts[i]
    ensures x in Concat(parts)
  {
    if i < |parts| - 1 {
      var init := parts[..|parts| - 1];
      assert init[i] == parts[i];
      InConcat(init, i, x);
    }
  }

  /** The entries of each listed model, one part per model. */
  function ModelParts(records: seq<DeviceRecord>, models: seq<string>): seq<seq<Inconsistency>>
  {
    seq(|models|, i requires 0 <= i < |models| => ModelInconsistencies(models[i], ModelGroup(records, models[i])))
  }

  lemma {:induction false} InconsistenciesForParts(records: seq<DeviceRecord>, models: seq<string>)
    ensures InconsistenciesFor(records, models) == Concat(ModelParts(records, models))
  {
    if models != [] {
      var init := models[..|models| - 1];
      InconsistenciesForParts(records, init);
      assert ModelParts(records, models)[..|models| - 1] == ModelParts(records, init);
    }
  }

  lemma InconsistenciesForComplete(records: seq<DeviceRecord>, models: seq<string>, m: string, x: Inconsistency)
    requires m in models && x in ModelInconsistencies(m, ModelGroup(records, m))
    ensures x in InconsistenciesFor(records, models)
  {
    var i :| 0 <= i < |models| && models[i] == m;
    InConcat(ModelParts(records, models), i, x);
    InconsistenciesForParts(records, models);
  }

  /** `x` is the entry for `rec`: its model has two devices or more and it lacks paths the others have. */
  predicate Reported(records: seq<DeviceRecord>, rec: DeviceRecord, x: Inconsistency)
  {
    && |ModelGroup(records, rec.model)| >= 2
    && x == Inconsistency(rec.model, rec.name, UnionPaths(ModelGroup(records, rec.model)) - rec.paths)
    && x.missingAttributes != {}
  }

  /**
   * An entry is reported exactly for a device whose model has at least two
   * devices and which lacks some path that a device of its model has; the
   * entry lists every such path.
   */
  lemma InconsistenciesExact(records: seq<DeviceRecord>, x: Inconsistency)
    ensures x in Inconsistencies(records) <==>
      exists rec :: rec in records && Reported(records, rec, x)
  {
    if x in Inconsistencies(records) {
      ListedIsReported(records, x);
    }
    if exists rec :: rec in records && Reported(records, rec, x) {
      var rec :| rec in records && Reported(records, rec, x);
      ReportedIsListed(records, rec, x);
    }
  }

  lemma ListedIsReported(records: seq<DeviceRecord>, x: Inconsistency)
    requires x in Inconsistencies(records)
    ensures exists rec :: rec in records && Reported(records, rec, x)
  {
    InconsistenciesForSound(records, Models(records), x);
    var m :| m in Models(records) && x in ModelInconsistencies(m, ModelGroup(records, m));
    var group := ModelGroup(records, m);
    assert |group| >= 2;
    GroupInconsistenciesExact(m, group, UnionPaths(group), x);
    var rec :| rec in group && x == Inconsistency(m, rec.name, UnionPaths(group) - rec.paths)
      && UnionPaths(group) - rec.paths != {};
    assert Reported(records, rec, x);
  }

  lemma ReportedIsListed(records: seq<DeviceRecord>, rec: DeviceRecord, x: Inconsistency)
    requires rec in records && Reported(records, rec, x)
    ensures x in Inconsistencies(records)
  {
    var group := ModelGroup(records, x.model);
    GroupInconsistenciesExact(x.model, group, UnionPaths(group), x);
    assert rec in group;
    assert x.model in Models(records);
    assert x in ModelInconsistencies(x.model, group);
    InconsistenciesForComplete(records, Models(records), x.model, x);
  }

  /** Two distinct positions of one model make a group of at least two. */
  lemma {:induction false} TwoMakeAGroup(records: seq<DeviceRecord>, i: int, j: int)
    requires 0 <= i < j < |records| && records[i].model == records[j].model
    ensures |ModelGroup(records, records[i].model)| >= 2
  {
    var init, last := records[..|records| - 1], records[|records| - 1];
    if j < |records| - 1 {
      assert init[i] == records[i] && init[j] == records[j];
      TwoMakeAGroup(init, i, j);
    } else {
      assert init[i] in init;
      assert records[i] in ModelGroup(init, records[i].model);
    }
  }

  /**
   * A device that lacks a path another device of its model has is reported,
   * with that path among its missing attributes.
   */
  lemma LackingDeviceReported(records: seq<DeviceRecord>, i: int, j: int, p: string)
    requires 0 <= i < |records| && 0 <= j < |records| && i != j
    requires records[i].model == records[j].model
    requires p in records[j].paths && p !in records[i].paths
    ensures exists x :: (x in Inconsistencies(records)
      && x.model == records[i].model && x.device == records[i].name && p in x.missingAttributes)
  {
    var rec := records[i];
    var group := ModelGroup(records, rec.model);
    if i < j { TwoMakeAGroup(records, i, j); } else { TwoMakeAGroup(records, j, i); }
    assert records[j] in group;
    var x := Inconsistency(rec.model, rec.name, UnionPaths(group) - rec.paths);
    assert p in x.missingAttributes;
    InconsistenciesExact(records, x);
  }

  // ------------------------------------------------ the pass, one device each

  /** Adding one record adds its model if new, and the record to its model's group. */
  lemma ModelsStep(records: seq<DeviceRecord>, i: int)
    requires 0 <= i < |records|
    ensures Models(records[..i + 1]) ==
      Models(records[..i]) + (if records[i].model in Models(records[..i]) then [] else [records[i].model])
  {
    assert records[..i + 1][..i] == records[..i];
    var ms := ModelList(records[..i + 1]);
    assert ms == ModelList(records[..i]) + [records[i].model];
    assert ms[..|ms| - 1] == ModelList(records[..i]);
  }

  lemma ModelGroupStep(records: seq<DeviceRecord>, i: int, m: string)
    requires 0 <= i < |records|
    ensures ModelGroup(records[..i + 1], m) == ModelGroup(records[..i], m) + (if records[i].model == m then [records[i]] else [])
  {
    assert records[..i + 1][..i] == records[..i];
  }

  /** A model not seen yet has no records. */
  lemma NewModelEmptyGroup(records: seq<DeviceRecord>, m: string)
    requires m !in Models(records)
    ensures ModelGroup(records, m) == []
  {
  }

  /** `groups` holds each of its models' records among `records`. */
  ghost predicate GroupsOf(records: seq<DeviceRecord>, groups: map<string, seq<DeviceRecord>>)
  {
    forall m :: m in groups ==> groups[m] == ModelGroup(records, m)
  }

  /** One more record of a model already seen joins that model's group. */
  lemma GroupsStepSeen(records: seq<DeviceRecord>, i: int, groups: map<string, seq<DeviceRecord>>)
    requires 0 <= i < |records|
    requires GroupsOf(records[..i], groups) && records[i].model in groups
    ensures GroupsOf(records[..i + 1], groups[records[i].model := groups[records[i].model] + [records[i]]])
  {
    var rec := records[i];
    var groups' := groups[rec.model := groups[rec.model] + [rec]];
    forall m | m in groups' ensures groups'[m] == ModelGroup(records[..i + 1], m) {
      ModelGroupStep(records, i, m);
    }
  }

  /** A record of a model not seen yet opens that model's group. */
  lemma GroupsStepNew(records: seq<DeviceRecord>, i: int, groups: map<string, seq<DeviceRecord>>)
    requires 0 <= i < |records|
    requires GroupsOf(records[..i], groups) && records[i].model !in Models(records[..i])
    ensures GroupsOf(records[..i + 1], groups[records[i].model := [records[i]]])
  {
    var rec := records[i];
    var groups' := groups[rec.model := [rec]];
    NewModelEmptyGroup(records[..i], rec.model);
    forall m | m in groups' ensures groups'[m] == ModelGroup(records[..i + 1], m) {
      ModelGroupStep(records, i, m);
    }
  }

  /** Groups the records by model: the models in first-seen order and each model's records. */
  method GroupByModel(records: seq<DeviceRecord>) returns (models: seq<string>, groups: map<string, seq<DeviceRecord>>)
    ensures models == Models(records)
    ensures forall m :: m in models ==> m in groups && groups[m] == ModelGroup(records, m)
  {
    models := [];
    groups := map[];
    for i := 0 to |records|
      invariant models == Models(records[..i])
      invariant forall m :: m in groups <==> m in models
      invariant GroupsOf(records[..i], groups)
    {
      var rec := records[i];
      ModelsStep(records, i);
      if rec.model in groups {
        GroupsStepSeen(records, i, groups);
        groups := groups[rec.model := groups[rec.model] + [rec]];
      } else {
        GroupsStepNew(records, i, groups);
        models := models + [rec.model];
        groups := groups[rec.model := [rec]];
      }
    }
    assert records[..|records|] == records;
  }

  /** The union of a group's paths. */
  method GroupUnion(group: seq<DeviceRecord>) returns (all: set<string>)
    ensures all == UnionPaths(group)
  {
    all := {};
    for g := 0 to |group|
      invariant all == UnionPaths(group[..g])
    {
      assert group[..g + 1][..g] == group[..g];
      all := all + group[g].paths;
    }
    assert group[..|group|] == group;
  }

  /** Appends one entry per record of `group` that lacks some of `all`. */
  method AddGroupEntries(model: string, group: seq<DeviceRecord>, all: set<string>, entries: seq<Inconsistency>)
    returns (r: seq<Inconsistency>)
    ensures r == entries + GroupInconsistencies(model, group, all)
  {
    r := entries;
    for g := 0 to |group|
      invariant r == entries + GroupInconsistencies(model, group[..g], all)
    {
      assert group[..g + 1][..g] == group[..g];
      var missing := all - group[g].paths;
      if missing != {} {
        r := r + [Inconsistency(model, group[g].name, missing)];
      }
    }
    assert group[..|group|] == group;
  }

  /**
   * The inconsistency pass with each device compared on its own attributes:
   * models in first-seen order, models with fewer than two devices skipped.
   */
  method FindInconsistencies(records: seq<DeviceRecord>) returns (r: seq<Inconsistency>)
    ensures r == Inconsistencies(records)
  {
    var models, groups := GroupByModel(records);
    r := [];
    for k := 0 to |models|
      invariant r == InconsistenciesFor(records, models[..k])
    {
      var model := models[k];
      var group := groups[model];
      InconsistenciesForStep(records, models, k);
      if |group| >= 2 {
        var all := GroupUnion(group);
        r := AddGroupEntries(model, group, all, r);
      } else {
        assert r + ModelInconsistencies(model, group) == r;
      }
    }
    assert models[..|models|] == models;
  }

  lemma InconsistenciesForStep(records: seq<DeviceRecord>, models: seq<string>, k: nat)
    requires k < |models|
    ensures InconsistenciesFor(records, models[..k + 1]) ==
      InconsistenciesFor(records, models[..k]) + ModelInconsistencies(models[k], ModelGroup(records, models[k]))
  {
    assert models[..k + 1][..k] == models[..k];
  }

  // ------------------------------------------------ the devices compared

  /** What the report reads off a Ring device: `name`, `model` and `_attrs`. */
  datatype RingDevice = RingDevice(name: string, model: string, attrs: map<string, Node>)

  /** `getattr(devices_dict, family, []) or []` for each family, family by family. */
  function FamilyDevices(ring: map<string, seq<RingDevice>>, families: seq<string>): seq<RingDevice>
  {
    if families == [] then []
    else
      var family := families[|families| - 1];
      FamilyDevices(ring, families[..|families| - 1]) + (if family in ring then ring[family] else [])
  }

  /** One record per device, in order, a device whose `_attrs` is empty skipped (`if not attrs: continue`). */
  function RecordsOf(devices: seq<RingDevice>): seq<DeviceRecord>
  {
    if devices == [] then []
    else
      var d := devices[|devices| - 1];
      RecordsOf(devices[..|devices| - 1]) + (if d.attrs == map[] then [] else [RecordOf(d.name, d.model, d.attrs)])
  }

  /**
   * The inconsistencies of the devices of every family, each device compared
   * on its own attributes (the corrected pass; `ReportedInconsistencies` is
   * the report's own, and `ReportAgreesOnDistinctNames` says when they agree).
   */
  function DeviceInconsistencies(ring: map<string, seq<RingDevice>>): seq<Inconsistency>
  {
    Inconsistencies(RecordsOf(FamilyDevices(ring, SensorCatalog.DeviceFamilies)))
  }

  /** A record is compared exactly when it is the record of a listed device with attributes. */
  lemma {:induction false} RecordsExact(devices: seq<RingDevice>, rec: DeviceRecord)
    ensures rec in RecordsOf(devices) <==>
      exists d :: d in devices && d.attrs != map[] && rec == RecordOf(d.name, d.model, d.attrs)
  {
    if devices != [] {
      var init := devices[..|devices| - 1];
      RecordsExact(init, rec);
      assert forall d :: d in devices <==> d in init || d == devices[|devices| - 1];
    }
  }

  /**
   * A device whose `_attrs` is empty is never reported: no entry names it,
   * unless another device of the same name has attributes.
   */
  lemma EmptyAttrsNeverReported(devices: seq<RingDevice>, d: RingDevice, x: Inconsistency)
    requires d in devices && d.attrs == map[]
    requires forall e :: e in devices && e.name == d.name ==> e.attrs == map[]
    requires x in Inconsistencies(RecordsOf(devices))
    ensures x.device != d.name
  {
    var records := RecordsOf(devices);
    InconsistenciesExact(records, x);
    var rec :| rec in records && Reported(records, rec, x);
    RecordsExact(devices, rec);
  }

  /**
   * The records-building loops of the report: family by family, device by
   * device, skipping a device whose `_attrs` is empty.
   */
  method CollectRecords(ring: map<string, seq<RingDevice>>, families: seq<string>) returns (records: seq<DeviceRecord>)
    ensures records == RecordsOf(FamilyDevices(ring, families))
  {
    records := [];
    for i := 0 to |families|
      invariant records == RecordsOf(FamilyDevices(ring, families[..i]))
    {
      var devices := if families[i] in ring then ring[families[i]] else [];
      ghost var before := FamilyDevices(ring, families[..i]);
      assert before + devices[..0] == before;
      for j := 0 to |devices|
        invariant records == RecordsOf(before + devices[..j])
      {
        var d := devices[j];
        RecordsStep(before + devices[..j], d);
        assert before + devices[..j + 1] == (before + devices[..j]) + [d];
        if d.attrs != map[] {
          records := records + [RecordOf(d.name, d.model, d.attrs)];
        }
      }
      assert families[..i + 1][..i] == families[..i];
      assert devices[..|devices|] == devices;
    }
    assert families[..|families|] == families;
  }

  /** The corrected inconsistencies, from the Ring devices: the record loops, then the comparison loops. */
  method CorrectedInconsistencies(ring: map<string, seq<RingDevice>>) returns (r: seq<Inconsistency>)
    ensures r == DeviceInconsistencies(ring)
  {
    var records := CollectRecords(ring, SensorCatalog.DeviceFamilies);
    r := FindInconsistencies(records);
  }

  lemma RecordsStep(devices: seq<RingDevice>, d: RingDevice)
    ensures RecordsOf(devices + [d]) ==
      RecordsOf(devices) + (if d.attrs == map[] then [] else [RecordOf(d.name, d.model, d.attrs)])
  {
    assert (devices + [d])[..|devices|] == devices;
  }

  // ------------------------------------------------ the pass as written

  /** `devices_info`: keyed by display name, a later device replacing an earlier one of the same name. */
  function InfoByName(records: seq<DeviceRecord>): map<string, DeviceRecord>
  {
    if records == [] then map[]
    else
      var rec := records[|records| - 1];
      InfoByName(records[..|records| - 1])[rec.name := rec]
  }

  /** `model_comparison[model]`: the names of the model's devices, repeats included. */
  function NamesOf(records: seq<DeviceRecord>, model: string): seq<string>
  {
    if records == [] then []
    else
      var rec := records[|records| - 1];
      NamesOf(records[..|records| - 1], model) + (if rec.model == model then [rec.name] else [])
  }

  /** `devices_info.get(name, {}).get("attrs", {})`, as paths. */
  function PathsByName(info: map<string, DeviceRecord>, name: string): set<string>
  {
    if name in info then info[name].paths else {}
  }

  function NameUnion(info: map<string, DeviceRecord>, names: seq<string>): set<string>
  {
    if names == [] then {}
    else NameUnion(info, names[..|names| - 1]) + PathsByName(info, names[|names| - 1])
  }

  function NameEntries(model: string, info: map<string, DeviceRecord>, names: seq<string>, all: set<string>): seq<Inconsistency>
  {
    if names == [] then []
    else
      var name := names[|names| - 1];
      NameEntries(model, info, names[..|names| - 1], all)
      + (if all - PathsByName(info, name) != {} then [Inconsistency(model, name, all - PathsByName(info, name))] else [])
  }

  /** One model's entries as written: paths looked up by name, each name once. */
  function ModelInconsistenciesAsWritten(records: seq<DeviceRecord>, model: string): seq<Inconsistency>
  {
    var names := NamesOf(records, model);
    if |names| < 2 then []
    else
      var info := InfoByName(records);
      var byName := FirstSeen(names);
      NameEntries(model, info, byName, NameUnion(info, byName))
  }

  function InconsistenciesAsWrittenFor(records: seq<DeviceRecord>, models: seq<string>): seq<Inconsistency>
  {
    if models == [] then []
    else
      InconsistenciesAsWrittenFor(records, models[..|models| - 1])
      + ModelInconsistenciesAsWritten(records, models[|models| - 1])
  }

  /** `inconsistencies` as the report computes it. */
  function InconsistenciesAsWritten(records: seq<DeviceRecord>): seq<Inconsistency>
  {
    InconsistenciesAsWrittenFor(records, Models(records))
  }

  // ------------------------------------ the pass as written, with unique names

  predicate DistinctNames(records: seq<DeviceRecord>)
  {
    forall i, j :: 0 <= i < j < |records| ==> records[i].name != records[j].name
  }

  /** The names of a group's records, in order. */
  function GroupNames(group: seq<DeviceRecord>): (r: seq<string>)
    ensures |r| == |group|
    ensures forall i :: 0 <= i < |group| ==> r[i] == group[i].name
  {
    seq(|group|, i requires 0 <= i < |group| => group[i].name)
  }

  /** Every record of `group` is what `info` holds under its name. */
  predicate FiledByName(info: map<string, DeviceRecord>, group: seq<DeviceRecord>)
  {
    forall i :: 0 <= i < |group| ==> group[i].name in info && info[group[i].name] == group[i]
  }

  lemma {:induction false} NamesOfGroup(records: seq<DeviceRecord>, model: string)
    ensures NamesOf(records, model) == GroupNames(ModelGroup(records, model))
  {
    if records != [] {
      var init, rec := records[..|records| - 1], records[|records| - 1];
      NamesOfGroup(init, model);
      var g := ModelGroup(init, model);
      if rec.model == model {
        assert GroupNames(g + [rec]) == GroupNames(g) + [rec.name];
      }
    }
  }

  lemma {:induction false} GroupNamesDistinct(records: seq<DeviceRecord>, model: string)
    requires DistinctNames(records)
    ensures Text.NoDuplicates(GroupNames(ModelGroup(records, model)))
  {
    if records != [] {
      var init, rec := records[..|records| - 1], records[|records| - 1];
      GroupNamesDistinct(init, model);
      var g := ModelGroup(init, model);
      if rec.model == model {
        var names := GroupNames(g + [rec]);
        forall i, j | 0 <= i < j < |names| ensures names[i] != names[j] {
          if j == |g| {
            assert g[i] in init;
            var k :| 0 <= k < |init| && init[k] == g[i];
            assert records[k] == g[i];
          } else {
            assert names[i] == GroupNames(g)[i] && names[j] == GroupNames(g)[j];
          }
        }
      }
    }
  }

  lemma {:induction false} FirstSeenOfDistinct(xs: seq<string>)
    requires Text.NoDuplicates(xs)
    ensures FirstSeen(xs) == xs
  {
    if xs != [] {
      var init := xs[..|xs| - 1];
      FirstSeenOfDistinct(init);
      assert xs[|xs| - 1] !in init;
      assert init + [xs[|xs| - 1]] == xs;
    }
  }

  lemma {:induction false} InfoFilesAll(records: seq<DeviceRecord>)
    requires DistinctNames(records)
    ensures FiledByName(InfoByName(records), records)
  {
    if records != [] {
      var init, rec := records[..|records| - 1], records[|records| - 1];
      InfoFilesAll(init);
      forall i | 0 <= i < |records| ensures records[i].name in InfoByName(records) && InfoByName(records)[records[i].name] == records[i] {
        if i < |init| {
          assert records[i] == init[i];
        }
      }
    }
  }

  lemma FiledGroup(info: map<string, DeviceRecord>, records: seq<DeviceRecord>, model: string)
    requires FiledByName(info, records)
    ensures FiledByName(info, ModelGroup(records, model))
  {
    var g := ModelGroup(records, model);
    forall i | 0 <= i < |g| ensures g[i].name in info && info[g[i].name] == g[i] {
      assert g[i] in records;
    }
  }

  lemma {:induction false} NameUnionByGroup(info: map<string, DeviceRecord>, group: seq<DeviceRecord>)
    requires FiledByName(info, group)
    ensures NameUnion(info, GroupNames(group)) == UnionPaths(group)
  {
    if group != [] {
      var init := group[..|group| - 1];
      assert GroupNames(group)[..|group| - 1] == GroupNames(init);
      NameUnionByGroup(info, init);
    }
  }

  lemma {:induction false} NameEntriesByGroup(model: string, info: map<string, DeviceRecord>, group: seq<DeviceRecord>, all: set<string>)
    requires FiledByName(info, group)
    ensures NameEntries(model, info, GroupNames(group), all) == GroupInconsistencies(model, group, all)
  {
    if group != [] {
      var init := group[..|group| - 1];
      assert GroupNames(group)[..|group| - 1] == GroupNames(init);
      NameEntriesByGroup(model, info, init, all);
    }
  }

  lemma ModelAsWrittenAgrees(records: seq<DeviceRecord>, model: string)
    requires DistinctNames(records)
    ensures ModelInconsistenciesAsWritten(records, model) == ModelInconsistencies(model, ModelGroup(records, model))
  {
    var g := ModelGroup(records, model);
    var info := InfoByName(records);
    NamesOfGroup(records, model);
    GroupNamesDistinct(records, model);
    FirstSeenOfDistinct(GroupNames(g));
    InfoFilesAll(records);
    FiledGroup(info, records, model);
    NameUnionByGroup(info, g);
    NameEntriesByGroup(model, info, g, UnionPaths(g));
  }

  lemma {:induction false} AsWrittenForAgrees(records: seq<DeviceRecord>, models: seq<string>)
    requires DistinctNames(records)
    ensures InconsistenciesAsWrittenFor(records, models) == InconsistenciesFor(records, models)
  {
    if models != [] {
      AsWrittenForAgrees(records, models[..|models| - 1]);
      ModelAsWrittenAgrees(records, models[|models| - 1]);
    }
  }

  /**
   * When no two devices share a display name, the report as written lists
   * exactly the corrected inconsistencies, in the same order.
   */
  lemma AsWrittenAgreesOnDistinctNames(records: seq<DeviceRecord>)
    requires DistinctNames(records)
    ensures InconsistenciesAsWritten(records) == Inconsistencies(records)
  {
    AsWrittenForAgrees(records, Models(records));
  }

  /** The report's own `inconsistencies`, over the devices of every family. */
  function ReportedInconsistencies(ring: map<string, seq<RingDevice>>): seq<Inconsistency>
  {
    InconsistenciesAsWritten(RecordsOf(FamilyDevices(ring, SensorCatalog.DeviceFamilies)))
  }

  /**
   * When no two devices with attributes share a display name, the report's
   * `inconsistencies` are the corrected ones, in the same order.
   */
  lemma ReportAgreesOnDistinctNames(ring: map<string, seq<RingDevice>>)
    requires DistinctNames(RecordsOf(FamilyDevices(ring, SensorCatalog.DeviceFamilies)))
    ensures ReportedInconsistencies(ring) == DeviceInconsistencies(ring)
  {
    AsWrittenAgreesOnDistinctNames(RecordsOf(FamilyDevices(ring, SensorCatalog.DeviceFamilies)));
  }

  /**
   * Two devices of one model that share a display name, the first with paths
   * `a` and `b`, the second with `a` only.
   */
  function SameNameRecords(): seq<DeviceRecord>
  {
    [DeviceRecord("Cam", "M", {"a", "b"}), DeviceRecord("Cam", "M", {"a"})]
  }

  lemma FirstSeenTwice(x: string)
    ensures FirstSeen([x, x]) == [x]
  {
    assert [x, x][..1] == [x];
    assert [x][..0] == [];
    assert FirstSeen([x]) == [x];
  }

  lemma PairPrefixes(a: DeviceRecord, b: DeviceRecord)
    ensures [a, b][..1] == [a] && [a][..0] == []
  {
  }

  /** Two devices of one model give that model once. */
  lemma PairModels(a: DeviceRecord, b: DeviceRecord)
    requires a.model == b.model
    ensures Models([a, b]) == [a.model]
  {
    PairPrefixes(a, b);
    assert ModelList([a]) == [a.model];
    assert ModelList([a, b]) == [a.model, a.model];
    FirstSeenTwice(a.model);
  }

  /**
   * As written, two devices of one model that share a display name are never
   * reported, whatever their attributes: the name points at the second
   * device for both.
   */
  lemma {:induction false} SameNamePairAsWritten(a: DeviceRecord, b: DeviceRecord)
    requires a.model == b.model && a.name == b.name
    ensures InconsistenciesAsWritten([a, b]) == []
  {
    PairModels(a, b);
    SameNameInfo(a, b);
    PairNames(a, b);
    FirstSeenTwice(a.name);
    OneNameNoEntries(a.model, a.name, b);
    assert ModelInconsistenciesAsWritten([a, b], a.model) == [];
    assert [a.model][..0] == [];
    assert InconsistenciesAsWrittenFor([a, b], [a.model]) ==
      InconsistenciesAsWrittenFor([a, b], []) + ModelInconsistenciesAsWritten([a, b], a.model);
  }

  lemma SameNameInfo(a: DeviceRecord, b: DeviceRecord)
    requires a.name == b.name
    ensures InfoByName([a, b]) == map[a.name := b]
  {
    PairPrefixes(a, b);
    assert InfoByName([a]) == map[a.name := a];
  }

  lemma PairNames(a: DeviceRecord, b: DeviceRecord)
    requires a.model == b.model
    ensures NamesOf([a, b], a.model) == [a.name, b.name]
  {
    PairPrefixes(a, b);
    assert NamesOf([a], a.model) == [a.name];
  }

  /** A single name compared with its own paths lacks nothing. */
  lemma OneNameNoEntries(model: string, name: string, rec: DeviceRecord)
    ensures NameEntries(model, map[name := rec], [name], NameUnion(map[name := rec], [name])) == []
  {
    assert [name][..0] == [];
    assert NameUnion(map[name := rec], [name]) == rec.paths;
  }

  /**
   * Compared device by device, the second of two devices of one model is
   * reported with what it lacks, whatever the names.
   */
  lemma {:induction false} PairCorrected(a: DeviceRecord, b: DeviceRecord)
    requires a.model == b.model && b.paths < a.paths
    ensures Inconsistencies([a, b]) == [Inconsistency(a.model, b.name, a.paths - b.paths)]
  {
    PairModels(a, b);
    PairPrefixes(a, b);
    assert ModelGroup([a], a.model) == [a];
    assert ModelGroup([a, b], a.model) == [a, b];
    assert UnionPaths([a]) == a.paths;
    assert UnionPaths([a, b]) == a.paths;
    assert a.paths - a.paths == {};
    assert GroupInconsistencies(a.model, [a], a.paths) == [];
    assert a.paths - b.paths != {};
    var entry := Inconsistency(a.model, b.name, a.paths - b.paths);
    assert GroupInconsistencies(a.model, [a, b], a.paths) == [entry];
    assert ModelInconsistencies(a.model, [a, b]) == [entry];
    assert [a.model][..0] == [];
    assert InconsistenciesFor([a, b], [a.model]) ==
      InconsistenciesFor([a, b], []) + ModelInconsistencies(a.model, ModelGroup([a, b], a.model));
  }

  /** As written, the two `Cam` devices are not reported. */
  lemma SameNameAsWritten()
    ensures InconsistenciesAsWritten(SameNameRecords()) == []
  {
    var records := SameNameRecords();
    SameNamePairAsWritten(records[0], records[1]);
    assert records == [records[0], records[1]];
  }

  /** Compared device by device, the second `Cam` device is reported as missing `b`. */
  lemma SameNameCorrected()
    ensures Inconsistencies(SameNameRecords()) == [Inconsistency("M", "Cam", {"b"})]
  {
    var records := SameNameRecords();
    assert {"a"} < {"a", "b"};
    assert {"a", "b"} - {"a"} == {"b"};
    PairCorrected(records[0], records[1]);
    assert records == [records[0], records[1]];
  }
}
