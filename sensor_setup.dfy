/**
 * Which sensors the platform creates for the Ring devices it is given:
 * the attribute merge of `_get_device_merged_attrs` and the entity
 * selection loops of `async_setup_entry`.
 *
 * A Ring device is a plain record. `deviceId` is the string of its
 * `device_id` attribute ("" when that is missing or false), `ringId` the
 * string of its `id` attribute when it has one, `attrs` its `_attrs` and
 * `healthAttrs` its `_health_attrs` (Null when missing).
 */
module SensorSetup {
  import opened Wrappers
  import opened AttrTree
  import opened SensorDescription
  import SensorCatalog

  datatype Device = Device(
    deviceId: string,
    ringId: Option<string>,
    className: string,
    name: string,
    attrs: Node,
    healthAttrs: Node)

  /** `str(getattr(device, "device_id", None) or getattr(device, "id", fallback))` */
  function DeviceIdOr(d: Device, fallback: string): string
  {
    if d.deviceId != "" then d.deviceId else d.ringId.GetOr(fallback)
  }

  /** The id an entity keeps for its device (fallback `"unknown"`). */
  function EntityDeviceId(d: Device): string
  {
    DeviceIdOr(d, "unknown")
  }

  /** The id the device lookups compare against (fallback `""`). */
  function LookupDeviceId(d: Device): string
  {
    DeviceIdOr(d, "")
  }

  /** The Python exception a setup step raises, named after the value that caused it. */
  datatype SetupError =
    | AttrsNotDict        // `dict(_attrs)` of a true value that is not a dict
    | HealthNotDict       // `dict(attrs["health"])` of a true value that is not a dict
    | HealthAttrsNotDict  // `update(_health_attrs)` with a true value that is not a dict
    | AlertsNotDict       // `attrs["alerts"].items()` on a true value that is not a dict
    | HealthHasNoLen      // `len(...)` of a merged `health` that is None, 0 or False
    | HealthHasNoGet      // `.get(...)` on a merged `health` that is not a dict

  /** `dict(x or {})`: a false value gives the empty dict, a dict is copied, anything else raises. */
  function DictOf(n: Node): Option<map<string, Node>>
  {
    if !Truthy(n) then Some(map[]) else if n.Map? then Some(n.entries) else None
  }

  /** `m.get(key, default)` */
  function Get(m: map<string, Node>, key: string, default: Node): Node
  {
    if key in m then m[key] else default
  }

  const AlertPrefix := "alert_"

  /** A health key written for an alert: `"alert_"` followed by a key of `alerts`. */
  predicate IsAlertKey(key: string, alerts: map<string, Node>)
  {
    |key| >= |AlertPrefix| && key[..|AlertPrefix|] == AlertPrefix && key[|AlertPrefix|..] in alerts
  }

  /** `{"alert_" + k: alerts[k]}` for the keys `ks` of `alerts`. */
  function AlertEntriesOf(alerts: map<string, Node>, ks: set<string>): map<string, Node>
  {
    map h | h in (set k | k in ks && k in alerts :: AlertPrefix + k) :: alerts[h[|AlertPrefix|..]]
  }

  function AlertEntries(alerts: map<string, Node>): map<string, Node>
  {
    AlertEntriesOf(alerts, alerts.Keys)
  }

  /**
   * The combined health dict: `attrs["health"]`, overlaid by the health
   * endpoint's attributes, overlaid by one `alert_` key per alert.
   */
  function CombinedHealth(attrs: map<string, Node>, healthAttrs: Node): Result<map<string, Node>, SetupError>
  {
    var base := DictOf(Get(attrs, "health", Map(map[])));
    if base.None? then Err(HealthNotDict)
    else if Truthy(healthAttrs) && !healthAttrs.Map? then Err(HealthAttrsNotDict)
    else
      var withExtra := if Truthy(healthAttrs) then base.value + healthAttrs.entries else base.value;
      var alerts := Get(attrs, "alerts", Map(map[]));
      if !Truthy(alerts) then Ok(withExtra)
      else if !alerts.Map? then Err(AlertsNotDict)
      else Ok(withExtra + AlertEntries(alerts.entries))
  }

  /** `_get_device_merged_attrs(device)` */
  function MergedAttrs(d: Device): Result<map<string, Node>, SetupError>
  {
    var attrs := DictOf(d.attrs);
    if attrs.None? then Err(AttrsNotDict)
    else
      match CombinedHealth(attrs.value, d.healthAttrs)
      case Err(e) => Err(e)
      case Ok(health) => Ok(if health != map[] then attrs.value["health" := Map(health)] else attrs.value)
  }

  lemma {:induction false} AlertEntriesStep(alerts: map<string, Node>, ks: set<string>, k: string)
    requires k in alerts
    ensures AlertEntriesOf(alerts, ks + {k}) == AlertEntriesOf(alerts, ks)[AlertPrefix + k := alerts[k]]
  {
    assert (AlertPrefix + k)[|AlertPrefix|..] == k;
    var a := AlertEntriesOf(alerts, ks + {k});
    var b := AlertEntriesOf(alerts, ks)[AlertPrefix + k := alerts[k]];
    forall x | x in a ensures x in b {
      var j :| j in ks + {k} && j in alerts && x == AlertPrefix + j;
    }
    forall x | x in b ensures x in a {
      if x != AlertPrefix + k {
        var j :| j in ks && j in alerts && x == AlertPrefix + j;
      }
    }
  }

  lemma UpdateAfterMerge(m: map<string, Node>, a: map<string, Node>, x: string, v: Node)
    ensures m + a[x := v] == (m + a)[x := v]
  {
  }

  /** The loop writing `health["alert_" + key] = value` for every alert. */
  method AddAlerts(health: map<string, Node>, alerts: map<string, Node>) returns (h: map<string, Node>)
    ensures h == health + AlertEntries(alerts)
  {
    h := health;
    var remaining := alerts.Keys;
    while remaining != {}
      invariant remaining <= alerts.Keys
      invariant h == health + AlertEntriesOf(alerts, alerts.Keys - remaining)
      decreases |remaining|
    {
      var k :| k in remaining;
      AlertEntriesStep(alerts, alerts.Keys - remaining, k);
      assert alerts.Keys - (remaining - {k}) == (alerts.Keys - remaining) + {k};
      UpdateAfterMerge(health, AlertEntriesOf(alerts, alerts.Keys - remaining), AlertPrefix + k, alerts[k]);
      h := h[AlertPrefix + k := alerts[k]];
      remaining := remaining - {k};
    }
    assert alerts.Keys - remaining == alerts.Keys;
  }

  /** `_get_device_merged_attrs`: copy, overlay the health dict, add the alert keys, write health back. */
  method MergeDeviceAttrs(d: Device) returns (r: Result<map<string, Node>, SetupError>)
    ensures r == MergedAttrs(d)
  {
    var attrsDict := DictOf(d.attrs);
    if attrsDict.None? {
      return Err(AttrsNotDict);
    }
    var attrs := attrsDict.value;
    var baseHealth := DictOf(Get(attrs, "health", Map(map[])));
    if baseHealth.None? {
      return Err(HealthNotDict);
    }
    var health := baseHealth.value;
    if Truthy(d.healthAttrs) {
      if !d.healthAttrs.Map? {
        return Err(HealthAttrsNotDict);
      }
      health := health + d.healthAttrs.entries;
    }
    var alerts := Get(attrs, "alerts", Map(map[]));
    if Truthy(alerts) {
      if !alerts.Map? {
        return Err(AlertsNotDict);
      }
      health := AddAlerts(health, alerts.entries);
    }
    assert CombinedHealth(attrs, d.healthAttrs) == Ok(health);
    if health != map[] {
      attrs := attrs["health" := Map(health)];
    }
    return Ok(attrs);
  }

  /**
   * Each combined health key holds the alert's value when it is an alert
   * key, else the health endpoint's value when that has the key, else the
   * original health value; and no other key is present.
   */
  lemma {:induction false} HealthPrecedence(attrs: map<string, Node>, healthAttrs: Node, key: string)
    requires CombinedHealth(attrs, healthAttrs).Ok?
    ensures var h := CombinedHealth(attrs, healthAttrs).value;
      var base := DictOf(Get(attrs, "health", Map(map[]))).value;
      var extra := if Truthy(healthAttrs) then healthAttrs.entries else map[];
      var alerts := if Truthy(Get(attrs, "alerts", Map(map[]))) then Get(attrs, "alerts", Map(map[])).entries else map[];
      && (key in h <==> IsAlertKey(key, alerts) || key in extra || key in base)
      && (IsAlertKey(key, alerts) ==> h[key] == alerts[key[|AlertPrefix|..]])
      && (!IsAlertKey(key, alerts) && key in extra ==> h[key] == extra[key])
      && (!IsAlertKey(key, alerts) && key !in extra && key in base ==> h[key] == base[key])
  {
    var alertsNode := Get(attrs, "alerts", Map(map[]));
    var alerts := if Truthy(alertsNode) then alertsNode.entries else map[];
    if IsAlertKey(key, alerts) {
      assert AlertPrefix + key[|AlertPrefix|..] == key;
      assert key in AlertEntries(alerts);
    }
    if key in AlertEntries(alerts) {
      var j :| j in alerts && key == AlertPrefix + j;
      assert key[..|AlertPrefix|] == AlertPrefix && key[|AlertPrefix|..] == j;
    }
  }

  /**
   * The merge leaves every top-level key other than `"health"` as it was,
   * `"alerts"` included, and writes `"health"` back exactly when the combined
   * health dict is not empty.
   */
  lemma {:induction false} MergeKeepsOtherKeys(d: Device, key: string)
    requires MergedAttrs(d).Ok?
    ensures var attrs := DictOf(d.attrs).value;
      var m := MergedAttrs(d).value;
      && (key != "health" ==> (key in m <==> key in attrs) && (key in m ==> m[key] == attrs[key]))
      && var h := CombinedHealth(attrs, d.healthAttrs).value;
         (h != map[] ==> "health" in m && m["health"] == Map(h))
         && (h == map[] ==> m == attrs)
  {
  }

  // ---------------------------------------------------------------------
  // Entity selection
  // ---------------------------------------------------------------------

  /** The entities `async_setup_entry` adds, with the unique id each one builds. */
  datatype Entity =
    | Observation(uniqueId: string, deviceId: string, description: Descriptor, enabledByDefault: bool)
    | FirmwareHistorySensor(uniqueId: string, deviceId: string)
    | CoordinatorHealthSensor(uniqueId: string)

  /** `RingExtendedSensor(device, description, enabled_default=...)` */
  function ObservationOf(d: Device, desc: Descriptor, enabled: set<string>): Entity
  {
    Observation(EntityDeviceId(d) + "_" + desc.key, EntityDeviceId(d), desc, desc.category in enabled)
  }

  /** The sensors of one device: one per available descriptor of `catalog`, in catalog order. */
  function ObservationsOf(d: Device, attrs: map<string, Node>, catalog: seq<Descriptor>, enabled: set<string>): seq<Entity>
  {
    if catalog == [] then []
    else
      var desc := catalog[|catalog| - 1];
      ObservationsOf(d, attrs, catalog[..|catalog| - 1], enabled)
      + (if IsAvailable(desc, Map(attrs)) then [ObservationOf(d, desc, enabled)] else [])
  }

  /**
   * The two loops of `async_setup_entry` over the devices. With `asWritten`
   * a merged `"health"` that is not a dict raises where the code uses it as
   * one; without it, it counts as the empty dict.
   */
  datatype Pass =
    | SensorPass(catalog: seq<Descriptor>, enabled: set<string>, asWritten: bool)
    | FirmwarePass(asWritten: bool)

  /** The contributions of a loop's devices, in order, or the first exception among them. */
  function Gather(results: seq<Result<seq<Entity>, SetupError>>): Result<seq<Entity>, SetupError>
  {
    if results == [] then Ok([])
    else
      match Gather(results[..|results| - 1])
      case Err(e) => Err(e)
      case Ok(es) =>
        match results[|results| - 1]
        case Err(e) => Err(e)
        case Ok(mine) => Ok(es + mine)
  }

  /** What each device contributes to a loop, in device order. */
  function Steps(devices: seq<Device>, pass: Pass): seq<Result<seq<Entity>, SetupError>>
  {
    seq(|devices|, i requires 0 <= i < |devices| => StepOf(pass, devices[i]))
  }

  /** One result per device, in device order. */
  lemma StepsExact(devices: seq<Device>, pass: Pass)
    ensures |Steps(devices, pass)| == |devices|
    ensures forall i :: 0 <= i < |devices| ==> Steps(devices, pass)[i] == StepOf(pass, devices[i])
  {
  }

  /** A setup loop over `devices`. */
  function Collect(devices: seq<Device>, pass: Pass): Result<seq<Entity>, SetupError>
  {
    Gather(Steps(devices, pass))
  }

  /**
   * `len(device_attrs.get("health", {}))` in the setup's debug log, as
   * written: None when `len` raises. The log call's arguments are evaluated
   * whatever the log level.
   */
  function HealthKeyCountAsWritten(attrs: map<string, Node>): Option<nat>
  {
    match Get(attrs, "health", Map(map[]))
    case Map(m) => Some(|m|)
    case Str(s) => Some(|s|)
    case List(items) => Some(|items|)
    case _ => None
  }

  /** The debug count raises on the merged attributes of a device that is not skipped. */
  predicate CountRaises(attrs: map<string, Node>)
  {
    attrs != map[] && HealthKeyCountAsWritten(attrs).None?
  }

  /** The first loop's step: a device whose merged attrs are empty is skipped. */
  function DeviceSensors(d: Device, catalog: seq<Descriptor>, enabled: set<string>, asWritten: bool): Result<seq<Entity>, SetupError>
  {
    match MergedAttrs(d)
    case Err(e) => Err(e)
    case Ok(attrs) =>
      if attrs == map[] then Ok([])
      else if asWritten && CountRaises(attrs) then Err(HealthHasNoLen)
      else Ok(ObservationsOf(d, attrs, catalog, enabled))
  }

  /**
   * The merged `"health"` value as a dict, for the firmware-version test.
   * A value that is not a dict counts as the empty dict (see
   * `FirmwareLookupAsWritten` for what the code does instead).
   */
  function HealthDict(attrs: map<string, Node>): map<string, Node>
  {
    if "health" in attrs && attrs["health"].Map? then attrs["health"].entries else map[]
  }

  predicate HasFirmwareVersion(attrs: map<string, Node>)
  {
    var health := HealthDict(attrs);
    "firmware_version" in health && Truthy(health["firmware_version"])
  }

  /** `attrs.get("health", {}).get("firmware_version")` as written: a present non-dict health raises. */
  function FirmwareLookupAsWritten(attrs: map<string, Node>): Option<bool>
  {
    var health := Get(attrs, "health", Map(map[]));
    if !health.Map? then None
    else Some("firmware_version" in health.entries && Truthy(health.entries["firmware_version"]))
  }

  /** `RingDeviceFirmwareHistorySensor(device, ...)` */
  function FirmwareHistoryOf(d: Device): Entity
  {
    FirmwareHistorySensor(EntityDeviceId(d) + "_firmware_history", EntityDeviceId(d))
  }

  /** The firmware-version lookup raises on these merged attributes. */
  predicate LookupRaises(attrs: map<string, Node>)
  {
    FirmwareLookupAsWritten(attrs).None?
  }

  /** The second loop's step: a firmware-history sensor for a device with a firmware version. */
  function FirmwareSensorOf(d: Device, asWritten: bool): Result<seq<Entity>, SetupError>
  {
    match MergedAttrs(d)
    case Err(e) => Err(e)
    case Ok(attrs) =>
      if asWritten && LookupRaises(attrs) then Err(HealthHasNoGet)
      else Ok(if HasFirmwareVersion(attrs) then [FirmwareHistoryOf(d)] else [])
  }

  /** What one device contributes to a loop, or the exception it raises. */
  function StepOf(pass: Pass, d: Device): Result<seq<Entity>, SetupError>
  {
    match pass
    case SensorPass(catalog, enabled, asWritten) => DeviceSensors(d, catalog, enabled, asWritten)
    case FirmwarePass(asWritten) => FirmwareSensorOf(d, asWritten)
  }

  /** The device's step in a pass raises, by its merge or by a use of its merged `"health"`. */
  predicate StepRaises(d: Device, firmware: bool, asWritten: bool)
  {
    MergedAttrs(d).Err? || (asWritten && if firmware then LookupRaises(MergedAttrs(d).value) else CountRaises(MergedAttrs(d).value))
  }

  /** `getattr(devices_dict, family, []) or []` */
  function DevicesOf(ring: map<string, seq<Device>>, family: string): seq<Device>
  {
    if family in ring then ring[family] else []
  }

  /** The devices of `families`, family by family. */
  function AllDevices(ring: map<string, seq<Device>>, families: seq<string>): seq<Device>
  {
    if families == [] then []
    else AllDevices(ring, families[..|families| - 1]) + DevicesOf(ring, families[|families| - 1])
  }

  function CoordinatorHealthId(entryId: string): string
  {
    entryId + "_coordinator_health"
  }

  /**
   * `async_setup_entry`: no entities when the Ring integration's devices
   * are missing; otherwise the device sensors, then the firmware-history
   * sensors when a tracker is present, then the coordinator-health sensor.
   * `asWritten` chooses how a merged `"health"` that is not a dict is read.
   */
  function SetupEntities(ring: Option<map<string, seq<Device>>>, catalog: seq<Descriptor>, enabled: set<string>,
                         hasFirmwareTracker: bool, entryId: string, asWritten: bool): Result<seq<Entity>, SetupError>
  {
    if ring.None? then Ok([])
    else
      var devices := AllDevices(ring.value, SensorCatalog.DeviceFamilies);
      match Collect(devices, SensorPass(catalog, enabled, asWritten))
      case Err(e) => Err(e)
      case Ok(observations) =>
        match (if hasFirmwareTracker then Collect(devices, FirmwarePass(asWritten)) else Ok([]))
        case Err(e) => Err(e)
        case Ok(firmware) => Ok(observations + firmware + [CoordinatorHealthSensor(CoordinatorHealthId(entryId))])
  }

  // ---------------------------------------------------------------------
  // Properties of the selection
  // ---------------------------------------------------------------------

  /** A device gets a sensor for a descriptor exactly when the descriptor is listed and available. */
  lemma {:induction false} ObservationsExact(d: Device, attrs: map<string, Node>, catalog: seq<Descriptor>, enabled: set<string>, e: Entity)
    ensures e in ObservationsOf(d, attrs, catalog, enabled) <==>
      exists desc :: desc in catalog && IsAvailable(desc, Map(attrs)) && e == ObservationOf(d, desc, enabled)
  {
    if catalog != [] {
      var init, last := catalog[..|catalog| - 1], catalog[|catalog| - 1];
      ObservationsExact(d, attrs, init, enabled, e);
      assert catalog == init + [last];
      if e in ObservationsOf(d, attrs, init, enabled) {
        var desc :| desc in init && IsAvailable(desc, Map(attrs)) && e == ObservationOf(d, desc, enabled);
        assert desc in catalog;
      }
    }
  }

  predicate DistinctIds(es: seq<Entity>)
  {
    forall i, j :: 0 <= i < j < |es| ==> es[i].uniqueId != es[j].uniqueId
  }

  /** Descriptor keys that are pairwise distinct give one device pairwise distinct unique ids. */
  lemma {:induction false} ObservationIdsDistinct(d: Device, attrs: map<string, Node>, catalog: seq<Descriptor>, enabled: set<string>)
    requires forall i, j :: 0 <= i < j < |catalog| ==> catalog[i].key != catalog[j].key
    ensures DistinctIds(ObservationsOf(d, attrs, catalog, enabled))
  {
    if catalog != [] {
      var init, last := catalog[..|catalog| - 1], catalog[|catalog| - 1];
      ObservationIdsDistinct(d, attrs, init, enabled);
      var es := ObservationsOf(d, attrs, catalog, enabled);
      var prefix := ObservationsOf(d, attrs, init, enabled);
      var p := EntityDeviceId(d) + "_";
      assert es == prefix + (if IsAvailable(last, Map(attrs)) then [ObservationOf(d, last, enabled)] else []);
      forall i, j | 0 <= i < j < |es| ensures es[i].uniqueId != es[j].uniqueId {
        if j < |prefix| {
          assert es[i] == prefix[i] && es[j] == prefix[j];
          assert prefix[i].uniqueId != prefix[j].uniqueId;
        } else {
          assert es[j] == ObservationOf(d, last, enabled);
          assert es[i] == prefix[i];
          ObservationsExact(d, attrs, init, enabled, es[i]);
          var desc :| desc in init && IsAvailable(desc, Map(attrs)) && es[i] == ObservationOf(d, desc, enabled);
          var k :| 0 <= k < |init| && init[k] == desc;
          assert catalog[k] == desc && catalog[|catalog| - 1] == last;
          assert desc.key != last.key;
          assert es[i].uniqueId == p + desc.key && es[j].uniqueId == p + last.key;
          assert (p + desc.key)[|p|..] == desc.key;
          assert (p + last.key)[|p|..] == last.key;
        }
      }
    }
  }

  /** The sensors of one device of the catalog have pairwise distinct unique ids. */
  lemma CatalogObservationIdsDistinct(d: Device, attrs: map<string, Node>, enabled: set<string>)
    ensures DistinctIds(ObservationsOf(d, attrs, SensorCatalog.AllSensors(), enabled))
  {
    SensorCatalog.AllSensorsWellFormed();
    ObservationIdsDistinct(d, attrs, SensorCatalog.AllSensors(), enabled);
  }

  /** A loop fails exactly when some device's step fails. */
  lemma {:induction false} GatherFails(results: seq<Result<seq<Entity>, SetupError>>)
    ensures Gather(results).Err? <==> exists i :: 0 <= i < |results| && results[i].Err?
  {
    if results != [] {
      var init := results[..|results| - 1];
      GatherFails(init);
      if exists i :: 0 <= i < |init| && init[i].Err? {
        var i :| 0 <= i < |init| && init[i].Err?;
        assert results[i].Err?;
      }
    }
  }

  /** When a loop succeeds, it yields exactly the devices' contributions. */
  lemma {:induction false} GatherExact(results: seq<Result<seq<Entity>, SetupError>>, e: Entity)
    requires Gather(results).Ok?
    ensures e in Gather(results).value <==> exists i :: 0 <= i < |results| && results[i].Ok? && e in results[i].value
  {
    if results != [] {
      var n := |results| - 1;
      var init := results[..n];
      GatherExact(init, e);
      var es := Gather(init).value;
      assert Gather(results).value == es + results[n].value;
      if e in es {
        var i :| 0 <= i < |init| && init[i].Ok? && e in init[i].value;
        assert results[i] == init[i];
      }
      if exists i :: 0 <= i < |results| && results[i].Ok? && e in results[i].value {
        var i :| 0 <= i < |results| && results[i].Ok? && e in results[i].value;
        if i < n {
          assert init[i] == results[i];
        }
      }
    }
  }

  /** Once a loop has raised, the devices after it change nothing. */
  lemma {:induction false} GatherErrSticks(results: seq<Result<seq<Entity>, SetupError>>, more: seq<Result<seq<Entity>, SetupError>>)
    requires Gather(results).Err?
    ensures Gather(results + more) == Gather(results)
  {
    if more != [] {
      var init := more[..|more| - 1];
      GatherErrSticks(results, init);
      assert (results + more)[..|results + more| - 1] == results + init;
    } else {
      assert results + more == results;
    }
  }

  lemma StepsConcat(devices: seq<Device>, more: seq<Device>, pass: Pass)
    ensures Steps(devices + more, pass) == Steps(devices, pass) + Steps(more, pass)
  {
    var all, left, right := devices + more, Steps(devices, pass), Steps(more, pass);
    StepsExact(all, pass);
    StepsExact(devices, pass);
    StepsExact(more, pass);
    forall i | 0 <= i < |all| ensures Steps(all, pass)[i] == (left + right)[i] {
      if i < |devices| {
        assert all[i] == devices[i] && (left + right)[i] == left[i];
      } else {
        assert all[i] == more[i - |devices|] && (left + right)[i] == right[i - |devices|];
      }
    }
  }

  /** A setup loop fails exactly when some device's merge or step fails. */
  lemma CollectFails(devices: seq<Device>, pass: Pass)
    ensures Collect(devices, pass).Err? <==> exists d :: d in devices && StepOf(pass, d).Err?
  {
    var rs := Steps(devices, pass);
    GatherFails(rs);
    if exists d :: d in devices && StepOf(pass, d).Err? {
      var d :| d in devices && StepOf(pass, d).Err?;
      var i :| 0 <= i < |devices| && devices[i] == d;
      assert rs[i].Err?;
    }
  }

  /** When a setup loop succeeds, it yields exactly what its devices contribute. */
  lemma CollectExact(devices: seq<Device>, pass: Pass, e: Entity)
    requires Collect(devices, pass).Ok?
    ensures e in Collect(devices, pass).value <==> exists d :: d in devices && StepOf(pass, d).Ok? && e in StepOf(pass, d).value
  {
    var rs := Steps(devices, pass);
    GatherExact(rs, e);
    if exists d :: d in devices && StepOf(pass, d).Ok? && e in StepOf(pass, d).value {
      var d :| d in devices && StepOf(pass, d).Ok? && e in StepOf(pass, d).value;
      var i :| 0 <= i < |devices| && devices[i] == d;
      assert rs[i].Ok? && e in rs[i].value;
    }
  }

  lemma CollectStep(devices: seq<Device>, d: Device, pass: Pass)
    ensures Collect(devices + [d], pass) ==
      match Collect(devices, pass)
      case Err(e) => Err(e)
      case Ok(es) =>
        match StepOf(pass, d)
        case Err(e) => Err(e)
        case Ok(mine) => Ok(es + mine)
  {
    StepsConcat(devices, [d], pass);
    var rs := Steps(devices + [d], pass);
    assert rs[..|rs| - 1] == Steps(devices, pass);
  }

  lemma CollectErrSticks(devices: seq<Device>, more: seq<Device>, pass: Pass)
    requires Collect(devices, pass).Err?
    ensures Collect(devices + more, pass) == Collect(devices, pass)
  {
    StepsConcat(devices, more, pass);
    GatherErrSticks(Steps(devices, pass), Steps(more, pass));
  }

  /**
   * The device loop fails exactly when some device's merge fails or, as
   * written, when the debug count raises on some device; when it succeeds, a
   * device with non-empty merged attributes gets one sensor per available
   * descriptor, with its unique id and enabled flag, and nothing else is
   * created.
   */
  lemma DeviceLoopExact(devices: seq<Device>, catalog: seq<Descriptor>, enabled: set<string>, asWritten: bool, e: Entity)
    ensures Collect(devices, SensorPass(catalog, enabled, asWritten)).Err? <==>
      exists d :: d in devices && StepRaises(d, false, asWritten)
    ensures Collect(devices, SensorPass(catalog, enabled, asWritten)).Ok? ==>
      (e in Collect(devices, SensorPass(catalog, enabled, asWritten)).value <==>
         exists d, desc :: d in devices && MergedAttrs(d).Ok? && MergedAttrs(d).value != map[]
           && desc in catalog && IsAvailable(desc, Map(MergedAttrs(d).value)) && e == ObservationOf(d, desc, enabled))
  {
    var pass := SensorPass(catalog, enabled, asWritten);
    CollectFails(devices, pass);
    assert forall d :: StepOf(pass, d).Err? <==> StepRaises(d, false, asWritten);
    if Collect(devices, pass).Ok? {
      CollectExact(devices, pass, e);
      if e in Collect(devices, pass).value {
        var d :| d in devices && StepOf(pass, d).Ok? && e in StepOf(pass, d).value;
        ObservationsExact(d, MergedAttrs(d).value, catalog, enabled, e);
      }
      if exists d, desc :: d in devices && MergedAttrs(d).Ok? && MergedAttrs(d).value != map[]
           && desc in catalog && IsAvailable(desc, Map(MergedAttrs(d).value)) && e == ObservationOf(d, desc, enabled) {
        var d, desc :| d in devices && MergedAttrs(d).Ok? && MergedAttrs(d).value != map[]
           && desc in catalog && IsAvailable(desc, Map(MergedAttrs(d).value)) && e == ObservationOf(d, desc, enabled);
        ObservationsExact(d, MergedAttrs(d).value, catalog, enabled, e);
        assert e in StepOf(pass, d).value;
      }
    }
  }

  /**
   * The firmware loop fails exactly when some device's merge fails or, as
   * written, when the firmware lookup raises on some device; otherwise it
   * creates a firmware-history sensor exactly for the devices with a
   * firmware version.
   */
  lemma FirmwareLoopExact(devices: seq<Device>, asWritten: bool, e: Entity)
    ensures Collect(devices, FirmwarePass(asWritten)).Err? <==> exists d :: d in devices && StepRaises(d, true, asWritten)
    ensures Collect(devices, FirmwarePass(asWritten)).Ok? ==>
      (e in Collect(devices, FirmwarePass(asWritten)).value <==>
         exists d :: d in devices && MergedAttrs(d).Ok? && HasFirmwareVersion(MergedAttrs(d).value) && e == FirmwareHistoryOf(d))
  {
    var pass := FirmwarePass(asWritten);
    CollectFails(devices, pass);
    assert forall d :: StepOf(pass, d).Err? <==> StepRaises(d, true, asWritten);
    if Collect(devices, pass).Ok? {
      CollectExact(devices, pass, e);
      assert forall d :: StepOf(pass, d).Ok? ==> (e in StepOf(pass, d).value <==> HasFirmwareVersion(MergedAttrs(d).value) && e == FirmwareHistoryOf(d));
    }
  }

  /** Some Ring device raises in the device loop or, with a tracker, in the firmware loop. */
  predicate SomeDeviceRaises(ring: map<string, seq<Device>>, hasFirmwareTracker: bool, asWritten: bool)
  {
    exists d :: d in AllDevices(ring, SensorCatalog.DeviceFamilies) &&
      (StepRaises(d, false, asWritten) || (hasFirmwareTracker && StepRaises(d, true, asWritten)))
  }

  /** With the Ring devices present, setup raises exactly when some device raises in one of its loops. */
  lemma SetupFails(ring: map<string, seq<Device>>, catalog: seq<Descriptor>, enabled: set<string>,
                   hasFirmwareTracker: bool, entryId: string, asWritten: bool)
    ensures SetupEntities(Some(ring), catalog, enabled, hasFirmwareTracker, entryId, asWritten).Err? <==>
      SomeDeviceRaises(ring, hasFirmwareTracker, asWritten)
  {
    var devices := AllDevices(ring, SensorCatalog.DeviceFamilies);
    var first, second := SensorPass(catalog, enabled, asWritten), FirmwarePass(asWritten);
    CollectFails(devices, first);
    CollectFails(devices, second);
    assert forall d :: StepOf(first, d).Err? <==> StepRaises(d, false, asWritten);
    assert forall d :: StepOf(second, d).Err? <==> StepRaises(d, true, asWritten);
  }

  /** No setup loop yields a coordinator-health sensor. */
  lemma CollectedNotCoordinator(devices: seq<Device>, pass: Pass, e: Entity)
    requires Collect(devices, pass).Ok? && e in Collect(devices, pass).value
    ensures !e.CoordinatorHealthSensor?
  {
    CollectExact(devices, pass, e);
    var d :| d in devices && StepOf(pass, d).Ok? && e in StepOf(pass, d).value;
    if pass.SensorPass? {
      ObservationsExact(d, MergedAttrs(d).value, pass.catalog, pass.enabled, e);
    }
  }

  /**
   * Setup fails exactly when a device's attributes cannot be merged or, as
   * written, when a use of some device's merged `"health"` raises (the
   * debug count, or the firmware lookup when there is a tracker); when it
   * succeeds and the Ring devices are present, its last entity is the one
   * coordinator-health sensor, `"{entry_id}_coordinator_health"`.
   */
  lemma {:induction false} SetupShape(ring: Option<map<string, seq<Device>>>, catalog: seq<Descriptor>, enabled: set<string>,
                                      hasFirmwareTracker: bool, entryId: string, asWritten: bool)
    ensures var r := SetupEntities(ring, catalog, enabled, hasFirmwareTracker, entryId, asWritten);
      && (r.Err? <==> ring.Some? && SomeDeviceRaises(ring.value, hasFirmwareTracker, asWritten))
      && (r.Ok? && ring.Some? ==>
            |r.value| >= 1 && r.value[|r.value| - 1] == CoordinatorHealthSensor(CoordinatorHealthId(entryId))
            && forall k :: 0 <= k < |r.value| - 1 ==> !r.value[k].CoordinatorHealthSensor?)
      && (ring.None? ==> r == Ok([]))
  {
    if ring.Some? {
      SetupFails(ring.value, catalog, enabled, hasFirmwareTracker, entryId, asWritten);
      var devices := AllDevices(ring.value, SensorCatalog.DeviceFamilies);
      var first, second := SensorPass(catalog, enabled, asWritten), FirmwarePass(asWritten);
      var r := SetupEntities(ring, catalog, enabled, hasFirmwareTracker, entryId, asWritten);
      if r.Ok? {
        var observations := Collect(devices, first).value;
        var firmware := if hasFirmwareTracker then Collect(devices, second).value else [];
        assert r.value == observations + firmware + [CoordinatorHealthSensor(CoordinatorHealthId(entryId))];
        forall k | 0 <= k < |r.value| - 1 ensures !r.value[k].CoordinatorHealthSensor? {
          if k < |observations| {
            assert r.value[k] == observations[k];
            CollectedNotCoordinator(devices, first, observations[k]);
          } else {
            assert r.value[k] == firmware[k - |observations|];
            CollectedNotCoordinator(devices, second, firmware[k - |observations|]);
          }
        }
      }
    }
  }

  // ---------------------------------------------------------------------
  // The setup loops
  // ---------------------------------------------------------------------

  lemma AllDevicesStep(ring: map<string, seq<Device>>, families: seq<string>, i: nat)
    requires i < |families|
    ensures AllDevices(ring, families[..i + 1]) == AllDevices(ring, families[..i]) + DevicesOf(ring, families[i])
  {
    assert families[..i + 1][..i] == families[..i];
  }

  lemma {:induction false} AllDevicesConcat(ring: map<string, seq<Device>>, a: seq<string>, b: seq<string>)
    ensures AllDevices(ring, a + b) == AllDevices(ring, a) + AllDevices(ring, b)
  {
    if b != [] {
      var init, last := b[..|b| - 1], b[|b| - 1];
      AllDevicesConcat(ring, a, init);
      assert (a + b)[..|a + b| - 1] == a + init;
    } else {
      assert a + b == a;
    }
  }

  /** A family whose devices fail ends the loop with that failure. */
  lemma FamilyErrSticks(ring: map<string, seq<Device>>, families: seq<string>, f: nat, pass: Pass)
    requires f <= |families|
    requires Collect(AllDevices(ring, families[..f]), pass).Err?
    ensures Collect(AllDevices(ring, families), pass) == Collect(AllDevices(ring, families[..f]), pass)
  {
    AllDevicesConcat(ring, families[..f], families[f..]);
    assert families[..f] + families[f..] == families;
    CollectErrSticks(AllDevices(ring, families[..f]), AllDevices(ring, families[f..]), pass);
  }

  lemma DevicePrefixStep(prefix: seq<Device>, devices: seq<Device>, j: nat)
    requires j < |devices|
    ensures prefix + devices[..j + 1] == (prefix + devices[..j]) + [devices[j]]
  {
  }

  /** One more device of a family: its step extends the collected entities, or its exception ends the family. */
  lemma FamilyAdvance(seen: seq<Device>, familyDevices: seq<Device>, j: nat, pass: Pass, acc: seq<Entity>,
                      step: Result<seq<Entity>, SetupError>)
    requires j < |familyDevices|
    requires Collect(seen + familyDevices[..j], pass) == Ok(acc)
    requires step == StepOf(pass, familyDevices[j])
    ensures step.Err? ==> Collect(seen + familyDevices, pass) == step
    ensures step.Ok? ==> Collect(seen + familyDevices[..j + 1], pass) == Ok(acc + step.value)
  {
    var prefix := seen + familyDevices[..j];
    DevicePrefixStep(seen, familyDevices, j);
    CollectStep(prefix, familyDevices[j], pass);
    if step.Err? {
      FamilyStops(seen, familyDevices, j, pass);
    }
  }

  lemma FamilyStops(seen: seq<Device>, familyDevices: seq<Device>, j: nat, pass: Pass)
    requires j < |familyDevices|
    requires Collect(seen + familyDevices[..j + 1], pass).Err?
    ensures Collect(seen + familyDevices, pass) == Collect(seen + familyDevices[..j + 1], pass)
  {
    var done := seen + familyDevices[..j + 1];
    CollectErrSticks(done, familyDevices[j + 1..], pass);
    assert done + familyDevices[j + 1..] == seen + familyDevices;
  }

  /** The sensors of one device: the loop over `ALL_SENSORS`. */
  method AddDeviceSensors(d: Device, attrs: map<string, Node>, catalog: seq<Descriptor>, enabled: set<string>)
    returns (entities: seq<Entity>)
    ensures entities == ObservationsOf(d, attrs, catalog, enabled)
  {
    entities := [];
    var k := 0;
    while k < |catalog|
      invariant 0 <= k <= |catalog|
      invariant entities == ObservationsOf(d, attrs, catalog[..k], enabled)
    {
      var desc := catalog[k];
      assert catalog[..k + 1][..k] == catalog[..k];
      if IsAvailable(desc, Map(attrs)) {
        entities := entities + [ObservationOf(d, desc, enabled)];
      }
      k := k + 1;
    }
    assert catalog[..k] == catalog;
  }

  /** One device's turn in a loop: merge its attributes, then create its sensors. */
  method DeviceStep(device: Device, pass: Pass) returns (r: Result<seq<Entity>, SetupError>)
    ensures r == StepOf(pass, device)
  {
    var merged := MergeDeviceAttrs(device);
    if merged.Err? {
      return Err(merged.error);
    }
    match pass
    case SensorPass(catalog, enabled, asWritten) =>
      if merged.value == map[] {
        return Ok([]);
      }
      if asWritten && HealthKeyCountAsWritten(merged.value).None? {
        return Err(HealthHasNoLen);
      }
      var sensors := AddDeviceSensors(device, merged.value, catalog, enabled);
      return Ok(sensors);
    case FirmwarePass(asWritten) =>
      if asWritten && FirmwareLookupAsWritten(merged.value).None? {
        return Err(HealthHasNoGet);
      }
      if HasFirmwareVersion(merged.value) {
        return Ok([FirmwareHistoryOf(device)]);
      }
      return Ok([]);
  }

  /** The inner loop over the devices of one family, continuing from the devices already seen. */
  method AddFamily(seen: seq<Device>, familyDevices: seq<Device>, pass: Pass, entities: seq<Entity>)
    returns (r: Result<seq<Entity>, SetupError>)
    requires Collect(seen, pass) == Ok(entities)
    ensures r == Collect(seen + familyDevices, pass)
  {
    var acc := entities;
    var j := 0;
    assert seen + familyDevices[..0] == seen;
    while j < |familyDevices|
      invariant 0 <= j <= |familyDevices|
      invariant Collect(seen + familyDevices[..j], pass) == Ok(acc)
    {
      var step := DeviceStep(familyDevices[j], pass);
      FamilyAdvance(seen, familyDevices, j, pass, acc, step);
      if step.Err? {
        return step;
      }
      acc := acc + step.value;
      j := j + 1;
    }
    assert familyDevices[..j] == familyDevices;
    return Ok(acc);
  }

  /** One loop of `async_setup_entry`: every family in order, every device of the family. */
  method RunPass(devices: map<string, seq<Device>>, families: seq<string>, pass: Pass)
    returns (r: Result<seq<Entity>, SetupError>)
    ensures r == Collect(AllDevices(devices, families), pass)
  {
    var entities: seq<Entity> := [];
    var f := 0;
    while f < |families|
      invariant 0 <= f <= |families|
      invariant Collect(AllDevices(devices, families[..f]), pass) == Ok(entities)
    {
      AllDevicesStep(devices, families, f);
      r := AddFamily(AllDevices(devices, families[..f]), DevicesOf(devices, families[f]), pass, entities);
      if r.Err? {
        FamilyErrSticks(devices, families, f + 1, pass);
        return;
      }
      entities := r.value;
      f := f + 1;
    }
    assert families[..f] == families;
    return Ok(entities);
  }

  /** `async_setup_entry` over a given catalog. */
  method SetupWith(ring: Option<map<string, seq<Device>>>, catalog: seq<Descriptor>, enabled: set<string>,
                   hasFirmwareTracker: bool, entryId: string, asWritten: bool)
    returns (r: Result<seq<Entity>, SetupError>)
    ensures r == SetupEntities(ring, catalog, enabled, hasFirmwareTracker, entryId, asWritten)
  {
    if ring.None? {
      return Ok([]);
    }
    var observations := RunPass(ring.value, SensorCatalog.DeviceFamilies, SensorPass(catalog, enabled, asWritten));
    if observations.Err? {
      return observations;
    }
    var firmware: seq<Entity> := [];
    if hasFirmwareTracker {
      var added := RunPass(ring.value, SensorCatalog.DeviceFamilies, FirmwarePass(asWritten));
      if added.Err? {
        return added;
      }
      firmware := added.value;
    }
    return Ok(observations.value + firmware + [CoordinatorHealthSensor(CoordinatorHealthId(entryId))]);
  }

  /** `async_setup_entry` as written, given the Ring devices by family (None when they are missing). */
  method SetupEntry(ring: Option<map<string, seq<Device>>>, enabled: set<string>, hasFirmwareTracker: bool, entryId: string)
    returns (r: Result<seq<Entity>, SetupError>)
    ensures r == SetupEntities(ring, SensorCatalog.AllSensors(), enabled, hasFirmwareTracker, entryId, true)
  {
    r := SetupWith(ring, SensorCatalog.AllSensors(), enabled, hasFirmwareTracker, entryId, true);
  }

  // ---------------------------------------------------------------------
  // A merged health that is not a dict
  // ---------------------------------------------------------------------

  /**
   * A merged `"health"` that is not a dict is the device's own stored
   * value, kept because nothing was merged into it; it is therefore a false
   * value: None, 0, False, "" or []. The debug count raises exactly on the
   * first three, and the firmware lookup on all five.
   */
  lemma KeptHealthIsFalse(d: Device)
    requires MergedAttrs(d).Ok?
    requires "health" in MergedAttrs(d).value && !MergedAttrs(d).value["health"].Map?
    ensures var h := MergedAttrs(d).value["health"];
      && h in {Null, Int(0), Bool(false), Str(""), List([])}
      && (HealthKeyCountAsWritten(MergedAttrs(d).value).None? <==> h in {Null, Int(0), Bool(false)})
      && LookupRaises(MergedAttrs(d).value)
  {
    var attrs := DictOf(d.attrs).value;
    assert MergedAttrs(d).value == attrs;
    assert DictOf(Get(attrs, "health", Map(map[]))).Some?;
  }

  /**
   * As written, a device among the Ring devices whose merged `"health"` is
   * None, 0 or False aborts the whole setup, and with a firmware tracker so
   * does one whose merged `"health"` is "" or []. Read as the empty dict,
   * such a device aborts nothing.
   */
  lemma NonDictHealthAbortsSetup(ring: map<string, seq<Device>>, catalog: seq<Descriptor>, enabled: set<string>,
                                 hasFirmwareTracker: bool, entryId: string, d: Device)
    requires d in AllDevices(ring, SensorCatalog.DeviceFamilies)
    requires MergedAttrs(d).Ok?
    requires "health" in MergedAttrs(d).value && !MergedAttrs(d).value["health"].Map?
    requires MergedAttrs(d).value["health"] in {Null, Int(0), Bool(false)} || hasFirmwareTracker
    ensures SetupEntities(Some(ring), catalog, enabled, hasFirmwareTracker, entryId, true).Err?
    ensures !StepRaises(d, false, false) && !StepRaises(d, true, false)
  {
    KeptHealthIsFalse(d);
    SetupShape(Some(ring), catalog, enabled, hasFirmwareTracker, entryId, true);
    assert StepRaises(d, false, true) || (hasFirmwareTracker && StepRaises(d, true, true));
  }

  /** A pass that does not raise as written gives what the corrected pass gives. */
  lemma AsWrittenPassAgrees(devices: seq<Device>, pass: Pass)
    requires pass.asWritten && Collect(devices, pass).Ok?
    ensures Collect(devices, pass.(asWritten := false)) == Collect(devices, pass)
  {
    var strict, lenient := Steps(devices, pass), Steps(devices, pass.(asWritten := false));
    GatherFails(strict);
    forall i | 0 <= i < |devices| ensures lenient[i] == strict[i] {
      assert strict[i].Ok?;
    }
    assert lenient == strict;
  }

  /**
   * The setup as written either raises or creates exactly what the
   * corrected setup creates, and it raises whenever the corrected one does.
   */
  lemma AsWrittenSetupAgrees(ring: Option<map<string, seq<Device>>>, catalog: seq<Descriptor>, enabled: set<string>,
                             hasFirmwareTracker: bool, entryId: string)
    ensures var written := SetupEntities(ring, catalog, enabled, hasFirmwareTracker, entryId, true);
      var corrected := SetupEntities(ring, catalog, enabled, hasFirmwareTracker, entryId, false);
      && (written.Ok? ==> corrected == written)
      && (corrected.Err? ==> written.Err?)
  {
    SetupShape(ring, catalog, enabled, hasFirmwareTracker, entryId, true);
    SetupShape(ring, catalog, enabled, hasFirmwareTracker, entryId, false);
    if ring.Some? && SetupEntities(ring, catalog, enabled, hasFirmwareTracker, entryId, true).Ok? {
      var devices := AllDevices(ring.value, SensorCatalog.DeviceFamilies);
      AsWrittenPassAgrees(devices, SensorPass(catalog, enabled, true));
      if hasFirmwareTracker {
        AsWrittenPassAgrees(devices, FirmwarePass(true));
      }
    }
  }

  /**
   * Counting a non-dict health as empty, the firmware test agrees with the
   * code wherever the code does not raise.
   */
  lemma FirmwareLookupAgrees(attrs: map<string, Node>)
    ensures FirmwareLookupAsWritten(attrs).Some? ==> FirmwareLookupAsWritten(attrs).value == HasFirmwareVersion(attrs)
    ensures FirmwareLookupAsWritten(attrs).None? ==> !HasFirmwareVersion(attrs)
  {
  }
}
