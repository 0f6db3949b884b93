/**
 * The sensor entities of `sensor.py` once they exist: the device family an
 * entity files its device under, the re-lookup of its device after each
 * coordinator refresh, its display name, the readings of the observation
 * sensors, the firmware-history display and the coordinator-health sensor.
 */
module SensorEntities {
  import opened Wrappers
  import opened AttrTree
  import opened SensorDescription
  import Text
  import SensorCatalog
  import opened SensorSetup
  import FirmwareHistory

  // ---------------------------------------------------------------------
  // Device family
  // ---------------------------------------------------------------------

  /**
   * `_detect_device_family`: the lower-cased class name is tested for
   * `"doorbell"`, then `"chime"`, then `"stickup"` or `"cam"`.
   */
  function DetectFamily(className: string): (family: string)
    ensures family in SensorCatalog.DeviceFamilies
  {
    var t := Text.Lower(className);
    if Text.Contains(t, "doorbell") then "doorbells"
    else if Text.Contains(t, "chime") then "chimes"
    else if Text.Contains(t, "stickup") || Text.Contains(t, "cam") then "stickup_cams"
    else "other"
  }

  /** The family depends on the letters of the class name, not on their case. */
  lemma DetectFamilyIgnoresCase(className: string)
    ensures DetectFamily(Text.Lower(className)) == DetectFamily(className)
  {
    Text.LowerIdempotent(className);
  }

  /** Each test wins over the later ones: a doorbell chime camera is a doorbell. */
  lemma DetectFamilyPrecedence(className: string)
    ensures DetectFamily(className) == "doorbells" <==> Text.Contains(Text.Lower(className), "doorbell")
    ensures DetectFamily(className) == "chimes" <==>
      !Text.Contains(Text.Lower(className), "doorbell") && Text.Contains(Text.Lower(className), "chime")
    ensures DetectFamily(className) == "other" <==>
      !Text.Contains(Text.Lower(className), "doorbell") && !Text.Contains(Text.Lower(className), "chime")
      && !Text.Contains(Text.Lower(className), "stickup") && !Text.Contains(Text.Lower(className), "cam")
  {
  }

  // ---------------------------------------------------------------------
  // Re-looking up the device
  // ---------------------------------------------------------------------

  /** `[f for f in families if f != x]` */
  function Without(families: seq<string>, x: string): (r: seq<string>)
    ensures forall f :: f in r <==> f in families && f != x
    ensures |r| <= |families|
  {
    if families == [] then []
    else (if families[0] == x then [] else [families[0]]) + Without(families[1..], x)
  }

  predicate NoRepeats(s: seq<string>)
  {
    forall i, j :: 0 <= i < j < |s| ==> s[i] != s[j]
  }

  lemma {:induction false} WithoutNoRepeats(families: seq<string>, x: string)
    requires NoRepeats(families)
    ensures NoRepeats(Without(families, x))
    ensures x in families ==> |Without(families, x)| == |families| - 1
    ensures x !in families ==> Without(families, x) == families
  {
    if families != [] {
      var rest := families[1..];
      assert NoRepeats(rest) by {
        forall i, j | 0 <= i < j < |rest| ensures rest[i] != rest[j] {
          assert rest[i] == families[i + 1] && rest[j] == families[j + 1];
        }
      }
      WithoutNoRepeats(rest, x);
      assert families[0] !in rest by {
        forall k | 0 <= k < |rest| ensures rest[k] != families[0] {
          assert rest[k] == families[k + 1];
        }
      }
      assert families == [families[0]] + rest;
    }
  }

  /** The families `_refresh_device` searches, in order: the device's own, then the others. */
  function SearchOrder(family: string): seq<string>
  {
    [family] + Without(SensorCatalog.DeviceFamilies, family)
  }

  /**
   * The search starts with the device's own family, covers every family,
   * and visits none twice; for a known family it has exactly the four
   * families.
   */
  lemma SearchOrderProperties(family: string)
    ensures SearchOrder(family)[0] == family
    ensures forall f :: f in SearchOrder(family) <==> f == family || f in SensorCatalog.DeviceFamilies
    ensures NoRepeats(SearchOrder(family))
    ensures family in SensorCatalog.DeviceFamilies ==> |SearchOrder(family)| == |SensorCatalog.DeviceFamilies|
  {
    FamiliesNoRepeats();
    WithoutNoRepeats(SensorCatalog.DeviceFamilies, family);
    OwnFirstNoRepeats(SensorCatalog.DeviceFamilies, family);
  }

  lemma FamiliesNoRepeats()
    ensures NoRepeats(SensorCatalog.DeviceFamilies)
  {
  }

  /** Putting `family` in front of the others repeats nothing. */
  lemma OwnFirstNoRepeats(families: seq<string>, family: string)
    requires NoRepeats(Without(families, family))
    ensures NoRepeats([family] + Without(families, family))
  {
    var order := [family] + Without(families, family);
    var rest := Without(families, family);
    forall i, j | 0 <= i < j < |order| ensures order[i] != order[j] {
      if i == 0 {
        assert order[j] == rest[j - 1] && rest[j - 1] in rest;
      } else {
        assert order[i] == rest[i - 1] && order[j] == rest[j - 1];
      }
    }
  }

  /** The first device of `devices` whose lookup id is `id`. */
  function FirstMatch(devices: seq<Device>, id: string): Option<Device>
  {
    if devices == [] then None
    else if LookupDeviceId(devices[0]) == id then Some(devices[0])
    else FirstMatch(devices[1..], id)
  }

  /** No match means no device has the id; a match is the earliest device that has it. */
  lemma {:induction false} FirstMatchExact(devices: seq<Device>, id: string)
    ensures FirstMatch(devices, id).None? <==> forall d :: d in devices ==> LookupDeviceId(d) != id
    ensures FirstMatch(devices, id).Some? ==>
      exists i :: 0 <= i < |devices| && devices[i] == FirstMatch(devices, id).value && LookupDeviceId(devices[i]) == id
        && forall j :: 0 <= j < i ==> LookupDeviceId(devices[j]) != id
  {
    if devices != [] && LookupDeviceId(devices[0]) != id {
      var rest := devices[1..];
      FirstMatchExact(rest, id);
      assert devices == [devices[0]] + rest;
      if FirstMatch(rest, id).Some? {
        var i :| 0 <= i < |rest| && rest[i] == FirstMatch(rest, id).value && LookupDeviceId(rest[i]) == id
          && forall j :: 0 <= j < i ==> LookupDeviceId(rest[j]) != id;
        assert devices[i + 1] == rest[i];
        forall j | 0 <= j < i + 1 ensures LookupDeviceId(devices[j]) != id {
          if j > 0 {
            assert devices[j] == rest[j - 1];
          }
        }
      }
    } else if devices != [] {
      assert devices[0] in devices;
    }
  }

  lemma {:induction false} FirstMatchConcat(a: seq<Device>, b: seq<Device>, id: string)
    ensures FirstMatch(a + b, id) == if FirstMatch(a, id).Some? then FirstMatch(a, id) else FirstMatch(b, id)
  {
    if a != [] {
      FirstMatchConcat(a[1..], b, id);
      assert (a + b)[1..] == a[1..] + b;
    } else {
      assert a + b == b;
    }
  }

  lemma {:induction false} FirstMatchAt(devices: seq<Device>, id: string, j: nat)
    requires j < |devices| && LookupDeviceId(devices[j]) == id
    requires forall k :: 0 <= k < j ==> LookupDeviceId(devices[k]) != id
    ensures FirstMatch(devices, id) == Some(devices[j])
  {
    if j > 0 {
      FirstMatchAt(devices[1..], id, j - 1);
    }
  }

  /** The device `_refresh_device` picks: the first id match along the search order. */
  function RefreshTarget(ring: map<string, seq<Device>>, family: string, id: string): Option<Device>
  {
    FirstMatch(AllDevices(ring, SearchOrder(family)), id)
  }

  lemma {:induction false} AllDevicesMembers(ring: map<string, seq<Device>>, families: seq<string>, d: Device)
    ensures d in AllDevices(ring, families) <==> exists f :: f in families && d in DevicesOf(ring, f)
  {
    if families != [] {
      var init, last := families[..|families| - 1], families[|families| - 1];
      AllDevicesMembers(ring, init, d);
      assert families == init + [last];
      if exists f :: f in families && d in DevicesOf(ring, f) {
        var f :| f in families && d in DevicesOf(ring, f);
        if f != last {
          assert f in init;
        }
      }
    }
  }

  /**
   * A device that is still listed under any family, and whose id the
   * lookup can see, is found again: the refresh returns a device with that id.
   */
  lemma RefreshFindsListedDevice(ring: map<string, seq<Device>>, family: string, d: Device)
    requires exists f :: f in SensorCatalog.DeviceFamilies && d in DevicesOf(ring, f)
    ensures RefreshTarget(ring, family, LookupDeviceId(d)).Some?
    ensures LookupDeviceId(RefreshTarget(ring, family, LookupDeviceId(d)).value) == LookupDeviceId(d)
  {
    var order := SearchOrder(family);
    SearchOrderProperties(family);
    var f :| f in SensorCatalog.DeviceFamilies && d in DevicesOf(ring, f);
    assert f in order;
    AllDevicesMembers(ring, order, d);
    var all := AllDevices(ring, order);
    FirstMatchExact(all, LookupDeviceId(d));
  }

  /** The inner loop of `_refresh_device` over the devices of one family. */
  method FindDevice(devices: seq<Device>, id: string) returns (r: Option<Device>)
    ensures r == FirstMatch(devices, id)
  {
    var j := 0;
    while j < |devices|
      invariant 0 <= j <= |devices|
      invariant forall k :: 0 <= k < j ==> LookupDeviceId(devices[k]) != id
    {
      if LookupDeviceId(devices[j]) == id {
        FirstMatchAt(devices, id, j);
        return Some(devices[j]);
      }
      j := j + 1;
    }
    FirstMatchExact(devices, id);
    return None;
  }

  /** The outer loop of `_refresh_device`: family by family, stopping at the first match. */
  method SearchFamilies(devices: map<string, seq<Device>>, order: seq<string>, id: string) returns (r: Option<Device>)
    ensures r == FirstMatch(AllDevices(devices, order), id)
  {
    var f := 0;
    while f < |order|
      invariant 0 <= f <= |order|
      invariant FirstMatch(AllDevices(devices, order[..f]), id).None?
    {
      var seen := AllDevices(devices, order[..f]);
      var familyDevices := DevicesOf(devices, order[f]);
      AllDevicesStep(devices, order, f);
      FirstMatchConcat(seen, familyDevices, id);
      r := FindDevice(familyDevices, id);
      if r.Some? {
        AllDevicesConcat(devices, order[..f + 1], order[f + 1..]);
        assert order[..f + 1] + order[f + 1..] == order;
        FirstMatchConcat(seen + familyDevices, AllDevices(devices, order[f + 1..]), id);
        return;
      }
      f := f + 1;
    }
    assert order[..f] == order;
    return None;
  }

  /**
   * What a Ring sensor keeps about its device: the device record, which
   * `_refresh_device` replaces, and the id, family and config-entry link it
   * fixed when it was created.
   */
  class DeviceEntity {
    var device: Device
    const deviceId: string
    const family: string
    const hasRingEntry: bool

    constructor (d: Device, hasRingEntry: bool)
      ensures device == d && deviceId == EntityDeviceId(d) && family == DetectFamily(d.className)
      ensures this.hasRingEntry == hasRingEntry
    {
      device := d;
      deviceId := EntityDeviceId(d);
      family := DetectFamily(d.className);
      this.hasRingEntry := hasRingEntry;
    }

    /**
     * `_refresh_device`, given the Ring devices by family (None when the
     * config entry has no runtime data): the first device with the entity's
     * id along the search order replaces the device; otherwise nothing changes.
     */
    method RefreshDevice(ring: Option<map<string, seq<Device>>>)
      modifies this
      ensures device == (
        if !hasRingEntry || ring.None? then old(device)
        else match RefreshTarget(ring.value, family, deviceId)
          case Some(d) => d
          case None => old(device))
    {
      if !hasRingEntry || ring.None? {
        return;
      }
      var found := SearchFamilies(ring.value, SearchOrder(family), deviceId);
      if found.Some? {
        device := found.value;
      }
    }
  }

  // ---------------------------------------------------------------------
  // Names
  // ---------------------------------------------------------------------

  /** `CATEGORY_PREFIXES` */
  const CategoryPrefixes: map<string, string> := map[
    "health" := "Health",
    "power" := "Power",
    "firmware" := "Firmware",
    "video" := "Video",
    "audio" := "Audio",
    "motion" := "Motion",
    "cv_detection" := "CV",
    "cv_paid" := "Paid CV",
    "other_paid" := "Paid",
    "notifications" := "Notify",
    "recording" := "Recording",
    "floodlight" := "Light",
    "radar" := "Radar",
    "local_processing" := "Local",
    "features" := "Feature",
    "device_status" := "Status"
  ]

  /** `CATEGORY_PREFIXES.get(category, category.title())` */
  function CategoryPrefix(category: string): string
  {
    if category in CategoryPrefixes then CategoryPrefixes[category] else Text.Title(category)
  }

  /** Every category of the catalog has a short prefix of its own. */
  lemma CategoriesHavePrefixes()
    ensures forall c :: c in SensorCatalog.SensorCategories ==> c in CategoryPrefixes
  {
  }

  /** `key.replace("_", " ").title()` */
  function BaseName(key: string): string
  {
    Text.Title(Text.ReplaceChar(key, '_', ' '))
  }

  /** `name`: `"{prefix}: {base name}"` */
  function SensorName(desc: Descriptor): string
  {
    CategoryPrefix(desc.category) + ": " + BaseName(desc.key)
  }

  /** A key in lower case without spaces, as every catalog key is written. */
  predicate PlainKey(key: string)
  {
    forall i :: 0 <= i < |key| ==> !Text.IsUpper(key[i]) && key[i] != ' '
  }

  /** The base name of a plain key gives the key back: lower-case it and turn spaces into underscores. */
  lemma BaseNameRecoversKey(key: string)
    requires PlainKey(key)
    ensures Text.ReplaceChar(Text.Lower(BaseName(key)), ' ', '_') == key
  {
    var spaced := Text.ReplaceChar(key, '_', ' ');
    ReplacedStaysLower(key);
    Text.LowerTitleFrom(spaced, false);
    Text.ReplaceCharBack(key, '_', ' ');
  }

  lemma {:induction false} ReplacedStaysLower(key: string)
    requires PlainKey(key)
    ensures forall i :: 0 <= i < |key| ==> !Text.IsUpper(Text.ReplaceChar(key, '_', ' ')[i])
    ensures ' ' !in key
  {
    if key != [] {
      ReplacedStaysLower(key[1..]);
      var r := Text.ReplaceChar(key, '_', ' ');
      forall i | 0 <= i < |key| ensures !Text.IsUpper(r[i]) {
        if i > 0 {
          assert r[i] == Text.ReplaceChar(key[1..], '_', ' ')[i - 1];
        }
      }
      assert key == [key[0]] + key[1..];
    }
  }

  /** Two sensors of one category with different plain keys never share a name. */
  lemma SensorNamesDistinct(a: Descriptor, b: Descriptor)
    requires a.category == b.category && a.key != b.key
    requires PlainKey(a.key) && PlainKey(b.key)
    ensures SensorName(a) != SensorName(b)
  {
    if SensorName(a) == SensorName(b) {
      var p := CategoryPrefix(a.category) + ": ";
      assert SensorName(a) == p + BaseName(a.key) && SensorName(b) == p + BaseName(b.key);
      assert BaseName(a.key) == SensorName(a)[|p|..];
      assert BaseName(b.key) == SensorName(b)[|p|..];
      BaseNameRecoversKey(a.key);
      BaseNameRecoversKey(b.key);
      assert false;
    }
  }

  // ---------------------------------------------------------------------
  // Observation sensors
  // ---------------------------------------------------------------------

  /**
   * `native_value`: the descriptor's reading of the merged attributes; a
   * merge that raises gives no value.
   */
  function ObservationValue(desc: Descriptor, d: Device): Reading
  {
    match MergedAttrs(d)
    case Err(_) => NoValue
    case Ok(attrs) => GetValue(desc, Map(attrs))
  }

  /** `available`: the descriptor's test on the merged attributes; a merge that raises gives false. */
  predicate ObservationAvailable(desc: Descriptor, d: Device)
  {
    match MergedAttrs(d)
    case Err(_) => false
    case Ok(attrs) => IsAvailable(desc, Map(attrs))
  }

  /** A sensor without a value function is available exactly when it reads a stored value. */
  lemma AvailableIffReading(desc: Descriptor, d: Device)
    requires desc.valueFn.None?
    ensures ObservationAvailable(desc, d) <==> ObservationValue(desc, d).Raw? && !ObservationValue(desc, d).node.Null?
  {
  }

  /**
   * Every sensor setup creates for a device is an observation of that device
   * with id `"{device_id}_{key}"`, and it is available on the attributes it
   * was created from.
   */
  lemma CreatedSensorsAvailable(d: Device, catalog: seq<Descriptor>, enabled: set<string>, asWritten: bool, e: Entity)
    requires DeviceSensors(d, catalog, enabled, asWritten).Ok? && e in DeviceSensors(d, catalog, enabled, asWritten).value
    ensures e.Observation? && e.description in catalog && ObservationAvailable(e.description, d)
    ensures e.uniqueId == EntityDeviceId(d) + "_" + e.description.key
  {
    ObservationsExact(d, MergedAttrs(d).value, catalog, enabled, e);
  }

  // ---------------------------------------------------------------------
  // Firmware-history sensor
  // ---------------------------------------------------------------------

  /**
   * `native_value` of the firmware-history sensor: the current version (or
   * `"Unknown"`), followed by the number of updates once there are two
   * entries or more.
   */
  function FirmwareNativeValue(st: FirmwareHistory.TrackerState, id: string): string
  {
    var n := |FirmwareHistory.HistoryOf(st, id)|;
    var current := if id in st.currentVersions then st.currentVersions[id] else "Unknown";
    if n <= 1 then current else current + " (" + Text.NatToString(n - 1) + " updates)"
  }

  /** `"{date}: {transition}"` */
  function HistoryLine(c: FirmwareHistory.Change, dateLabel: int -> string): string
  {
    dateLabel(c.timestamp) + ": " + FirmwareHistory.Transition(c)
  }

  /** The lines of a device's history, most recent first. */
  function NewestFirst(h: seq<FirmwareHistory.Change>, dateLabel: int -> string): seq<string>
  {
    seq(|h|, i requires 0 <= i < |h| => HistoryLine(h[|h| - 1 - i], dateLabel))
  }

  /** `extra_state_attributes` of the firmware-history sensor. */
  datatype FirmwareAttributes =
    | NoHistory  // `{"current_version": "Unknown", "history": [], "total_changes": 0}`
    | History(currentVersion: string, firstSeen: string, totalUpdates: nat, lines: seq<string>)

  /** The loop over `reversed(history)`. */
  method FormatHistory(h: seq<FirmwareHistory.Change>, dateLabel: int -> string) returns (lines: seq<string>)
    ensures lines == NewestFirst(h, dateLabel)
  {
    lines := [];
    var i := |h|;
    while i > 0
      invariant 0 <= i <= |h|
      invariant |lines| == |h| - i
      invariant forall k :: 0 <= k < |lines| ==> lines[k] == HistoryLine(h[|h| - 1 - k], dateLabel)
    {
      i := i - 1;
      lines := lines + [HistoryLine(h[i], dateLabel)];
    }
  }

  /**
   * `extra_state_attributes`, given how a timestamp is shown as a date and
   * time (`dateLabel`) and as a day (`dayLabel`).
   */
  method FirmwareStateAttributes(st: FirmwareHistory.TrackerState, id: string, dateLabel: int -> string, dayLabel: int -> string)
    returns (a: FirmwareAttributes)
    ensures var h := FirmwareHistory.HistoryOf(st, id);
      && (h == [] ==> a == NoHistory)
      && (h != [] ==> a == History(h[|h| - 1].version, dayLabel(h[0].timestamp), |h| - 1, NewestFirst(h, dateLabel)))
  {
    var h := FirmwareHistory.HistoryOf(st, id);
    if h == [] {
      return NoHistory;
    }
    var lines := FormatHistory(h, dateLabel);
    var total := if |h| - 1 > 0 then |h| - 1 else 0;
    a := History(h[|h| - 1].version, dayLabel(h[0].timestamp), total, lines);
  }

  /**
   * On a consistent tracker the oldest history line shows the initial
   * version, and every other line the transition from the version before.
   */
  lemma HistoryLinesChain(st: FirmwareHistory.TrackerState, id: string, dateLabel: int -> string)
    requires FirmwareHistory.Consistent(st)
    requires id in st.history
    ensures var h := st.history[id];
      var lines := NewestFirst(h, dateLabel);
      && lines[|h| - 1] == dateLabel(h[0].timestamp) + ": " + h[0].version + " (initial)"
      && forall i :: 0 <= i < |h| - 1 ==>
           lines[i] == dateLabel(h[|h| - 1 - i].timestamp) + ": " + h[|h| - 2 - i].version + " -> " + h[|h| - 1 - i].version
  {
    ChainedLines(st.history[id], st.currentVersions[id], dateLabel);
  }

  /** `HistoryLinesChain` for one chained history. */
  lemma ChainedLines(h: seq<FirmwareHistory.Change>, current: string, dateLabel: int -> string)
    requires FirmwareHistory.ChainedHistory(h, current)
    ensures var lines := NewestFirst(h, dateLabel);
      && lines[|h| - 1] == dateLabel(h[0].timestamp) + ": " + h[0].version + " (initial)"
      && forall i :: 0 <= i < |h| - 1 ==>
           lines[i] == dateLabel(h[|h| - 1 - i].timestamp) + ": " + h[|h| - 2 - i].version + " -> " + h[|h| - 1 - i].version
  {
    var lines := NewestFirst(h, dateLabel);
    assert lines[|h| - 1] == HistoryLine(h[0], dateLabel);
    InitialLine(h[0], dateLabel);
    forall i | 0 <= i < |h| - 1
      ensures lines[i] == dateLabel(h[|h| - 1 - i].timestamp) + ": " + h[|h| - 2 - i].version + " -> " + h[|h| - 1 - i].version
    {
      ChainedLineAt(h, current, dateLabel, i);
    }
  }

  /** The `i`-th line, newest first, of a chained history names the version before its entry's. */
  lemma ChainedLineAt(h: seq<FirmwareHistory.Change>, current: string, dateLabel: int -> string, i: nat)
    requires FirmwareHistory.ChainedHistory(h, current)
    requires i < |h| - 1
    ensures NewestFirst(h, dateLabel)[i] ==
      dateLabel(h[|h| - 1 - i].timestamp) + ": " + h[|h| - 2 - i].version + " -> " + h[|h| - 1 - i].version
  {
    var k := |h| - 1 - i;
    assert NewestFirst(h, dateLabel)[i] == HistoryLine(h[k], dateLabel);
    assert h[k].previousVersion == Some(h[k - 1].version);
    assert !FirmwareHistory.IsPlaceholder(Some(h[k - 1].version));
    ContinuedLine(h[k], h[k - 1].version, dateLabel);
  }

  /** The line of an entry with no previous version. */
  lemma InitialLine(c: FirmwareHistory.Change, dateLabel: int -> string)
    requires c.previousVersion == None
    ensures HistoryLine(c, dateLabel) == dateLabel(c.timestamp) + ": " + c.version + " (initial)"
  {
    assert FirmwareHistory.Transition(c) == c.version + " (initial)";
  }

  /** The line of an entry that continues from `previous`. */
  lemma ContinuedLine(c: FirmwareHistory.Change, previous: string, dateLabel: int -> string)
    requires c.previousVersion == Some(previous) && previous != ""
    ensures HistoryLine(c, dateLabel) == dateLabel(c.timestamp) + ": " + previous + " -> " + c.version
  {
    assert FirmwareHistory.Transition(c) == previous + " -> " + c.version;
  }

  /**
   * On a consistent tracker the state and the attributes agree: both show
   * the current version, and the state adds the update count exactly when
   * there are two entries or more.
   */
  lemma FirmwareDisplayAgrees(st: FirmwareHistory.TrackerState, id: string)
    requires FirmwareHistory.Consistent(st)
    requires id in st.history
    ensures var h := st.history[id];
      && h[|h| - 1].version == st.currentVersions[id]
      && (|h| <= 1 <==> FirmwareNativeValue(st, id) == st.currentVersions[id])
  {
    var h := st.history[id];
    assert FirmwareHistory.ChainedHistory(h, st.currentVersions[id]);
    if |h| > 1 {
      var v := FirmwareNativeValue(st, id);
      assert |v| > |st.currentVersions[id]|;
    }
  }

  /** The update count in the state text reads back as one less than the number of entries. */
  lemma FirmwareCountReadsBack(st: FirmwareHistory.TrackerState, id: string)
    requires |FirmwareHistory.HistoryOf(st, id)| >= 2
    ensures var v := FirmwareNativeValue(st, id);
      var current := if id in st.currentVersions then st.currentVersions[id] else "Unknown";
      var digits := v[|current| + 2 .. |v| - |" updates)"|];
      && v[..|current|] == current
      && (forall i :: 0 <= i < |digits| ==> Text.IsDigit(digits[i]))
      && Text.ParseNat(digits) == |FirmwareHistory.HistoryOf(st, id)| - 1
  {
    var n := |FirmwareHistory.HistoryOf(st, id)|;
    var current := if id in st.currentVersions then st.currentVersions[id] else "Unknown";
    var count := Text.NatToString(n - 1);
    var v := FirmwareNativeValue(st, id);
    assert v == current + " (" + count + " updates)";
    assert v[|current| + 2 .. |v| - |" updates)"|] == count;
    Text.NatToStringRoundTrip(n - 1);
  }

  // ---------------------------------------------------------------------
  // Coordinator-health sensor
  // ---------------------------------------------------------------------

  datatype HealthStatus = Failed | Unknown | Healthy | Stale | Critical

  function StatusLabel(s: HealthStatus): string
  {
    match s
    case Failed => "Failed"
    case Unknown => "Unknown"
    case Healthy => "Healthy"
    case Stale => "Stale"
    case Critical => "Critical"
  }

  /** `HEALTHY_THRESHOLD` and `STALE_THRESHOLD`, in minutes. */
  const HealthyThreshold := 10
  const StaleThreshold := 30

  /** `_minutes_since_update`, from clock readings in seconds. */
  function MinutesSince(last: int, now: int): real
  {
    (now - last) as real / 60.0
  }

  /** `native_value` of the coordinator-health sensor. */
  function StatusAt(lastUpdateSuccess: bool, lastUpdate: Option<int>, now: int): HealthStatus
  {
    if !lastUpdateSuccess then Failed
    else if lastUpdate.None? then Unknown
    else
      var minutes := MinutesSince(lastUpdate.value, now);
      if minutes <= HealthyThreshold as real then Healthy
      else if minutes <= StaleThreshold as real then Stale
      else Critical
  }

  /** Severity, for comparing statuses. */
  function Rank(s: HealthStatus): nat
  {
    match s
    case Unknown => 0
    case Healthy => 1
    case Stale => 2
    case Critical => 3
    case Failed => 4
  }

  /** The thresholds in whole seconds: healthy up to 600, stale up to 1800, critical beyond. */
  lemma StatusBySeconds(last: int, now: int)
    ensures StatusAt(true, Some(last), now) == Healthy <==> now - last <= 600
    ensures StatusAt(true, Some(last), now) == Stale <==> 600 < now - last <= 1800
    ensures StatusAt(true, Some(last), now) == Critical <==> now - last > 1800
  {
    var m := MinutesSince(last, now);
    assert m * 60.0 == (now - last) as real;
  }

  /** Without a new update, the status only gets worse as time passes. */
  lemma StatusWorsensOverTime(lastUpdateSuccess: bool, lastUpdate: Option<int>, now1: int, now2: int)
    requires now1 <= now2
    ensures Rank(StatusAt(lastUpdateSuccess, lastUpdate, now1)) <= Rank(StatusAt(lastUpdateSuccess, lastUpdate, now2))
  {
    if lastUpdateSuccess && lastUpdate.Some? {
      StatusBySeconds(lastUpdate.value, now1);
      StatusBySeconds(lastUpdate.value, now2);
    }
  }

  /** `RingCoordinatorHealthSensor`: its unique id, update counter and last update time. */
  class CoordinatorHealth {
    const uniqueId: string
    var updateCount: nat
    var lastUpdateTime: Option<int>

    /** Created at clock reading `now`. */
    constructor (entryId: string, now: int)
      ensures uniqueId == CoordinatorHealthId(entryId)
      ensures updateCount == 0 && lastUpdateTime == Some(now)
    {
      uniqueId := CoordinatorHealthId(entryId);
      updateCount := 0;
      lastUpdateTime := Some(now);
    }

    /** The status at clock reading `now`; never `"Unknown"`, since the sensor always has an update time. */
    function Status(lastUpdateSuccess: bool, now: int): (s: HealthStatus)
      reads this
      ensures lastUpdateTime.Some? ==> s != Unknown
      ensures s == Failed <==> !lastUpdateSuccess
    {
      StatusAt(lastUpdateSuccess, lastUpdateTime, now)
    }

    /** `_handle_coordinator_update` at clock reading `now`. */
    method HandleCoordinatorUpdate(now: int)
      modifies this
      ensures updateCount == old(updateCount) + 1
      ensures lastUpdateTime == Some(now)
      ensures Status(true, now) == Healthy
    {
      lastUpdateTime := Some(now);
      updateCount := updateCount + 1;
    }
  }
}
