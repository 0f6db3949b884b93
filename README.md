# Ring Extended: a Dafny model of its sensor logic

Ring Extended is a Home Assistant add-on. It exposes every attribute of a Ring
device (doorbell, stick-up camera, chime, ...) as a diagnostic sensor. This
project models its deterministic core and proves what that core promises:

- **Attribute lookup and the sensor catalog** (`const.py`):
  - `get_nested` walks a dotted path through an untyped attribute tree.
  - A sensor description reads a value at its path and is available when that value is not None.
  - `_format_uptime` renders a second count as days, hours and minutes.
  - The 161-entry catalog `ALL_SENSORS` includes 33 generated computer-vision descriptors.
- **Sensor setup** (`sensor.py`):
  - The attribute merge overlays the health-endpoint data and the `alert_*` keys onto `attrs["health"]`.
  - The loops of `async_setup_entry` decide which entities (and so which unique ids) exist.
  - Smaller entity pieces are modelled too:
    - family detection and the re-lookup of a device after a coordinator refresh;
    - sensor display names;
    - the firmware-history sensor's state and attributes;
    - the coordinator-health sensor.
- **The firmware history tracker** (`firmware_history.py`):
  - It is a class whose two dictionaries are changed in place by `check_and_update`.
  - It reports recent changes, a changelog text and a per-version summary.
- **Coverage analysis** (`diagnostics.py` and `scripts/analyze_ring_attributes.py`):
  - enumeration of leaf attribute paths;
  - the catalog's available/unavailable partition;
  - covered, uncovered and stale paths;
  - per-device entity counts;
  - same-model inconsistency reports;
  - the shapes a diagnostics file may take.

## Modules

| file | module | what it holds |
|---|---|---|
| `wrappers.dfy` | `Wrappers` | `Option` and `Result` |
| `text.dfy` | `Text` | `str.split`/`join`, integer rendering and parsing, `lower`/`title`/`replace`, string order, `sorted` of a set of strings |
| `attr_tree.dfy` | `AttrTree` | the attribute tree `Node` (`Map`, `Str`, `Int`, `Bool`, `List`, `Null` for None); `get_nested`; leaf-path enumeration shared by the two path walkers |
| `descriptor.dfy` | `SensorDescription` | a sensor description; `get_value`/`is_available`; the five value functions; `_format_uptime` |
| `catalog.dfy` | `SensorCatalog` | the catalog as literal data; the computer-vision generator; the well-formedness of the whole catalog |
| `catalog_facts.dfy` | `CatalogFacts` | consequences of the catalog's well-formedness |
| `sensor_setup.dfy` | `SensorSetup` | device records; the attribute merge; the setup loops |
| `sensor_entities.dfy` | `SensorEntities` | the entity classes' logic: family, refresh, name, firmware display, coordinator health |
| `firmware_history.dfy` | `FirmwareHistory` | the tracker state, its transition function and reports, and the `FirmwareHistoryTracker` class |
| `diagnostics.dfy` | `Diagnostics` | attribute paths, sensor coverage, entity counts, inconsistency detection |
| `analyzer.dfy` | `Analyzer` | the analysis script's path extraction, input dispatch and set computations |

### Modelling choices

- **Devices.** A Ring device is a plain record: its `device_id` (or `""`), its `id`, its class name, its display name, its `_attrs` and its `_health_attrs`. The Ring integration's device lists are passed in as a map from family name to device list, or `None` when the integration's data is missing.
- **Python exceptions.** An exception a setup step raises is a `SetupError`: one of the four the merge can raise, or one of the two raised by using a merged `health` that is not a dict (`len` in the debug log, `.get` in the firmware loop). `async_setup_entry` lets it escape, and so does the model: setup then adds nothing.
- **Two readings of a non-dict health.** Setup takes a flag `asWritten`. With it, the setup raises where the code does; without it, a merged `health` that is not a dict counts as the empty dict, which is the corrected setup of the first finding below. `SetupEntry`, which stands for `async_setup_entry`, is the setup as written.
- **Clock and dates.** The clock is a parameter: each `check_and_update` call and each coordinator update happens at an integer instant `now` (seconds). How a timestamp is shown as a date is a parameter as well (`dateLabel`, `dayLabel`).
- **Dictionary order.** The tracker keeps Python's dictionary insertion order as the sequence `deviceOrder`. Both of its dictionaries gain a key at the same moment.

## Model

| member | source | states |
|---|---|---|
| AttrTree.GetNested | custom_components/ring_extended/const.py:66-78 | the segment loop returns `NestedValue`; None data gives the default; a None result is only ever the default |
| AttrTree.Resolve | custom_components/ring_extended/const.py:70-78 | a successful walk never ends on None |
| AttrTree.ResolveIsValueAt | custom_components/ring_extended/const.py:71-77 | the walk gives the stored value, except that a stored None counts as missing |
| AttrTree.StoredValueReturned | custom_components/ring_extended/const.py:72-78 | any stored non-None value, including falsy 0, False and "", is returned unchanged |
| AttrTree.MissingOrNullGivesDefault | custom_components/ring_extended/const.py:68-77 | a missing key, or None anywhere on the path, gives the default |
| AttrTree.NonDictStopsLookup | custom_components/ring_extended/const.py:71-75 | reaching a non-dict while segments remain gives the default |
| AttrTree.ResolveConcat | custom_components/ring_extended/const.py:70-78 | resolving `a + b` is resolving `a`, then `b` from there |
| AttrTree.NestedValueComposes | custom_components/ring_extended/const.py:70-78 | `get_nested(d, p + "." + q) == get_nested(get_nested(d, p), q)` with default None |
| AttrTree.LeafKeyPathsExact | custom_components/ring_extended/diagnostics.py:35-44 | the recursive enumeration lists exactly the key paths that end at a leaf, skipping excluded keys |
| AttrTree.LeafKeyPathsNonEmpty | custom_components/ring_extended/diagnostics.py:38-43 | every listed key path has at least one key |
| AttrTree.LeafPathsAreJoinedKeyPaths | custom_components/ring_extended/diagnostics.py:35-44 | unless the prefix is empty and the top-level key `""` holds a dict, the prefix-accumulating recursion yields exactly the dotted joins of the leaf key paths, a `""` key anywhere else included |
| AttrTree.ChildPathsJoined | custom_components/ring_extended/diagnostics.py:39-41 | every path found under a child is the child's key followed by one of the child's key paths, unless the child is a dict stored under `""` at an empty prefix |
| AttrTree.ChildKeyPathsJoined | custom_components/ring_extended/diagnostics.py:39-41 | conversely, each of the child's key paths appears under the joined prefix, with the same exception |
| AttrTree.JoinKeyAssociates | custom_components/ring_extended/diagnostics.py:39 | joining the prefix with a key, then with the rest, equals joining the prefix with the whole key path, unless both the prefix and the key are empty |
| SensorDescription.AvailableIffStored | custom_components/ring_extended/const.py:95-97 | a description is available exactly when a non-None value is stored at its path |
| SensorDescription.GetValue | custom_components/ring_extended/const.py:119-129 | without a value function the reading is the raw value, None exactly when unavailable; a value function reading its own path gives no value when unavailable |
| SensorDescription.UptimeParts | custom_components/ring_extended/const.py:87-89 | hours are in 0..23, minutes in 0..59, and the parts fall within the minute of the second count |
| SensorDescription.UptimeArithmetic | custom_components/ring_extended/const.py:87-89 | the floor-division formulas of the source satisfy those bounds |
| SensorDescription.UptimePartsUnique | custom_components/ring_extended/const.py:87-90 | those bounds determine the days, hours and minutes uniquely |
| SensorDescription.FormatUptimeReadsBack | custom_components/ring_extended/const.py:90 | `"{d}d {h}h {m}m"` splits into three fields whose numbers read back as the days, hours and minutes |
| SensorCatalog.CvDescriptorsOf | custom_components/ring_extended/const.py:578-609 | three descriptors per detection type |
| SensorCatalog.CvDescriptorsAt | custom_components/ring_extended/const.py:584-608 | descriptor `i` is the one for type `i / 3` and setting `i % 3`, in type order |
| SensorCatalog.GenerateCvDescriptors | custom_components/ring_extended/const.py:578-609 | the append loop builds exactly the generated list |
| SensorCatalog.CreateCvDetectionSensors | custom_components/ring_extended/const.py:549-612 | 33 descriptors with keys `cv_{t}_{s}`, paths `settings.cv_settings.detection_types.{t}.{s}`, category `cv_detection` and no value function |
| SensorCatalog.CvGeneratedFacts | custom_components/ring_extended/const.py:612 | the generated block is a well-formed `cv_detection` category at its place in the catalog |
| SensorCatalog.CvKeyPositionOf | custom_components/ring_extended/const.py:578-612 | each generated key has a distinct catalog position fixed by its type and setting |
| SensorCatalog.HealthSensorsFacts | custom_components/ring_extended/const.py:133-251 | 16 health descriptors, all of category `health` |
| SensorCatalog.PowerSensorsFacts | custom_components/ring_extended/const.py:254-343 | the power descriptors are a well-formed `power` category |
| SensorCatalog.FirmwareSensorsFacts | custom_components/ring_extended/const.py:346-374 | the firmware descriptors are a well-formed `firmware` category |
| SensorCatalog.VideoSensorsFacts | custom_components/ring_extended/const.py:377-456 | the video descriptors are a well-formed `video` category |
| SensorCatalog.AudioSensorsFacts | custom_components/ring_extended/const.py:459-492 | the audio descriptors are a well-formed `audio` category |
| SensorCatalog.MotionSensorsFacts | custom_components/ring_extended/const.py:495-546 | the motion descriptors are a well-formed `motion` category |
| SensorCatalog.CvThresholdSensorsFacts | custom_components/ring_extended/const.py:615-636 | the threshold descriptors extend the `cv_detection` category |
| SensorCatalog.CvPaidSensorsFacts | custom_components/ring_extended/const.py:639-724 | the paid computer-vision descriptors are a well-formed `cv_paid` category |
| SensorCatalog.OtherPaidSensorsFacts | custom_components/ring_extended/const.py:727-788 | the other paid descriptors are a well-formed `other_paid` category |
| SensorCatalog.NotificationSensorsFacts | custom_components/ring_extended/const.py:791-822 | the notification descriptors are a well-formed `notifications` category |
| SensorCatalog.RecordingSensorsFacts | custom_components/ring_extended/const.py:825-872 | the recording descriptors are a well-formed `recording` category |
| SensorCatalog.FloodlightSensorsFacts | custom_components/ring_extended/const.py:875-908 | the floodlight descriptors are a well-formed `floodlight` category |
| SensorCatalog.RadarSensorsFacts | custom_components/ring_extended/const.py:911-937 | the radar descriptors are a well-formed `radar` category |
| SensorCatalog.LocalProcessingSensorsFacts | custom_components/ring_extended/const.py:940-965 | the local-processing descriptors are a well-formed `local_processing` category |
| SensorCatalog.FeatureSensorsFacts | custom_components/ring_extended/const.py:968-1023 | the feature descriptors are a well-formed `features` category |
| SensorCatalog.DeviceStatusSensorsFacts | custom_components/ring_extended/const.py:1026-1075 | the device-status descriptors are a well-formed `device_status` category |
| SensorCatalog.CatalogWellFormed | custom_components/ring_extended/const.py:1078-1095 | `CATEGORY_SENSORS` lists the categories of `SENSOR_CATEGORIES` in order; each entry files only its own category, with keys at distinct catalog positions |
| SensorCatalog.FlattenWellFormed | custom_components/ring_extended/const.py:1098-1100 | flattening a well-formed category list keeps every key's position |
| SensorCatalog.AllSensorsWellFormed | custom_components/ring_extended/const.py:1098-1100 | `ALL_SENSORS` has 161 entries with pairwise distinct keys and non-empty paths, and every value function reads its own descriptor's path |
| CatalogFacts.CategoriesConsistent | custom_components/ring_extended/const.py:1078-1095 | every descriptor under category `c` of `CATEGORY_SENSORS` has category `c` |
| CatalogFacts.AllSensorsStartWithHealth | custom_components/ring_extended/const.py:1098-1100 | `ALL_SENSORS` is the health tuple followed by the rest in category order |
| CatalogFacts.UptimeDescriptors | custom_components/ring_extended/const.py:221-236 | the two uptime descriptors read the same path, one raw and one formatted |
| CatalogFacts.SharedAttributePath | custom_components/ring_extended/const.py:221-236 | two distinct catalog keys share the path `health.uptime_sec` |
| Text.Split | custom_components/ring_extended/const.py:70 | at least one part, and no part holds the separator |
| Text.JoinSplit | custom_components/ring_extended/const.py:70 | joining the parts of a split gives back the string |
| Text.SplitJoin | custom_components/ring_extended/const.py:90 | splitting a join of separator-free parts gives back the parts |
| Text.SplitNoSeparator | scripts/analyze_ring_attributes.py:182-183 | a string without the separator splits into itself alone |
| Text.SplitAround | scripts/analyze_ring_attributes.py:182-184 | a split at one separator splits the two sides independently |
| Text.NatToString | custom_components/ring_extended/const.py:90 | a non-empty digit string without a leading zero |
| Text.NatToStringRoundTrip | custom_components/ring_extended/const.py:90 | parsing the rendered number gives the number |
| Text.Lower | custom_components/ring_extended/sensor.py:231 | lower-casing keeps the length |
| Text.LowerIdempotent | custom_components/ring_extended/sensor.py:231 | lower-casing twice is lower-casing once |
| Text.TitleFrom | custom_components/ring_extended/sensor.py:268 | title-casing keeps the length |
| Text.LowerTitleFrom | custom_components/ring_extended/sensor.py:268 | lower-casing the title-cased form of a lower-case string gives it back |
| Text.ReplaceChar | custom_components/ring_extended/sensor.py:268 | character replacement keeps the length |
| Text.ReplaceCharBack | custom_components/ring_extended/sensor.py:268 | replacing `a` by an absent `b` and back is the identity |
| Text.LessIrreflexive | custom_components/ring_extended/diagnostics.py:75-77 | string order is irreflexive |
| Text.LessTransitive | custom_components/ring_extended/diagnostics.py:75-77 | string order is transitive |
| Text.LessTotal | custom_components/ring_extended/diagnostics.py:75-77 | distinct strings are comparable |
| Text.LessAsymmetric | custom_components/ring_extended/diagnostics.py:75-77 | string order is asymmetric |
| Text.HeadIsLeast | custom_components/ring_extended/diagnostics.py:75-77 | a sorted list starts with its least element |
| Text.InsertSortedKeepsOrder | custom_components/ring_extended/diagnostics.py:75-77 | insertion into a sorted list keeps it sorted, adds exactly the element and grows by one |
| Text.SortedSet | custom_components/ring_extended/diagnostics.py:75-77 | `sorted(s)` is strictly ascending, holds exactly the set's members, and has the set's size |
| Text.SortedUnique | custom_components/ring_extended/diagnostics.py:75-77 | two strictly sorted lists with the same members are equal, so the sorted form is unique |
| Text.DistinctCount | custom_components/ring_extended/firmware_history.py:158 | a repeat-free list has as many elements as the set of its elements |
| SensorSetup.AddAlerts | custom_components/ring_extended/sensor.py:71-75 | the alert loop overlays one `alert_` + key entry per alert onto the health dict |
| SensorSetup.AlertEntriesStep | custom_components/ring_extended/sensor.py:74-75 | each loop iteration adds exactly that alert's entry |
| SensorSetup.MergeDeviceAttrs | custom_components/ring_extended/sensor.py:53-80 | the in-place merge computes `MergedAttrs`, including each exception it raises |
| SensorSetup.HealthPrecedence | custom_components/ring_extended/sensor.py:63-75 | a merged health key comes from an alert, else from the health endpoint, else from `attrs["health"]`, in that precedence, and no other key appears |
| SensorSetup.MergeKeepsOtherKeys | custom_components/ring_extended/sensor.py:60-78 | top-level keys other than `health` are unchanged, `alerts` included; `health` is written only when the combined dict is non-empty |
| SensorSetup.StepsExact | custom_components/ring_extended/sensor.py:125-153 | one result per device, in device order |
| SensorSetup.ObservationsExact | custom_components/ring_extended/sensor.py:138-153 | a device's sensors are exactly one per available catalog description |
| SensorSetup.ObservationIdsDistinct | custom_components/ring_extended/sensor.py:138-153 | with distinct catalog keys, a device's sensors have distinct unique ids |
| SensorSetup.CatalogObservationIdsDistinct | custom_components/ring_extended/sensor.py:138-153 | for `ALL_SENSORS`, a device's sensors have distinct unique ids |
| SensorSetup.GatherFails | custom_components/ring_extended/sensor.py:121-153 | a loop raises exactly when some device's step raises |
| SensorSetup.GatherExact | custom_components/ring_extended/sensor.py:121-153 | a loop that does not raise collects exactly the entities of its devices |
| SensorSetup.GatherErrSticks | custom_components/ring_extended/sensor.py:121-153 | once a step has raised, later devices change nothing |
| SensorSetup.StepsConcat | custom_components/ring_extended/sensor.py:121-125 | per-device steps distribute over device lists |
| SensorSetup.CollectFails | custom_components/ring_extended/sensor.py:121-153 | a pass fails exactly when some device's step fails |
| SensorSetup.CollectExact | custom_components/ring_extended/sensor.py:121-153 | a pass that succeeds holds exactly the entities its devices contribute |
| SensorSetup.CollectStep | custom_components/ring_extended/sensor.py:125-153 | one more device appends its entities, or stops at its exception |
| SensorSetup.CollectErrSticks | custom_components/ring_extended/sensor.py:121-153 | a failed pass stays failed with the same exception |
| SensorSetup.DeviceLoopExact | custom_components/ring_extended/sensor.py:121-153 | the sensor loop raises exactly when some device's merge raises or, as written, when the debug count meets a kept `health` of None, 0 or False; otherwise it creates exactly one sensor per device with non-empty merged attrs and available catalog description |
| SensorSetup.FirmwareLoopExact | custom_components/ring_extended/sensor.py:156-173 | the firmware loop raises exactly when some device's merge raises or, as written, when the lookup meets a kept `health` that is not a dict; otherwise it creates exactly one `{id}_firmware_history` sensor per device whose merged health has a truthy `firmware_version` |
| SensorSetup.SetupShape | custom_components/ring_extended/sensor.py:83-187 | missing Ring data adds nothing; setup raises exactly when some device's merge raises or, as written, when its kept non-dict `health` is used (by the count, or by the lookup when there is a tracker); otherwise the last entity, and only the last, is the coordinator-health sensor |
| SensorSetup.AllDevicesConcat | custom_components/ring_extended/sensor.py:121-122 | the family loop distributes over family lists |
| SensorSetup.FamilyErrSticks | custom_components/ring_extended/sensor.py:121-153 | an exception in one family ends the whole loop with that exception |
| SensorSetup.AddDeviceSensors | custom_components/ring_extended/sensor.py:138-153 | the descriptor loop appends exactly a device's observations |
| SensorSetup.DeviceStep | custom_components/ring_extended/sensor.py:125-173 | one device's contribution to a pass: its merge's exception, as written the exception of the count or lookup on a non-dict `health`, else its sensors |
| SensorSetup.AddFamily | custom_components/ring_extended/sensor.py:125-153 | the device loop of one family extends the collected entities |
| SensorSetup.RunPass | custom_components/ring_extended/sensor.py:121-173 | the nested family/device loops compute the pass |
| SensorSetup.SetupWith | custom_components/ring_extended/sensor.py:83-187 | the setup procedure computes `SetupEntities`, under either reading of a non-dict `health` |
| SensorSetup.SetupEntry | custom_components/ring_extended/sensor.py:83-187 | `async_setup_entry` as written over `ALL_SENSORS` |
| SensorSetup.SetupFails | custom_components/ring_extended/sensor.py:121-173 | with the Ring devices present, setup raises exactly when some device raises in the sensor loop or, with a tracker, in the firmware loop |
| SensorSetup.KeptHealthIsFalse | custom_components/ring_extended/sensor.py:63-78 | a merged `health` that is not a dict is a kept false value (None, 0, False, "" or []); `len` raises exactly on the first three and `.get` on all five |
| SensorSetup.NonDictHealthAbortsSetup | custom_components/ring_extended/sensor.py:133-163 | as written, a device whose merged `health` is None, 0 or False aborts the setup, and with a tracker so does "" or []; read as the empty dict, the device raises nothing |
| SensorSetup.AsWrittenPassAgrees | custom_components/ring_extended/sensor.py:121-173 | a pass that does not raise as written gives what the corrected pass gives |
| SensorSetup.AsWrittenSetupAgrees | custom_components/ring_extended/sensor.py:83-187 | the setup as written either raises or creates exactly what the corrected setup creates, and raises whenever the corrected setup does |
| SensorSetup.FirmwareLookupAgrees | custom_components/ring_extended/sensor.py:163 | treating a non-dict health as empty agrees with the code wherever the code does not raise |
| SensorEntities.DetectFamily | custom_components/ring_extended/sensor.py:229-238 | the detected family is always one of `DEVICE_FAMILIES` |
| SensorEntities.DetectFamilyIgnoresCase | custom_components/ring_extended/sensor.py:231 | detection ignores letter case |
| SensorEntities.DetectFamilyPrecedence | custom_components/ring_extended/sensor.py:232-238 | `doorbell` wins over `chime`, which wins over `stickup`/`cam`; `other` exactly when none occurs |
| SensorEntities.Without | custom_components/ring_extended/sensor.py:252-254 | the filtered list holds exactly the other families |
| SensorEntities.WithoutNoRepeats | custom_components/ring_extended/sensor.py:252-254 | filtering keeps a list repeat-free and removes exactly one entry when the family is listed |
| SensorEntities.SearchOrderProperties | custom_components/ring_extended/sensor.py:252-254 | the search order starts with the entity's own family, covers every family, has no repeats, and has the families' length |
| SensorEntities.FirstMatchExact | custom_components/ring_extended/sensor.py:258-262 | the search finds nothing exactly when no device has the id; otherwise it returns the first device with the id |
| SensorEntities.FirstMatchConcat | custom_components/ring_extended/sensor.py:256-262 | searching two lists in turn finds the first list's match before the second's |
| SensorEntities.FirstMatchAt | custom_components/ring_extended/sensor.py:258-262 | the first position holding the id decides the result |
| SensorEntities.AllDevicesMembers | custom_components/ring_extended/sensor.py:256-257 | the searched devices are exactly those of the searched families |
| SensorEntities.RefreshFindsListedDevice | custom_components/ring_extended/sensor.py:240-262 | a device listed under any family is always found again, under its own id |
| SensorEntities.FindDevice | custom_components/ring_extended/sensor.py:258-262 | the device loop returns the first id match |
| SensorEntities.SearchFamilies | custom_components/ring_extended/sensor.py:256-262 | the family loop returns the first match in search order |
| SensorEntities.DeviceEntity.RefreshDevice | custom_components/ring_extended/sensor.py:240-262 | the device is replaced by the first match in search order; it is unchanged when there is no Ring entry, no devices or no match |
| SensorEntities.CategoriesHavePrefixes | custom_components/ring_extended/sensor.py:31-48 | every category has a prefix, so the `title()` fallback is never used |
| SensorEntities.BaseNameRecoversKey | custom_components/ring_extended/sensor.py:268 | for a lower-case key, the display base name lowered, with spaces turned back into underscores, is the key |
| SensorEntities.ReplacedStaysLower | custom_components/ring_extended/sensor.py:268 | replacing underscores in such a key introduces no upper-case letter |
| SensorEntities.SensorNamesDistinct | custom_components/ring_extended/sensor.py:264-269 | two sensors of one category with distinct plain keys get distinct names |
| SensorEntities.AvailableIffReading | custom_components/ring_extended/sensor.py:287-308 | a sensor without a value function is available exactly when its value is not None |
| SensorEntities.CreatedSensorsAvailable | custom_components/ring_extended/sensor.py:138-153 | every created sensor is an available observation with id `{device_id}_{key}` |
| SensorEntities.FormatHistory | custom_components/ring_extended/sensor.py:412-430 | the loop over `reversed(history)` yields the lines most recent first |
| SensorEntities.FirmwareStateAttributes | custom_components/ring_extended/sensor.py:399-440 | an empty history gives the fixed no-history attributes; otherwise the current version, the first-seen day, `n - 1` updates and the lines newest first |
| SensorEntities.HistoryLinesChain | custom_components/ring_extended/sensor.py:413-430 | for tracker history, the oldest line reads `ver (initial)` and every other reads `prev -> ver` with the preceding version |
| SensorEntities.ChainedLines | custom_components/ring_extended/sensor.py:413-430 | the same for any chained history |
| SensorEntities.ChainedLineAt | custom_components/ring_extended/sensor.py:413-428 | the `i`-th line, newest first, of a chained history reads `date: prev -> ver` with the version before its entry's |
| SensorEntities.InitialLine | custom_components/ring_extended/sensor.py:429-430 | an entry without a previous version renders as `date: ver (initial)` |
| SensorEntities.ContinuedLine | custom_components/ring_extended/sensor.py:427-428 | an entry with a previous version renders as `date: prev -> ver` |
| SensorEntities.FirmwareDisplayAgrees | custom_components/ring_extended/sensor.py:387-397 | the last entry is the current version, and the state is that bare version exactly when there is at most one entry |
| SensorEntities.FirmwareCountReadsBack | custom_components/ring_extended/sensor.py:394-397 | with two entries or more the state is `"{current} ({n-1} updates)"` and the count reads back as `n - 1` |
| SensorEntities.StatusBySeconds | custom_components/ring_extended/sensor.py:514-532 | healthy up to 600 s, stale up to 1800 s, critical beyond |
| SensorEntities.StatusWorsensOverTime | custom_components/ring_extended/sensor.py:514-532 | without an update the status never improves as time passes |
| SensorEntities.CoordinatorHealth.Status | custom_components/ring_extended/sensor.py:514-532 | `Failed` exactly when the last update failed, and never `Unknown` once there is an update time |
| SensorEntities.CoordinatorHealth.HandleCoordinatorUpdate | custom_components/ring_extended/sensor.py:568-573 | the counter rises by exactly one and the sensor is healthy at that instant |
| SensorEntities.CoordinatorHealth.constructor | custom_components/ring_extended/sensor.py:469-474 | id `{entry_id}_coordinator_health`, count 0, last update now |
| FirmwareHistory.EmptyConsistent | custom_components/ring_extended/firmware_history.py:24-25 | the empty tracker is consistent and has no history |
| FirmwareHistory.PlaceholderIgnored | custom_components/ring_extended/firmware_history.py:54-55 | an empty, missing, `"unavailable"` or `"unknown"` version returns None and changes nothing |
| FirmwareHistory.CheckStepEffect | custom_components/ring_extended/firmware_history.py:58-88 | an unchanged version is a no-op; otherwise exactly one entry with the old version as `previous_version` is appended, the current version is set, and that entry is returned |
| FirmwareHistory.OtherDevicesUntouched | custom_components/ring_extended/firmware_history.py:72-77 | other devices' histories and versions are unchanged |
| FirmwareHistory.RepeatIsNoOp | custom_components/ring_extended/firmware_history.py:58-88 | repeating a call with the same version is a no-op |
| FirmwareHistory.ChainStarts | custom_components/ring_extended/firmware_history.py:64-69 | a first entry without a previous version starts a chain |
| FirmwareHistory.ChainExtends | custom_components/ring_extended/firmware_history.py:61-77 | an entry recording the current version as previous, with a new version, extends the chain |
| FirmwareHistory.CheckStepConsistent | custom_components/ring_extended/firmware_history.py:47-88 | every call keeps the tracker consistent: the same devices in both dicts, each history chained from an initial entry and ending at the current version |
| FirmwareHistory.RecordConsistent | custom_components/ring_extended/firmware_history.py:72-77 | storing a chained history and its last version keeps the tracker consistent |
| FirmwareHistory.Tagged | custom_components/ring_extended/firmware_history.py:102-104 | each history entry is tagged with its device id, in order |
| FirmwareHistory.AllChangesMembers | custom_components/ring_extended/firmware_history.py:100-104 | the flattened list holds exactly the entries of the listed devices |
| FirmwareHistory.AllChangesCount | custom_components/ring_extended/firmware_history.py:100-155 | its length is the sum of history lengths |
| FirmwareHistory.InsertKeepsOrder | custom_components/ring_extended/firmware_history.py:107 | insertion keeps the list non-increasing by timestamp and adds exactly the element |
| FirmwareHistory.InsertPermutes | custom_components/ring_extended/firmware_history.py:107 | insertion adds exactly the element |
| FirmwareHistory.InsertAtLeast | custom_components/ring_extended/firmware_history.py:107 | insertion keeps a lower bound on timestamps |
| FirmwareHistory.InsertIsStable | custom_components/ring_extended/firmware_history.py:107 | among equal timestamps, an inserted entry goes after the earlier ones |
| FirmwareHistory.SortProperties | custom_components/ring_extended/firmware_history.py:107 | the sort is non-increasing by timestamp and a permutation |
| FirmwareHistory.SortPermutes | custom_components/ring_extended/firmware_history.py:107 | the sort is a permutation |
| FirmwareHistory.SortOrdered | custom_components/ring_extended/firmware_history.py:107 | the sort is non-increasing by timestamp |
| FirmwareHistory.SortIsStable | custom_components/ring_extended/firmware_history.py:107 | equal timestamps keep their insertion order |
| FirmwareHistory.WithTimestampConcat | custom_components/ring_extended/firmware_history.py:107 | selecting one timestamp distributes over concatenation |
| FirmwareHistory.SliceTo | custom_components/ring_extended/firmware_history.py:108 | Python slicing `[:limit]`, negative limits included: the length it gives and the prefix it keeps |
| FirmwareHistory.RecentChangesCount | custom_components/ring_extended/firmware_history.py:98-108 | a non-negative limit gives `min(limit, total entries)` changes |
| FirmwareHistory.RecentChangesOrdered | custom_components/ring_extended/firmware_history.py:98-108 | recent changes are non-increasing by timestamp |
| FirmwareHistory.RecentChangesFromHistory | custom_components/ring_extended/firmware_history.py:100-104 | each recent change is a recorded entry of a tracked device |
| FirmwareHistory.RecentChangesAreNewest | custom_components/ring_extended/firmware_history.py:106-108 | every change left out is no newer than the last one kept |
| FirmwareHistory.LineHasNoBreak | custom_components/ring_extended/firmware_history.py:132-135 | a changelog line of single-line fields has no line break |
| FirmwareHistory.JoinStartsWithFirst | custom_components/ring_extended/firmware_history.py:137 | a join starts with its first part |
| FirmwareHistory.ChangelogProperties | custom_components/ring_extended/firmware_history.py:110-137 | the placeholder text appears exactly when there is no history; otherwise the text splits back into one line per recent change, at most 50 |
| FirmwareHistory.ChangelogNotPlaceholder | custom_components/ring_extended/firmware_history.py:113-137 | a non-empty changelog is never the placeholder text |
| FirmwareHistory.ChangelogSplitsIntoLines | custom_components/ring_extended/firmware_history.py:116-137 | splitting the text at line breaks gives the lines of the recent changes |
| FirmwareHistory.VersionGroupsExact | custom_components/ring_extended/firmware_history.py:142-152 | the groups are keyed by exactly the current versions, and each holds the names of the devices on that version, in device order |
| FirmwareHistory.VersionGroupsKeys | custom_components/ring_extended/firmware_history.py:143-145 | the group keys are the current versions |
| FirmwareHistory.VersionGroupsNames | custom_components/ring_extended/firmware_history.py:146-152 | each group lists the names of the devices on its version |
| FirmwareHistory.NamedWhenOnVersion | custom_components/ring_extended/firmware_history.py:146-152 | each device's display name is in its version's group |
| FirmwareHistory.SummaryProperties | custom_components/ring_extended/firmware_history.py:139-162 | device count, number of versions and change count are right, and every device is listed under its current version |
| FirmwareHistory.GroupByVersion | custom_components/ring_extended/firmware_history.py:142-152 | the grouping loop computes the version groups |
| FirmwareHistory.CountChanges | custom_components/ring_extended/firmware_history.py:155 | the summing loop computes the total number of changes |
| FirmwareHistory.FirmwareHistoryTracker.constructor | custom_components/ring_extended/firmware_history.py:20-26 | a new tracker is empty and consistent |
| FirmwareHistory.FirmwareHistoryTracker.CheckAndUpdate | custom_components/ring_extended/firmware_history.py:47-88 | the in-place update performs the transition function, returns its change, and keeps the tracker consistent |
| FirmwareHistory.FirmwareHistoryTracker.GetDeviceHistory | custom_components/ring_extended/firmware_history.py:90-92 | an unseen device has an empty history; a seen device's history ends at its current version |
| FirmwareHistory.FirmwareHistoryTracker.GetRecentChanges | custom_components/ring_extended/firmware_history.py:98-108 | the collecting loop and the sort give the recent changes |
| FirmwareHistory.FirmwareHistoryTracker.GetChangelogText | custom_components/ring_extended/firmware_history.py:110-137 | the line loop gives the changelog text |
| FirmwareHistory.FirmwareHistoryTracker.GetSummary | custom_components/ring_extended/firmware_history.py:139-162 | the summary loops give the summary |
| Diagnostics.AttributePathsExact | custom_components/ring_extended/diagnostics.py:35-44 | unless the top-level key `""` holds a dict, the paths are exactly the dotted key paths of non-dict values at any depth, None and lists included |
| Diagnostics.PathsExtendPrefix | custom_components/ring_extended/diagnostics.py:39-41 | paths found under a prefix extend it with a dot |
| Diagnostics.PathsStartWithTopLevelKey | custom_components/ring_extended/diagnostics.py:38-43 | every path starts with a top-level key |
| Diagnostics.FlatAttributesGiveKeys | custom_components/ring_extended/diagnostics.py:38-43 | a dict without dict values yields exactly its key set |
| Diagnostics.DefinedPaths | custom_components/ring_extended/diagnostics.py:53-58 | the defined paths are exactly the descriptors' paths, no more of them than descriptors |
| Diagnostics.KeysPartitioned | custom_components/ring_extended/diagnostics.py:57-62 | every catalog key goes to exactly one of available and unavailable, and the two counts add up to the catalog size |
| Diagnostics.AvailableKeysDistinct | custom_components/ring_extended/diagnostics.py:57-60 | with distinct catalog keys, the available keys are distinct |
| Diagnostics.ScanCatalog | custom_components/ring_extended/diagnostics.py:53-62 | the catalog loop gives the defined paths and the available and unavailable keys |
| Diagnostics.SensorCoverage | custom_components/ring_extended/diagnostics.py:47-78 | the counts add up; uncovered is exactly present minus defined and stale exactly defined minus present, both sorted; the sorted available keys are as many as the available sensors |
| Diagnostics.SharedPathShrinks | custom_components/ring_extended/diagnostics.py:53-58 | two descriptors sharing a path make the defined paths fewer than the descriptors |
| Diagnostics.CatalogPathsFewerThanSensors | custom_components/ring_extended/diagnostics.py:53-72 | for `ALL_SENSORS`, fewer defined paths than its 161 descriptors |
| Diagnostics.CatalogKeysDistinct | custom_components/ring_extended/diagnostics.py:57-62 | the catalog's keys are distinct |
| Diagnostics.DeviceEntityIds | custom_components/ring_extended/diagnostics.py:140-143 | a device's entities are exactly the registry ids starting with `{device_id}_` |
| Diagnostics.DeviceSensorsCounted | custom_components/ring_extended/diagnostics.py:140-143 | for a device with a `device_id` or an `id`, each registered sensor that setup created for it is counted for it |
| Diagnostics.IdlessSensorsMissed | custom_components/ring_extended/diagnostics.py:125-126 | for a device with neither, none of its sensors is counted: setup names them `unknown_...`, the report counts ids starting with `_` |
| Diagnostics.UnderscoreStarts | custom_components/ring_extended/diagnostics.py:142 | an id followed by `_...` starts with `{id}_` |
| Diagnostics.RecordOf | custom_components/ring_extended/diagnostics.py:168-170 | a device record carries its attributes' paths |
| Diagnostics.FirstSeen | custom_components/ring_extended/diagnostics.py:155-156 | first-seen order lists each model once |
| Diagnostics.ModelList | custom_components/ring_extended/diagnostics.py:154-157 | the models are exactly those of the devices |
| Diagnostics.ModelGroup | custom_components/ring_extended/diagnostics.py:154-157 | a model's group holds exactly its devices |
| Diagnostics.UnionPaths | custom_components/ring_extended/diagnostics.py:173-175 | the union holds exactly the paths some group member has |
| Diagnostics.GroupInconsistenciesExact | custom_components/ring_extended/diagnostics.py:177-184 | a device is reported exactly when its missing set, the union minus its paths, is non-empty |
| Diagnostics.InconsistenciesForSound | custom_components/ring_extended/diagnostics.py:161-184 | every report comes from some model's group |
| Diagnostics.InconsistenciesForComplete | custom_components/ring_extended/diagnostics.py:161-184 | every group's report is included |
| Diagnostics.InconsistenciesExact | custom_components/ring_extended/diagnostics.py:159-184 | reports are exactly: a device of a model with at least two devices, with a non-empty set of paths its model-mates have and it lacks |
| Diagnostics.TwoMakeAGroup | custom_components/ring_extended/diagnostics.py:161-163 | two devices of one model make the group big enough to compare |
| Diagnostics.LackingDeviceReported | custom_components/ring_extended/diagnostics.py:159-184 | a device lacking a path a same-model device has is reported with that path missing |
| Diagnostics.GroupByModel | custom_components/ring_extended/diagnostics.py:154-157 | the grouping loop gives the models in first-seen order and each model's devices |
| Diagnostics.GroupUnion | custom_components/ring_extended/diagnostics.py:173-175 | the union loop gives the union of paths |
| Diagnostics.AddGroupEntries | custom_components/ring_extended/diagnostics.py:177-184 | the report loop appends the group's reports |
| Diagnostics.FindInconsistencies | custom_components/ring_extended/diagnostics.py:154-184 | the loops compute the inconsistencies of devices taken one by one |
| Diagnostics.EmptyKeyDictLosesStep | custom_components/ring_extended/diagnostics.py:38-41 | for `{"": {"b": 1}}` the only path is `b`, while the walk `["", "b"]` joins to `.b`: the condition of the exact-paths lemmas is needed |
| Diagnostics.RecordsExact | custom_components/ring_extended/diagnostics.py:120-131 | a record is compared exactly when it is the record of a listed device whose `_attrs` is not empty |
| Diagnostics.EmptyAttrsNeverReported | custom_components/ring_extended/diagnostics.py:128-131 | a device with empty `_attrs` (and no attributed namesake) is named by no inconsistency |
| Diagnostics.CollectRecords | custom_components/ring_extended/diagnostics.py:120-131 | the family and device loops build the records of the devices with attributes, in family order |
| Diagnostics.CorrectedInconsistencies | custom_components/ring_extended/diagnostics.py:116-184 | from the Ring devices, the corrected (per-device) inconsistencies of the records built from them; the report's own differ when names repeat (`ReportAgreesOnDistinctNames`) |
| Diagnostics.SameNamePairAsWritten | custom_components/ring_extended/diagnostics.py:145-184 | as written, two same-model devices with one display name are never reported |
| Diagnostics.PairCorrected | custom_components/ring_extended/diagnostics.py:159-184 | taken one by one, the device lacking paths is reported with exactly the paths it lacks |
| Diagnostics.SameNameAsWritten | custom_components/ring_extended/diagnostics.py:145-184 | as written, the two-camera example reports nothing |
| Diagnostics.SameNameCorrected | custom_components/ring_extended/diagnostics.py:159-184 | taken one by one, the two-camera example reports the camera lacking `b` |
| Diagnostics.NamesOfGroup | custom_components/ring_extended/diagnostics.py:154-157 | the names listed for a model are the names of its devices, in order |
| Diagnostics.InfoFilesAll | custom_components/ring_extended/diagnostics.py:145-152 | with unique names, `devices_info` holds every device under its own name |
| Diagnostics.FirstSeenOfDistinct | custom_components/ring_extended/diagnostics.py:166-170 | filling `attr_paths_by_device` from a repeat-free list of names keeps every name, in order |
| Diagnostics.ModelAsWrittenAgrees | custom_components/ring_extended/diagnostics.py:161-184 | with unique names, one model's entries as written are those of the per-device comparison |
| Diagnostics.AsWrittenAgreesOnDistinctNames | custom_components/ring_extended/diagnostics.py:145-184 | with unique names, the report as written lists exactly the corrected inconsistencies, in the same order |
| Diagnostics.ReportAgreesOnDistinctNames | custom_components/ring_extended/diagnostics.py:116-184 | from the Ring devices, when no two devices with attributes share a name, the report's own inconsistencies are the corrected ones, in order |
| Analyzer.NonDictHasNoPaths | scripts/analyze_ring_attributes.py:42-43 | non-dict input has no paths |
| Analyzer.ExtractAllPathsExact | scripts/analyze_ring_attributes.py:38-70 | unless the top-level key `""` holds a dict, the paths are exactly the dotted key paths ending at a scalar, through no skipped key |
| Analyzer.ListedWalksAvoidSkippedKeys | scripts/analyze_ring_attributes.py:49-58 | no key of a listed path is skipped, and each path ends at a scalar |
| Analyzer.SkippedKeyIgnored | scripts/analyze_ring_attributes.py:49-58 | a skipped key's subtree never contributes |
| Analyzer.ListsAddNothing | scripts/analyze_ring_attributes.py:63-65 | list values contribute no paths |
| Analyzer.DefinedPaths | scripts/analyze_ring_attributes.py:73-79 | the defined paths are exactly the non-empty descriptor paths |
| Analyzer.In | scripts/analyze_ring_attributes.py:114-121 | the `in` test raises exactly on numbers, booleans and None |
| Analyzer.Index | scripts/analyze_ring_attributes.py:115-122 | indexing a dict by a present key gives its value; indexing a non-dict raises |
| Analyzer.DeviceDataPriority | scripts/analyze_ring_attributes.py:111-128 | `data.device_data`, then `data.devices`, then top-level `device_data`, else `[]` |
| Analyzer.DeviceListTakenAsIs | scripts/analyze_ring_attributes.py:124-126 | a list input is returned as is |
| Analyzer.ScalarDataRaises | scripts/analyze_ring_attributes.py:114-116 | a scalar `data` section raises |
| Analyzer.KeyedPathRelevant | scripts/analyze_ring_attributes.py:179-186 | a dotted path whose first segment is a device key is relevant |
| Analyzer.UndottedPathIrrelevant | scripts/analyze_ring_attributes.py:182-183 | an undotted path is never relevant |
| Analyzer.AnalyzeDevice | scripts/analyze_ring_attributes.py:154-186 | a device's paths, new = paths minus defined, missing = defined minus paths, and relevant-missing exactly the relevant missing paths |
| Analyzer.AllPathsExact | scripts/analyze_ring_attributes.py:144-155 | the union holds exactly the paths of some device |
| Analyzer.Analyze | scripts/analyze_ring_attributes.py:143-201 | one analysis per device and the totals over the union of their paths (the script stops before this at lines 133-136 when there are no devices; the model also accepts `[]`, giving no analyses and every defined path missing) |
| Analyzer.TotalMissingEverywhere | scripts/analyze_ring_attributes.py:161-201 | a path is missing in total exactly when it is missing on every device |
| Analyzer.TotalNewSomewhere | scripts/analyze_ring_attributes.py:158-200 | a path is new in total exactly when it is new on some device |

## Left out

- Home Assistant plumbing is not modelled: `hass.data` and `runtime_data` lookups, `async_add_entities`, `device_info`, the base-class behaviour of `CoordinatorEntity`/`SensorEntity`, `async_write_ha_state` and logging. Setup receives the devices and the selected categories as parameters.
- The one-minute timer of the coordinator-health sensor (`async_track_time_interval`) is not modelled: it only re-renders the state.
- `config_flow.py` and `__init__.py` are not part of this model: they hold UI forms and config-entry setup.
- `__init__.py` never stores a `"firmware_tracker"` entry, so as shipped the firmware-history sensors are never created. Setup therefore takes `hasFirmwareTracker` as a parameter and covers both cases.
- Persistence (`Store`, `async_load`, `async_save`) is foreign asynchronous I/O. Only the tracker's in-memory dictionaries are modelled.
- The wall clock becomes an integer `now` parameter. Timestamps are stored as that instant, so the sort by ISO text becomes a sort by instant (the two orders agree as long as the local clock never goes back).
- Date parsing and formatting (`fromisoformat`, `strftime`, `ts[:16]`, `[:10]`) are replaced by the `dateLabel` and `dayLabel` parameters.
- Floating point is not modelled:
  - `float(v)` of `egress_tx_rate` becomes an integer `Number`.
  - Minutes since an update are an exact rational, and `round(..., 1)` in the coordinator-health attributes is not modelled.
  - Floats in attribute trees are not a node kind.
- SensorDescription.ApplyValueFn: `int()` and `bool(int())` applied to a string, dict or list give `Unconverted` instead of the parsed number or the Python exception.
- SensorDescription.ApplyValueFn: `_unix_to_datetime` returns None when `datetime.fromtimestamp` rejects an out-of-range timestamp. The model gives `Instant` for every integer, because the accepted range depends on the platform.
- SensorSetup.MergeDeviceAttrs: `dict(x or {})` also accepts a true value that is a list of key/value pairs, or another iterable of pairs. The model raises on every true value that is not a dict, since such an `_attrs` or `health` would not come from the Ring library.
- Text.Lower: changes ASCII letters only. Python's `.lower()` follows Unicode rules and can change a string's length. Class names, category keys and family names are ASCII.
- Text.TitleFrom: takes the ASCII letters as the only cased characters. Python's `.title()` follows Unicode rules.
- SensorEntities.ObservationValue: a merge exception gives no value; the source's `native_value` catches `KeyError`, `TypeError` and `AttributeError` and returns None, which the model reads as the same thing.
- The coordinator-health `extra_state_attributes` dict (rounded minutes and status text) is not modelled; its status thresholds are those of `native_value`, which is.
- AttrTree.LeafPathsAreJoinedKeyPaths: a dict under the top-level key `""` is excluded. The prefix `""` is false, so the children's paths drop the `""` step and are not the dotted joins of their key paths (`Diagnostics.EmptyKeyDictLosesStep`). A `""` key anywhere else is covered.
- AttrTree.ChildPathsJoined: excludes a dict stored under `""` at an empty prefix, for the same reason.
- AttrTree.ChildKeyPathsJoined: excludes a dict stored under `""` at an empty prefix, for the same reason.
- Diagnostics.AttributePathsExact: excludes attributes whose top-level `""` key holds a dict, for the same reason.
- Analyzer.ExtractAllPathsExact: excludes data whose top-level `""` key holds a dict, for the same reason.
- Diagnostics.RingDevice: `_attrs` is taken to be a dict. A true `_attrs` that is not a dict makes `_extract_all_attribute_paths` raise on `.items()`, which the model does not represent; `name` and `model` are taken as present (the `"unknown"` fallbacks are the caller's).
- Redaction (`async_redact_data`) is not modelled: the inconsistency pass reads the attributes as given. Redaction replaces the value of a listed key by a string, so a listed key holding a dict would give one path there instead of its children's.
- Diagnostics.Inconsistency: `missing_attributes` is kept as a set, not as its sorted list (`Text.SortedSet` is the sort).
- Diagnostics.SensorCoverage: the sorted available keys are proved to be as many as the available sensors only when the catalog's keys are distinct, as they are for `ALL_SENSORS`. For a catalog with a repeated key, `sorted(list)` would keep the duplicate; the model collapses it.
- Diagnostics.PathsStartWithTopLevelKey: excludes a top-level `""` key holding a dict. Its path is `""`, which is false, so its children get their bare keys as paths, and those need not start with any top-level key.
- Analyzer: a device entry that is not a dict makes the script raise on `device.get`; the model takes the devices as dicts.
- Analyzer: printing, `argparse`, file loading and the HTTP fetch are not modelled, nor `get_nested` used only to print values.
- `CATEGORY_NAMES` (display names of categories) is not modelled: no logic reads it.

## Findings

| source | as written | input that shows it | evidently intended | confidence | as-written member | corrected member |
|---|---|---|---|---|---|---|
| custom_components/ring_extended/sensor.py:133-163 | `len(device_attrs.get("health", {}))` (an argument of the debug log, so evaluated at any log level) and `device_attrs.get("health", {}).get("firmware_version")` assume the merged `health` is a dict. The merge writes `health` back only when the combined dict is non-empty, so a false stored `health` survives. None, 0 or False makes `len` raise; with a firmware tracker, "" or [] also makes `.get` raise. Either aborts setup for every device | a device with `_attrs = {"health": 0}` (or None or False), no `_health_attrs` and no alerts; with a tracker, also `{"health": ""}` | a device without health data has no health keys and no firmware-history sensor | medium, not executed | SensorSetup.NonDictHealthAbortsSetup | SensorSetup.SetupShape |
| custom_components/ring_extended/diagnostics.py:145-184 | `devices_info` is keyed by display name and the model lists hold names, so two devices of one model with the same name collapse into one entry, are compared with themselves, and are never reported | two devices named "Cam" of model "M", with attribute paths {a, b} and {a} | each device is compared with its model-mates on its own attributes, so the second camera is reported as missing `b` | high, not executed | Diagnostics.SameNameAsWritten | Diagnostics.SameNameCorrected |
