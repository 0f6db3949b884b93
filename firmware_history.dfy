/**
 * The firmware history tracker: the in-memory part of `FirmwareHistoryTracker`.
 *
 * The tracker keeps, per device id, the list of firmware changes seen so far
 * and the current version. Python dicts keep insertion order, and both dicts
 * receive a device's key in the same call, so the model keeps that order once,
 * as `deviceOrder`. Timestamps are the clock reading passed in by the caller
 * (an integer instant); rendering them as dates is a function parameter.
 */
module FirmwareHistory {
  import opened Wrappers
  import Text

  /** One history entry: `{version, previous_version, timestamp, device_name}`. */
  datatype Change = Change(version: string, previousVersion: Option<string>, timestamp: int, deviceName: string)

  /** A history entry tagged with the device it belongs to, as `get_recent_changes` returns it. */
  datatype DeviceChange = DeviceChange(deviceId: string, change: Change)

  /** `_history`, `_current_versions`, and the shared insertion order of their keys. */
  datatype TrackerState = TrackerState(
    history: map<string, seq<Change>>,
    currentVersions: map<string, string>,
    deviceOrder: seq<string>)

  /** The state of a freshly constructed tracker. */
  const Empty := TrackerState(map[], map[], [])

  /** Versions `check_and_update` ignores: missing, empty, `"unavailable"` or `"unknown"`. */
  predicate IsPlaceholder(version: Option<string>)
  {
    version.None? || version.value == "" || version.value == "unavailable" || version.value == "unknown"
  }

  /**
   * One device's history as `check_and_update` builds it: never empty, the
   * first entry has no previous version, each later entry continues from the
   * one before it with a different version, no entry holds a placeholder, and
   * the last entry holds the current version.
   */
  predicate ChainedHistory(h: seq<Change>, current: string)
  {
    && |h| >= 1
    && h[0].previousVersion == None
    && h[|h| - 1].version == current
    && (forall i :: 0 < i < |h| ==> h[i].previousVersion == Some(h[i - 1].version) && h[i].version != h[i - 1].version)
    && (forall i :: 0 <= i < |h| ==> !IsPlaceholder(Some(h[i].version)))
  }

  /** The invariant of every state reachable from `Empty`. */
  predicate Consistent(st: TrackerState)
  {
    && Text.NoDuplicates(st.deviceOrder)
    && st.history.Keys == st.currentVersions.Keys
    && (forall id :: id in st.deviceOrder ==> id in st.history)
    && (forall id :: id in st.history ==> id in st.deviceOrder)
    && (forall id :: id in st.history ==> id in st.currentVersions && ChainedHistory(st.history[id], st.currentVersions[id]))
  }

  /** `get_device_history`: the device's entries, or none for a device never seen. */
  function HistoryOf(st: TrackerState, deviceId: string): seq<Change>
  {
    if deviceId in st.history then st.history[deviceId] else []
  }

  /** `_current_versions.get(device_id)` */
  function CurrentVersionOf(st: TrackerState, deviceId: string): Option<string>
  {
    if deviceId in st.currentVersions then Some(st.currentVersions[deviceId]) else None
  }

  /** `check_and_update`: the new state and the entry it returns, if any. */
  function CheckStep(st: TrackerState, deviceId: string, deviceName: string, version: Option<string>, now: int): (TrackerState, Option<Change>)
  {
    if IsPlaceholder(version) then (st, None)
    else
      var previous := CurrentVersionOf(st, deviceId);
      if previous == Some(version.value) then (st, None)
      else
        var entry := Change(version.value, previous, now, deviceName);
        var order := if deviceId in st.history then st.deviceOrder else st.deviceOrder + [deviceId];
        (TrackerState(
           st.history[deviceId := HistoryOf(st, deviceId) + [entry]],
           st.currentVersions[deviceId := version.value],
           order),
         Some(entry))
  }

  lemma EmptyConsistent()
    ensures Consistent(Empty)
    ensures forall id :: HistoryOf(Empty, id) == []
  {
  }

  /** A placeholder version changes nothing and reports nothing. */
  lemma PlaceholderIgnored(st: TrackerState, deviceId: string, deviceName: string, version: Option<string>, now: int)
    requires IsPlaceholder(version)
    ensures CheckStep(st, deviceId, deviceName, version, now) == (st, None)
  {
  }

  /**
   * A real version that differs from the current one appends exactly one
   * entry to that device's history, makes it the current version and reports
   * it; a version equal to the current one changes nothing.
   */
  lemma {:induction false} CheckStepEffect(st: TrackerState, deviceId: string, deviceName: string, version: Option<string>, now: int)
    requires !IsPlaceholder(version)
    ensures var (st', change) := CheckStep(st, deviceId, deviceName, version, now);
      if CurrentVersionOf(st, deviceId) == version then st' == st && change.None?
      else
        && change == Some(Change(version.value, CurrentVersionOf(st, deviceId), now, deviceName))
        && HistoryOf(st', deviceId) == HistoryOf(st, deviceId) + [change.value]
        && CurrentVersionOf(st', deviceId) == version
  {
    var previous := CurrentVersionOf(st, deviceId);
    if previous != version {
      assert previous != Some(version.value);
    }
  }

  /** Other devices' histories and versions are never touched. */
  lemma OtherDevicesUntouched(st: TrackerState, deviceId: string, deviceName: string, version: Option<string>, now: int, other: string)
    requires other != deviceId
    ensures var st' := CheckStep(st, deviceId, deviceName, version, now).0;
      HistoryOf(st', other) == HistoryOf(st, other) && CurrentVersionOf(st', other) == CurrentVersionOf(st, other)
  {
  }

  /** Repeating a call with the same version is a no-op, whatever its name and time. */
  lemma {:induction false} RepeatIsNoOp(st: TrackerState, deviceId: string, name1: string, name2: string, version: Option<string>, now1: int, now2: int)
    ensures var st' := CheckStep(st, deviceId, name1, version, now1).0;
      CheckStep(st', deviceId, name2, version, now2) == (st', None)
  {
    var st' := CheckStep(st, deviceId, name1, version, now1).0;
    if !IsPlaceholder(version) {
      assert CurrentVersionOf(st', deviceId) == Some(version.value);
    }
  }

  lemma ChainStarts(entry: Change)
    requires entry.previousVersion == None && !IsPlaceholder(Some(entry.version))
    ensures ChainedHistory([entry], entry.version)
  {
  }

  lemma ChainExtends(h: seq<Change>, current: string, entry: Change)
    requires ChainedHistory(h, current)
    requires entry.previousVersion == Some(current) && entry.version != current
    requires !IsPlaceholder(Some(entry.version))
    ensures ChainedHistory(h + [entry], entry.version)
  {
    var h' := h + [entry];
    forall i | 0 < i < |h'| ensures h'[i].previousVersion == Some(h'[i - 1].version) && h'[i].version != h'[i - 1].version {
      if i < |h| {
        assert h'[i] == h[i] && h'[i - 1] == h[i - 1];
      }
    }
  }

  /** `check_and_update` preserves the history invariant. */
  lemma {:induction false} CheckStepConsistent(st: TrackerState, deviceId: string, deviceName: string, version: Option<string>, now: int)
    requires Consistent(st)
    ensures Consistent(CheckStep(st, deviceId, deviceName, version, now).0)
  {
    if !IsPlaceholder(version) && CurrentVersionOf(st, deviceId) != Some(version.value) {
      var st' := CheckStep(st, deviceId, deviceName, version, now).0;
      var entry := Change(version.value, CurrentVersionOf(st, deviceId), now, deviceName);
      var h := HistoryOf(st, deviceId) + [entry];
      if deviceId in st.history {
        ChainExtends(st.history[deviceId], st.currentVersions[deviceId], entry);
      } else {
        assert HistoryOf(st, deviceId) == [];
        ChainStarts(entry);
      }
      RecordConsistent(st, deviceId, h, version.value);
    }
  }

  /** Recording a chained history for one device keeps the tracker consistent. */
  lemma RecordConsistent(st: TrackerState, deviceId: string, h: seq<Change>, current: string)
    requires Consistent(st) && ChainedHistory(h, current)
    ensures Consistent(TrackerState(
      st.history[deviceId := h],
      st.currentVersions[deviceId := current],
      if deviceId in st.history then st.deviceOrder else st.deviceOrder + [deviceId]))
  {
    if deviceId !in st.history {
      AppendNoDuplicates(st.deviceOrder, deviceId);
    }
  }

  lemma AppendNoDuplicates(s: seq<string>, x: string)
    requires Text.NoDuplicates(s) && x !in s
    ensures Text.NoDuplicates(s + [x])
  {
    var s' := s + [x];
    forall i, j | 0 <= i < j < |s'| ensures s'[i] != s'[j] {
      if j == |s| {
        assert s'[i] == s[i];
      }
    }
  }

  // ---------------------------------------------------------------------
  // get_recent_changes
  // ---------------------------------------------------------------------

  /** Each entry of `h` tagged with `deviceId`, in order (`{**entry, "device_id": device_id}`). */
  function Tagged(deviceId: string, h: seq<Change>): (r: seq<DeviceChange>)
    ensures |r| == |h|
    ensures forall k :: 0 <= k < |r| ==> r[k] == DeviceChange(deviceId, h[k])
  {
    if h == [] then [] else Tagged(deviceId, h[..|h| - 1]) + [DeviceChange(deviceId, h[|h| - 1])]
  }

  /** Every entry of the devices `ids`, device by device, in history order. */
  function AllChanges(st: TrackerState, ids: seq<string>): seq<DeviceChange>
  {
    if ids == [] then [] else AllChanges(st, ids[..|ids| - 1]) + Tagged(ids[|ids| - 1], HistoryOf(st, ids[|ids| - 1]))
  }

  /** The total number of entries over the devices `ids`. */
  function TotalChanges(st: TrackerState, ids: seq<string>): nat
  {
    if ids == [] then 0 else TotalChanges(st, ids[..|ids| - 1]) + |HistoryOf(st, ids[|ids| - 1])|
  }

  lemma AllChangesStep(st: TrackerState, ids: seq<string>, i: nat)
    requires i < |ids|
    ensures AllChanges(st, ids[..i + 1]) == AllChanges(st, ids[..i]) + Tagged(ids[i], HistoryOf(st, ids[i]))
  {
    assert ids[..i + 1][..i] == ids[..i];
  }

  lemma TaggedStep(deviceId: string, h: seq<Change>, j: nat)
    requires j < |h|
    ensures Tagged(deviceId, h[..j + 1]) == Tagged(deviceId, h[..j]) + [DeviceChange(deviceId, h[j])]
  {
    assert h[..j + 1][..j] == h[..j];
  }

  /** A tagged change is collected exactly when its device is listed and the entry is in that device's history. */
  lemma {:induction false} AllChangesMembers(st: TrackerState, ids: seq<string>, c: DeviceChange)
    ensures c in AllChanges(st, ids) <==> c.deviceId in ids && c.change in HistoryOf(st, c.deviceId)
  {
    if ids != [] {
      var init, last := ids[..|ids| - 1], ids[|ids| - 1];
      AllChangesMembers(st, init, c);
      assert ids == init + [last];
      var t := Tagged(last, HistoryOf(st, last));
      if c in t {
        var k :| 0 <= k < |t| && t[k] == c;
        assert c.change == HistoryOf(st, last)[k];
      }
      if c.deviceId == last && c.change in HistoryOf(st, last) {
        var k :| 0 <= k < |HistoryOf(st, last)| && HistoryOf(st, last)[k] == c.change;
        assert t[k] == c;
      }
    }
  }

  lemma {:induction false} AllChangesCount(st: TrackerState, ids: seq<string>)
    ensures |AllChanges(st, ids)| == TotalChanges(st, ids)
  {
    if ids != [] {
      AllChangesCount(st, ids[..|ids| - 1]);
    }
  }

  /**
   * Inserts `x` into a list sorted by descending timestamp, after every
   * element whose timestamp is not smaller, which is where a stable sort
   * puts a later element.
   */
  function InsertByTimestamp(sorted: seq<DeviceChange>, x: DeviceChange): seq<DeviceChange>
  {
    if sorted == [] || sorted[|sorted| - 1].change.timestamp >= x.change.timestamp then sorted + [x]
    else InsertByTimestamp(sorted[..|sorted| - 1], x) + [sorted[|sorted| - 1]]
  }

  /** `list.sort(key=timestamp, reverse=True)`, which Python guarantees to be stable. */
  function SortByTimestampDesc(s: seq<DeviceChange>): seq<DeviceChange>
  {
    if s == [] then [] else InsertByTimestamp(SortByTimestampDesc(s[..|s| - 1]), s[|s| - 1])
  }

  predicate NonIncreasing(s: seq<DeviceChange>)
  {
    forall i, j :: 0 <= i < j < |s| ==> s[i].change.timestamp >= s[j].change.timestamp
  }

  /** The elements of `s` with timestamp `t`, in their order in `s`. */
  function WithTimestamp(s: seq<DeviceChange>, t: int): seq<DeviceChange>
  {
    if s == [] then []
    else WithTimestamp(s[..|s| - 1], t) + (if s[|s| - 1].change.timestamp == t then [s[|s| - 1]] else [])
  }

  lemma {:induction false} WithTimestampConcat(a: seq<DeviceChange>, b: seq<DeviceChange>, t: int)
    ensures WithTimestamp(a + b, t) == WithTimestamp(a, t) + WithTimestamp(b, t)
  {
    if b == [] {
      assert a + b == a;
    } else {
      WithTimestampConcat(a, b[..|b| - 1], t);
      assert (a + b)[..|a + b| - 1] == a + b[..|b| - 1];
    }
  }

  /** Inserting keeps the list in non-increasing order and adds only `x`. */
  lemma {:induction false} InsertKeepsOrder(sorted: seq<DeviceChange>, x: DeviceChange)
    requires NonIncreasing(sorted)
    ensures NonIncreasing(InsertByTimestamp(sorted, x))
    ensures multiset(InsertByTimestamp(sorted, x)) == multiset(sorted) + multiset{x}
  {
    InsertPermutes(sorted, x);
    if sorted != [] && sorted[|sorted| - 1].change.timestamp < x.change.timestamp {
      var init, last := sorted[..|sorted| - 1], sorted[|sorted| - 1];
      InsertKeepsOrder(init, x);
      assert AllAtLeast(init, last.change.timestamp) by {
        forall k | 0 <= k < |init| ensures init[k].change.timestamp >= last.change.timestamp {
          assert init[k] == sorted[k];
        }
      }
      InsertAtLeast(init, x, last.change.timestamp);
      var r' := InsertByTimestamp(init, x);
      var r := r' + [last];
      forall i, j | 0 <= i < j < |r| ensures r[i].change.timestamp >= r[j].change.timestamp {
        assert r[i] == r'[i];
        if j < |r| - 1 {
          assert r[j] == r'[j];
        }
      }
    }
  }

  predicate AllAtLeast(s: seq<DeviceChange>, t: int)
  {
    forall i :: 0 <= i < |s| ==> s[i].change.timestamp >= t
  }

  /** Inserting a change no earlier than `t` among changes no earlier than `t`. */
  lemma {:induction false} InsertAtLeast(sorted: seq<DeviceChange>, x: DeviceChange, t: int)
    requires AllAtLeast(sorted, t) && x.change.timestamp >= t
    ensures AllAtLeast(InsertByTimestamp(sorted, x), t)
  {
    if sorted != [] && sorted[|sorted| - 1].change.timestamp < x.change.timestamp {
      var init := sorted[..|sorted| - 1];
      InsertAtLeast(init, x, t);
      assert InsertByTimestamp(sorted, x) == InsertByTimestamp(init, x) + [sorted[|sorted| - 1]];
    }
  }

  /** Inserting adds `x` and nothing else. */
  lemma {:induction false} InsertPermutes(sorted: seq<DeviceChange>, x: DeviceChange)
    ensures multiset(InsertByTimestamp(sorted, x)) == multiset(sorted) + multiset{x}
  {
    if sorted != [] && sorted[|sorted| - 1].change.timestamp < x.change.timestamp {
      var init := sorted[..|sorted| - 1];
      InsertPermutes(init, x);
      assert sorted == init + [sorted[|sorted| - 1]];
    }
  }

  /** Inserting `x` puts it after every change that has its timestamp. */
  lemma {:induction false} InsertIsStable(sorted: seq<DeviceChange>, x: DeviceChange, t: int)
    ensures WithTimestamp(InsertByTimestamp(sorted, x), t) ==
      WithTimestamp(sorted, t) + (if x.change.timestamp == t then [x] else [])
  {
    var r := InsertByTimestamp(sorted, x);
    if sorted == [] || sorted[|sorted| - 1].change.timestamp >= x.change.timestamp {
      assert r[..|r| - 1] == sorted;
    } else {
      var init, last := sorted[..|sorted| - 1], sorted[|sorted| - 1];
      InsertIsStable(init, x, t);
      var r' := InsertByTimestamp(init, x);
      assert r == r' + [last];
      assert r[..|r| - 1] == r';
    }
  }

  /**
   * The sort puts the changes in non-increasing timestamp order, is a
   * permutation, and keeps changes with equal timestamps in their original
   * order.
   */
  lemma SortProperties(s: seq<DeviceChange>)
    ensures NonIncreasing(SortByTimestampDesc(s))
    ensures multiset(SortByTimestampDesc(s)) == multiset(s)
    ensures |SortByTimestampDesc(s)| == |s|
  {
    SortPermutes(s);
    SortOrdered(s);
    assert |SortByTimestampDesc(s)| == |multiset(SortByTimestampDesc(s))|;
  }

  lemma {:induction false} SortPermutes(s: seq<DeviceChange>)
    ensures multiset(SortByTimestampDesc(s)) == multiset(s)
  {
    if s != [] {
      var init, last := s[..|s| - 1], s[|s| - 1];
      SortPermutes(init);
      InsertPermutes(SortByTimestampDesc(init), last);
      assert s == init + [last];
    }
  }

  lemma {:induction false} SortOrdered(s: seq<DeviceChange>)
    ensures NonIncreasing(SortByTimestampDesc(s))
  {
    if s != [] {
      var init, last := s[..|s| - 1], s[|s| - 1];
      SortOrdered(init);
      InsertKeepsOrder(SortByTimestampDesc(init), last);
    }
  }

  /** Changes with equal timestamps keep their original order. */
  lemma {:induction false} SortIsStable(s: seq<DeviceChange>, t: int)
    ensures WithTimestamp(SortByTimestampDesc(s), t) == WithTimestamp(s, t)
  {
    if s != [] {
      var init, last := s[..|s| - 1], s[|s| - 1];
      SortIsStable(init, t);
      InsertIsStable(SortByTimestampDesc(init), last, t);
    }
  }

  /** Python's `s[:limit]`, including a negative `limit` counting from the end. */
  function SliceTo<T>(s: seq<T>, limit: int): (r: seq<T>)
    ensures limit >= 0 ==> |r| == if limit < |s| then limit else |s|
    ensures limit < 0 ==> |r| == if |s| + limit > 0 then |s| + limit else 0
    ensures forall k :: 0 <= k < |r| ==> r[k] == s[k]
  {
    if limit >= 0 then s[..if limit < |s| then limit else |s|]
    else s[..if |s| + limit > 0 then |s| + limit else 0]
  }

  /** `get_recent_changes(limit)` */
  function RecentChanges(st: TrackerState, limit: int): seq<DeviceChange>
  {
    SliceTo(SortByTimestampDesc(AllChanges(st, st.deviceOrder)), limit)
  }

  /** With a non-negative limit, `get_recent_changes` returns `min(limit, total)` changes. */
  lemma RecentChangesCount(st: TrackerState, limit: int)
    requires limit >= 0
    ensures |RecentChanges(st, limit)| == if limit < TotalChanges(st, st.deviceOrder) then limit else TotalChanges(st, st.deviceOrder)
  {
    SortProperties(AllChanges(st, st.deviceOrder));
    AllChangesCount(st, st.deviceOrder);
  }

  /** The recent changes come newest first. */
  lemma RecentChangesOrdered(st: TrackerState, limit: int)
    ensures NonIncreasing(RecentChanges(st, limit))
  {
    SortProperties(AllChanges(st, st.deviceOrder));
  }

  /** Each recent change is an entry of the history of the device it is tagged with. */
  lemma RecentChangesFromHistory(st: TrackerState, limit: int, c: DeviceChange)
    requires c in RecentChanges(st, limit)
    ensures c.deviceId in st.deviceOrder && c.change in HistoryOf(st, c.deviceId)
  {
    var all := AllChanges(st, st.deviceOrder);
    SortProperties(all);
    var r := RecentChanges(st, limit);
    var k :| 0 <= k < |r| && r[k] == c;
    assert SortByTimestampDesc(all)[k] == c;
    assert c in multiset(SortByTimestampDesc(all));
    AllChangesMembers(st, st.deviceOrder, c);
  }

  /** No change left out of the recent changes is newer than the oldest one kept. */
  lemma RecentChangesAreNewest(st: TrackerState, limit: int, c: DeviceChange)
    requires c in AllChanges(st, st.deviceOrder) && c !in RecentChanges(st, limit)
    requires RecentChanges(st, limit) != []
    ensures c.change.timestamp <= RecentChanges(st, limit)[|RecentChanges(st, limit)| - 1].change.timestamp
  {
    var all := AllChanges(st, st.deviceOrder);
    var sorted := SortByTimestampDesc(all);
    var r := RecentChanges(st, limit);
    SortProperties(all);
    assert c in multiset(sorted);
    var k :| 0 <= k < |sorted| && sorted[k] == c;
    assert forall i :: 0 <= i < |r| ==> r[i] == sorted[i] && r[i] != c;
    assert |r| - 1 < k;
    assert sorted[|r| - 1] == r[|r| - 1];
  }

  // ---------------------------------------------------------------------
  // get_changelog_text
  // ---------------------------------------------------------------------

  const NoChangesText := "No firmware changes recorded yet"

  /** A version string that Python treats as true. */
  predicate HasPrevious(c: Change)
  {
    c.previousVersion.Some? && c.previousVersion.value != ""
  }

  /** `"{prev} -> {version}"` when there is a previous version, else `"{version} (initial)"`. */
  function Transition(c: Change): string
  {
    if HasPrevious(c) then c.previousVersion.value + " -> " + c.version else c.version + " (initial)"
  }

  /** `"{date} | {device}: {transition}"` */
  function ChangelogLine(c: DeviceChange, dateLabel: int -> string): string
  {
    dateLabel(c.change.timestamp) + " | " + c.change.deviceName + ": " + Transition(c.change)
  }

  function ChangelogLines(changes: seq<DeviceChange>, dateLabel: int -> string): seq<string>
  {
    seq(|changes|, k requires 0 <= k < |changes| => ChangelogLine(changes[k], dateLabel))
  }

  /** `get_changelog_text()` */
  function ChangelogText(st: TrackerState, dateLabel: int -> string): string
  {
    var changes := RecentChanges(st, 50);
    if changes == [] then NoChangesText else Text.Join(ChangelogLines(changes, dateLabel), '\n')
  }

  /** No dates, device names or versions that contain a line break. */
  predicate SingleLineFields(st: TrackerState, dateLabel: int -> string)
  {
    forall c :: c in AllChanges(st, st.deviceOrder) ==>
      && '\n' !in dateLabel(c.change.timestamp)
      && '\n' !in c.change.deviceName
      && '\n' !in c.change.version
      && (c.change.previousVersion.Some? ==> '\n' !in c.change.previousVersion.value)
  }

  lemma LineHasNoBreak(c: DeviceChange, dateLabel: int -> string)
    requires '\n' !in dateLabel(c.change.timestamp) && '\n' !in c.change.deviceName && '\n' !in c.change.version
    requires c.change.previousVersion.Some? ==> '\n' !in c.change.previousVersion.value
    ensures '\n' !in ChangelogLine(c, dateLabel)
  {
  }

  lemma JoinStartsWithFirst(parts: seq<string>, sep: char)
    requires |parts| >= 1
    ensures |Text.Join(parts, sep)| >= |parts[0]|
    ensures Text.Join(parts, sep)[..|parts[0]|] == parts[0]
  {
  }

  /**
   * The changelog is the fixed message exactly when nothing was recorded;
   * otherwise, when no field holds a line break, it splits back into one line
   * per recent change, at most 50 of them.
   */
  lemma ChangelogProperties(st: TrackerState, dateLabel: int -> string)
    ensures ChangelogText(st, dateLabel) == NoChangesText <==> TotalChanges(st, st.deviceOrder) == 0
    ensures SingleLineFields(st, dateLabel) && TotalChanges(st, st.deviceOrder) > 0 ==>
      Text.Split(ChangelogText(st, dateLabel), '\n') == ChangelogLines(RecentChanges(st, 50), dateLabel)
      && |Text.Split(ChangelogText(st, dateLabel), '\n')| == (if TotalChanges(st, st.deviceOrder) < 50 then TotalChanges(st, st.deviceOrder) else 50)
  {
    RecentChangesCount(st, 50);
    if RecentChanges(st, 50) != [] {
      ChangelogNotPlaceholder(st, dateLabel);
      if SingleLineFields(st, dateLabel) {
        ChangelogSplitsIntoLines(st, dateLabel);
      }
    }
  }

  /** With a change to show, the text is not the placeholder: its first line has a `|`. */
  lemma ChangelogNotPlaceholder(st: TrackerState, dateLabel: int -> string)
    requires RecentChanges(st, 50) != []
    ensures ChangelogText(st, dateLabel) != NoChangesText
  {
    var changes := RecentChanges(st, 50);
    var lines := ChangelogLines(changes, dateLabel);
    var text := ChangelogText(st, dateLabel);
    var first := lines[0];
    var date := dateLabel(changes[0].change.timestamp);
    assert first[|date| + 1] == '|';
    JoinStartsWithFirst(lines, '\n');
    assert text[|date| + 1] == '|';
    assert '|' !in NoChangesText;
  }

  /** With single-line fields, splitting the text at line breaks gives back its lines. */
  lemma ChangelogSplitsIntoLines(st: TrackerState, dateLabel: int -> string)
    requires RecentChanges(st, 50) != [] && SingleLineFields(st, dateLabel)
    ensures Text.Split(ChangelogText(st, dateLabel), '\n') == ChangelogLines(RecentChanges(st, 50), dateLabel)
  {
    var changes := RecentChanges(st, 50);
    var lines := ChangelogLines(changes, dateLabel);
    forall k | 0 <= k < |lines| ensures '\n' !in lines[k] {
      var c := changes[k];
      RecentChangesFromHistory(st, 50, c);
      AllChangesMembers(st, st.deviceOrder, c);
      LineHasNoBreak(c, dateLabel);
    }
    Text.SplitJoin(lines, '\n');
  }

  // ---------------------------------------------------------------------
  // get_summary
  // ---------------------------------------------------------------------

  /** A device's name from its last history entry, else its id. */
  function DisplayName(st: TrackerState, deviceId: string): string
  {
    var h := HistoryOf(st, deviceId);
    if h == [] then deviceId else h[|h| - 1].deviceName
  }

  /** `version_groups` after visiting the devices `ids` in order. */
  function VersionGroups(st: TrackerState, ids: seq<string>): map<string, seq<string>>
  {
    if ids == [] then map[]
    else
      var groups := VersionGroups(st, ids[..|ids| - 1]);
      var id := ids[|ids| - 1];
      if id !in st.currentVersions then groups
      else
        var v := st.currentVersions[id];
        groups[v := (if v in groups then groups[v] else []) + [DisplayName(st, id)]]
  }

  /** The names of the devices among `ids` whose current version is `v`, in order. */
  function NamesWithVersion(st: TrackerState, ids: seq<string>, v: string): seq<string>
  {
    if ids == [] then []
    else
      var id := ids[|ids| - 1];
      NamesWithVersion(st, ids[..|ids| - 1], v)
      + (if id in st.currentVersions && st.currentVersions[id] == v then [DisplayName(st, id)] else [])
  }

  /** The current versions of the devices among `ids`. */
  function VersionsOf(st: TrackerState, ids: seq<string>): set<string>
  {
    set id | id in ids && id in st.currentVersions :: st.currentVersions[id]
  }

  /**
   * `version_groups` has one group per distinct current version, and the
   * group of `v` lists, in device order, the names of exactly the devices on
   * version `v`.
   */
  lemma {:induction false} VersionGroupsExact(st: TrackerState, ids: seq<string>)
    ensures VersionGroups(st, ids).Keys == VersionsOf(st, ids)
    ensures forall v :: v in VersionGroups(st, ids) ==> VersionGroups(st, ids)[v] == NamesWithVersion(st, ids, v)
    ensures forall v :: v !in VersionGroups(st, ids) ==> NamesWithVersion(st, ids, v) == []
  {
    VersionGroupsKeys(st, ids);
    VersionGroupsNames(st, ids);
  }

  lemma {:induction false} VersionGroupsKeys(st: TrackerState, ids: seq<string>)
    ensures VersionGroups(st, ids).Keys == VersionsOf(st, ids)
  {
    if ids != [] {
      var init, id := ids[..|ids| - 1], ids[|ids| - 1];
      VersionGroupsKeys(st, init);
      assert ids == init + [id];
      assert forall x :: x in ids <==> x in init || x == id;
    }
  }

  lemma {:induction false} VersionGroupsNames(st: TrackerState, ids: seq<string>)
    ensures forall v :: NamesWithVersion(st, ids, v) == if v in VersionGroups(st, ids) then VersionGroups(st, ids)[v] else []
  {
    if ids != [] {
      var init, id := ids[..|ids| - 1], ids[|ids| - 1];
      VersionGroupsNames(st, init);
      var groups := VersionGroups(st, init);
      forall v ensures NamesWithVersion(st, ids, v) == if v in VersionGroups(st, ids) then VersionGroups(st, ids)[v] else [] {
        assert NamesWithVersion(st, ids, v) == NamesWithVersion(st, init, v)
          + (if id in st.currentVersions && st.currentVersions[id] == v then [DisplayName(st, id)] else []);
      }
    }
  }

  /** `get_summary()` */
  datatype Summary = Summary(
    totalDevices: nat,
    uniqueVersions: nat,
    totalChanges: nat,
    versionGroups: map<string, seq<string>>)

  function SummaryOf(st: TrackerState): Summary
  {
    var groups := VersionGroups(st, st.deviceOrder);
    Summary(|st.currentVersions|, |groups.Keys|, TotalChanges(st, st.deviceOrder), groups)
  }

  /**
   * In a consistent state the summary counts every device once, has as many
   * groups as distinct current versions, counts every recorded change, and
   * files each device under its current version.
   */
  lemma {:induction false} SummaryProperties(st: TrackerState)
    requires Consistent(st)
    ensures var s := SummaryOf(st);
      && s.totalDevices == |st.deviceOrder|
      && s.uniqueVersions == |VersionsOf(st, st.deviceOrder)|
      && s.totalChanges == |AllChanges(st, st.deviceOrder)|
      && (forall id :: id in st.deviceOrder ==>
            (st.currentVersions[id] in s.versionGroups && DisplayName(st, id) in s.versionGroups[st.currentVersions[id]]))
  {
    VersionGroupsExact(st, st.deviceOrder);
    AllChangesCount(st, st.deviceOrder);
    Text.DistinctCount(st.deviceOrder, st.currentVersions.Keys);
    forall id | id in st.deviceOrder
      ensures st.currentVersions[id] in SummaryOf(st).versionGroups
        && DisplayName(st, id) in SummaryOf(st).versionGroups[st.currentVersions[id]]
    {
      NamedWhenOnVersion(st, st.deviceOrder, id);
    }
  }

  lemma {:induction false} NamedWhenOnVersion(st: TrackerState, ids: seq<string>, id: string)
    requires id in ids && id in st.currentVersions
    ensures DisplayName(st, id) in NamesWithVersion(st, ids, st.currentVersions[id])
  {
    var init, last := ids[..|ids| - 1], ids[|ids| - 1];
    assert ids == init + [last];
    if last != id {
      NamedWhenOnVersion(st, init, id);
    }
  }

  /** The first loop of `get_summary`: device names grouped by current version. */
  method GroupByVersion(st: TrackerState) returns (groups: map<string, seq<string>>)
    ensures groups == VersionGroups(st, st.deviceOrder)
  {
    var order := st.deviceOrder;
    groups := map[];
    for i := 0 to |order|
      invariant groups == VersionGroups(st, order[..i])
    {
      var id := order[i];
      assert order[..i + 1][..i] == order[..i];
      if id in st.currentVersions {
        var version := st.currentVersions[id];
        if version !in groups {
          groups := groups[version := []];
        }
        var h := HistoryOf(st, id);
        var name := if h != [] then h[|h| - 1].deviceName else id;
        groups := groups[version := groups[version] + [name]];
      }
    }
    assert order[..|order|] == order;
  }

  /** The second loop of `get_summary`: the number of history entries. */
  method CountChanges(st: TrackerState) returns (total: nat)
    ensures total == TotalChanges(st, st.deviceOrder)
  {
    var order := st.deviceOrder;
    total := 0;
    for i := 0 to |order|
      invariant total == TotalChanges(st, order[..i])
    {
      assert order[..i + 1][..i] == order[..i];
      total := total + |HistoryOf(st, order[i])|;
    }
    assert order[..|order|] == order;
  }

  // ---------------------------------------------------------------------
  // The tracker object
  // ---------------------------------------------------------------------

  class FirmwareHistoryTracker {
    var history: map<string, seq<Change>>
    var currentVersions: map<string, string>
    var deviceOrder: seq<string>

    function State(): TrackerState
      reads this
    {
      TrackerState(history, currentVersions, deviceOrder)
    }

    predicate Valid()
      reads this
    {
      Consistent(State())
    }

    constructor()
      ensures Valid()
      ensures State() == Empty
    {
      history := map[];
      currentVersions := map[];
      deviceOrder := [];
    }

    /** `check_and_update(device_id, device_name, firmware_version)` at clock reading `now`. */
    method CheckAndUpdate(deviceId: string, deviceName: string, firmwareVersion: Option<string>, now: int)
      returns (change: Option<Change>)
      requires Valid()
      modifies this
      ensures Valid()
      ensures (State(), change) == CheckStep(old(State()), deviceId, deviceName, firmwareVersion, now)
    {
      CheckStepConsistent(State(), deviceId, deviceName, firmwareVersion, now);
      if firmwareVersion.None? || firmwareVersion.value == "" || firmwareVersion.value == "unavailable" || firmwareVersion.value == "unknown" {
        return None;
      }
      var version := firmwareVersion.value;
      var previous := if deviceId in currentVersions then Some(currentVersions[deviceId]) else None;
      if previous != Some(version) {
        var entry := Change(version, previous, now, deviceName);
        var deviceHistory: seq<Change> := [];
        if deviceId in history {
          deviceHistory := history[deviceId];
        } else {
          deviceOrder := deviceOrder + [deviceId];
        }
        history := history[deviceId := deviceHistory + [entry]];
        currentVersions := currentVersions[deviceId := version];
        return Some(entry);
      }
      return None;
    }

    /** `get_device_history(device_id)` */
    function GetDeviceHistory(deviceId: string): (h: seq<Change>)
      reads this
      requires Valid()
      ensures h == [] <==> deviceId !in deviceOrder
      ensures h != [] ==> deviceId in currentVersions && h[|h| - 1].version == currentVersions[deviceId]
    {
      HistoryOf(State(), deviceId)
    }

    /** `get_recent_changes(limit)`: collect every tagged entry, sort newest first, slice. */
    method GetRecentChanges(limit: int) returns (changes: seq<DeviceChange>)
      ensures changes == RecentChanges(State(), limit)
    {
      var st := State();
      var order := deviceOrder;
      var all: seq<DeviceChange> := [];
      var i := 0;
      while i < |order|
        invariant 0 <= i <= |order|
        invariant all == AllChanges(st, order[..i])
      {
        var id := order[i];
        var h := HistoryOf(st, id);
        var j := 0;
        while j < |h|
          invariant 0 <= j <= |h|
          invariant all == AllChanges(st, order[..i]) + Tagged(id, h[..j])
        {
          TaggedStep(id, h, j);
          all := all + [DeviceChange(id, h[j])];
          j := j + 1;
        }
        assert h[..j] == h;
        AllChangesStep(st, order, i);
        i := i + 1;
      }
      assert order[..i] == order;
      changes := SliceTo(SortByTimestampDesc(all), limit);
    }

    /** `get_changelog_text()`, with `dateLabel` standing for the date formatting of a timestamp. */
    method GetChangelogText(dateLabel: int -> string) returns (text: string)
      ensures text == ChangelogText(State(), dateLabel)
    {
      var changes := GetRecentChanges(50);
      if changes == [] {
        return NoChangesText;
      }
      var lines: seq<string> := [];
      var i := 0;
      while i < |changes|
        invariant 0 <= i <= |changes|
        invariant |lines| == i
        invariant forall k :: 0 <= k < i ==> lines[k] == ChangelogLine(changes[k], dateLabel)
      {
        lines := lines + [ChangelogLine(changes[i], dateLabel)];
        i := i + 1;
      }
      assert lines == ChangelogLines(changes, dateLabel);
      text := Text.Join(lines, '\n');
    }

    /** `get_summary()` */
    method GetSummary() returns (summary: Summary)
      ensures summary == SummaryOf(State())
    {
      var st := State();
      var groups := GroupByVersion(st);
      var total := CountChanges(st);
      summary := Summary(|st.currentVersions|, |groups.Keys|, total, groups);
    }
  }
}
