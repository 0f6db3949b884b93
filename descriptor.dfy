/**
 * A sensor description of the catalog (`RingExtendedSensorDescription`):
 * which attribute path it reads, whether it is available on a device, and
 * the value it reports, including the five descriptors that carry a value
 * function.
 */
module SensorDescription {
  import opened Wrappers
  import opened AttrTree
  import Text

  /** The value functions of the catalog, named after the sensor that carries each. */
  datatype ValueFn = EgressTxRate | UptimeFormatted | LastUpdateTime | AcPower | FirmwareAvgBitrate

  /**
   * A descriptor: sensor key, category, dotted attribute path and optional
   * value function.  No catalog entry sets an availability function, so the
   * record has no field for one.
   */
  datatype Descriptor = Descriptor(key: string, category: string, attrPath: string, valueFn: Option<ValueFn>)

  /** What a descriptor reports for a device. */
  datatype Reading =
    | Raw(node: Node)          // the value `get_nested` found (Null when it found none)
    | NoValue                  // a value function returned None
    | Number(n: int)           // `float(v)` or `int(v)` of an integer or a boolean
    | Flag(b: bool)            // `bool(int(v))`
    | Text(s: string)          // a formatted uptime
    | Instant(seconds: int)    // the UTC datetime at this Unix time
    | Unconverted(node: Node)  // a coercion applied to a string, dict or list, which the model does not convert

  /** The path written into each value function's lambda. */
  function ValueFnPath(f: ValueFn): string
  {
    match f
    case EgressTxRate => "health.egress_tx_rate"
    case UptimeFormatted => "health.uptime_sec"
    case LastUpdateTime => "health.last_update_time"
    case AcPower => "health.ac_power"
    case FirmwareAvgBitrate => "health.firmware_avg_bitrate"
  }

  /** `_value_exists`: the path resolves to something other than None. */
  predicate ValueExists(attrs: Node, path: string)
  {
    !NestedValue(attrs, path, Null).Null?
  }

  /** `is_available` of a descriptor without an availability function. */
  predicate IsAvailable(d: Descriptor, attrs: Node)
  {
    ValueExists(attrs, d.attrPath)
  }

  /** A descriptor is available exactly when a value other than None is stored at its path. */
  lemma {:induction false} AvailableIffStored(d: Descriptor, attrs: Node)
    ensures IsAvailable(d, attrs) <==>
      (ValueAt(attrs, PathKeys(d.attrPath)).Some? && !ValueAt(attrs, PathKeys(d.attrPath)).value.Null?)
  {
    ResolveIsValueAt(attrs, PathKeys(d.attrPath));
  }

  /** Python's `int(b)` of a boolean. */
  function BoolToInt(b: bool): int
  {
    if b then 1 else 0
  }

  /** Days, hours and minutes of a second count, by floor division as Python's `//` and `%` do. */
  function UptimeParts(seconds: int): (parts: (int, int, int))
    ensures 0 <= parts.1 <= 23 && 0 <= parts.2 <= 59
    ensures parts.0 * 86400 + parts.1 * 3600 + parts.2 * 60 <= seconds
    ensures seconds < parts.0 * 86400 + parts.1 * 3600 + parts.2 * 60 + 60
  {
    var days := seconds / 86400;
    var hours := (seconds % 86400) / 3600;
    var minutes := (seconds % 3600) / 60;
    UptimeArithmetic(seconds, days, hours, minutes);
    (days, hours, minutes)
  }

  lemma UptimeArithmetic(s: int, days: int, hours: int, minutes: int)
    requires days == s / 86400 && hours == (s % 86400) / 3600 && minutes == (s % 3600) / 60
    ensures 0 <= hours <= 23 && 0 <= minutes <= 59
    ensures days * 86400 + hours * 3600 + minutes * 60 <= s < days * 86400 + hours * 3600 + minutes * 60 + 60
  {
    var r := s % 86400;
    var q := r % 3600;
    DivModSplit(s, 86400);
    DivModSplit(r, 3600);
    assert 0 <= hours <= 23 by { HourBound(r, hours); }
    ModOfMultiple(s, days * 24 + hours, q);
    DivModSplit(q, 60);
  }

  lemma DivModSplit(x: int, k: int)
    requires k > 0
    ensures x == (x / k) * k + x % k && 0 <= x % k < k
  {
  }

  lemma HourBound(r: int, hours: int)
    requires 0 <= r < 86400 && hours == r / 3600
    ensures 0 <= hours <= 23
  {
  }

  lemma ModOfMultiple(s: int, a: int, q: int)
    requires 0 <= q < 3600 && s == a * 3600 + q
    ensures s % 3600 == q
  {
  }

  /** The days, hours and minutes within those bounds are the only ones that fit a second count. */
  lemma {:induction false} UptimePartsUnique(s: int, d: int, h: int, m: int)
    requires 0 <= h <= 23 && 0 <= m <= 59
    requires d * 86400 + h * 3600 + m * 60 <= s < d * 86400 + h * 3600 + m * 60 + 60
    ensures UptimeParts(s) == (d, h, m)
  {
    var (d', h', m') := UptimeParts(s);
    var a := d * 1440 + h * 60 + m;
    var a' := d' * 1440 + h' * 60 + m';
    assert a * 60 <= s < a * 60 + 60;
    assert a' * 60 <= s < a' * 60 + 60;
    assert a == a';
    assert d == d' by {
      assert 0 <= h * 60 + m < 1440 && 0 <= h' * 60 + m' < 1440;
    }
    assert h * 60 + m == h' * 60 + m';
  }

  /** `_format_uptime` of an integer number of seconds: `"{days}d {hours}h {minutes}m"`. */
  function FormatUptime(seconds: int): string
  {
    var (days, hours, minutes) := UptimeParts(seconds);
    Text.IntToString(days) + "d " + Text.IntToString(hours) + "h " + Text.IntToString(minutes) + "m"
  }

  /** The three fields of a formatted uptime, each a number followed by its unit. */
  function UptimeFields(seconds: nat): seq<string>
  {
    var (days, hours, minutes) := UptimeParts(seconds);
    [Text.NatToString(days) + "d", Text.NatToString(hours) + "h", Text.NatToString(minutes) + "m"]
  }

  /**
   * For a non-negative count, splitting the text at spaces gives the three
   * fields, and reading each number back gives the days, hours and minutes.
   */
  lemma {:induction false} FormatUptimeReadsBack(seconds: nat)
    ensures Text.Split(FormatUptime(seconds), ' ') == UptimeFields(seconds)
    ensures var f := UptimeFields(seconds);
      UptimeParts(seconds)
        == (Text.ParseNat(f[0][..|f[0]| - 1]), Text.ParseNat(f[1][..|f[1]| - 1]), Text.ParseNat(f[2][..|f[2]| - 1]))
  {
    var (days, hours, minutes) := UptimeParts(seconds);
    var f := UptimeFields(seconds);
    assert days >= 0;
    forall i | 0 <= i < 3 ensures ' ' !in f[i] {
      var digits := [Text.NatToString(days), Text.NatToString(hours), Text.NatToString(minutes)][i];
      assert f[i] == digits + [f[i][|f[i]| - 1]];
    }
    assert Text.Join(f, ' ') == FormatUptime(seconds) by {
      assert Text.Join(f[2..], ' ') == f[2];
      assert f[1..][1..] == f[2..];
    }
    Text.SplitJoin(f, ' ');
    assert f[0][..|f[0]| - 1] == Text.NatToString(days);
    assert f[1][..|f[1]| - 1] == Text.NatToString(hours);
    assert f[2][..|f[2]| - 1] == Text.NatToString(minutes);
    Text.NatToStringRoundTrip(days);
    Text.NatToStringRoundTrip(hours);
    Text.NatToStringRoundTrip(minutes);
  }

  /** What a value function returns for the device attributes. */
  function ApplyValueFn(f: ValueFn, attrs: Node): Reading
  {
    var v := NestedValue(attrs, ValueFnPath(f), Null);
    match f
    case EgressTxRate =>
      if !Truthy(v) then NoValue
      else if v.Int? then Number(v.i)
      else if v.Bool? then Number(BoolToInt(v.b))
      else Unconverted(v)
    case UptimeFormatted =>
      if v.Null? then NoValue
      else if v.Int? then Text(FormatUptime(v.i))
      else if v.Bool? then Text(FormatUptime(BoolToInt(v.b)))
      else if v.Str? then Unconverted(v)
      else NoValue
    case LastUpdateTime =>
      if v.Int? then Instant(v.i)
      else if v.Bool? then Instant(BoolToInt(v.b))
      else NoValue
    case AcPower =>
      if v.Null? then NoValue
      else if v.Int? then Flag(v.i != 0)
      else if v.Bool? then Flag(v.b)
      else Unconverted(v)
    case FirmwareAvgBitrate =>
      if !Truthy(v) then NoValue
      else if v.Int? then Number(v.i)
      else if v.Bool? then Number(BoolToInt(v.b))
      else Unconverted(v)
  }

  /** Every value function returns nothing when its own path holds nothing. */
  lemma MissingGivesNoValue(f: ValueFn, attrs: Node)
    ensures !ValueExists(attrs, ValueFnPath(f)) ==> ApplyValueFn(f, attrs) == NoValue
  {
  }

  /**
   * `get_value`: the value function's result if there is one, else the value
   * at the descriptor's path.
   */
  function GetValue(d: Descriptor, attrs: Node): (r: Reading)
    ensures d.valueFn.None? ==> r.Raw? && (r.node.Null? <==> !IsAvailable(d, attrs))
    ensures d.valueFn.Some? && ValueFnPath(d.valueFn.value) == d.attrPath && !IsAvailable(d, attrs)
      ==> r == NoValue
  {
    match d.valueFn
    case Some(f) => MissingGivesNoValue(f, attrs); ApplyValueFn(f, attrs)
    case None => Raw(NestedValue(attrs, d.attrPath, Null))
  }
}
