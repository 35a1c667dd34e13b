/**
 * The value types nested in `LibCameraModel`: the machine integer ranges of
 * the fields, the composite records with their canonical `ToString()`, the
 * closed enums with their declared names, and the patterns that the
 * (unmodelled) validation attributes state for some string fields.
 */
module CameraValues {
  import opened Wrappers
  import opened Decimal
  import opened Text

  /** C# `uint`, `ushort` and `int`. */
  type uint32 = x: nat | x < 0x1_0000_0000
  type uint16 = x: nat | x < 0x1_0000
  type int32 = x: int | -0x8000_0000 <= x < 0x8000_0000

  /** A text that denotes a `uint` in decimal. */
  predicate IsUintText(t: string) {
    |t| >= 1 && AllDigits(t) && DecimalValue(t) < 0x1_0000_0000
  }

  function UintValue(t: string): uint32
    requires IsUintText(t)
  {
    DecimalValue(t)
  }

  lemma UintTextRoundTrip(n: uint32)
    ensures IsUintText(NatToDecimal(n)) && UintValue(NatToDecimal(n)) == n
  {
    DecimalRoundTrip(n);
  }

  /** Decimal digits never contain a separator such as `,` or `:`. */
  lemma DecimalAvoids(n: nat, c: char)
    requires !IsDigit(c)
    ensures c !in NatToDecimal(n)
  {
  }

  // ---------------------------------------------------------------- records

  /** Preview window: `x,y,width,height`. */
  datatype PreviewModel = PreviewModel(x: uint32, y: uint32, width: uint32, height: uint32) {

    function ToString(): (s: string)
      ensures Split(s, ',') == [NatToDecimal(x), NatToDecimal(y), NatToDecimal(width), NatToDecimal(height)]
    {
      var parts := [NatToDecimal(x), NatToDecimal(y), NatToDecimal(width), NatToDecimal(height)];
      DecimalAvoids(x, ','); DecimalAvoids(y, ','); DecimalAvoids(width, ','); DecimalAvoids(height, ',');
      SplitJoin(parts, ',');
      JoinFour(parts, ',');
      NatToDecimal(x) + "," + NatToDecimal(y) + "," + NatToDecimal(width) + "," + NatToDecimal(height)
    }
  }

  function ParsePreview(s: string): Option<PreviewModel> {
    var p := Split(s, ',');
    if |p| == 4 && IsUintText(p[0]) && IsUintText(p[1]) && IsUintText(p[2]) && IsUintText(p[3])
    then Some(PreviewModel(UintValue(p[0]), UintValue(p[1]), UintValue(p[2]), UintValue(p[3])))
    else None
  }

  lemma PreviewRoundTrip(p: PreviewModel)
    ensures ParsePreview(p.ToString()) == Some(p)
  {
    UintTextRoundTrip(p.x); UintTextRoundTrip(p.y);
    UintTextRoundTrip(p.width); UintTextRoundTrip(p.height);
  }

  /**
   * Region of interest, `x,y,relateWidth,relateHeight`. Each coordinate is a
   * `double` rendered by `fmt`, the number-to-text conversion of the runtime.
   */
  datatype ROIModel = ROIModel(x: real, y: real, relateWidth: real, relateHeight: real) {

    function ToString(fmt: real -> string): (s: string)
      ensures (',' !in fmt(x) && ',' !in fmt(y) && ',' !in fmt(relateWidth) && ',' !in fmt(relateHeight))
              ==> Split(s, ',') == [fmt(x), fmt(y), fmt(relateWidth), fmt(relateHeight)]
    {
      var parts := [fmt(x), fmt(y), fmt(relateWidth), fmt(relateHeight)];
      var s := fmt(x) + "," + fmt(y) + "," + fmt(relateWidth) + "," + fmt(relateHeight);
      assert (forall k :: 0 <= k < 4 ==> ',' !in parts[k]) ==> Split(s, ',') == parts by {
        if forall k :: 0 <= k < 4 ==> ',' !in parts[k] {
          SplitJoin(parts, ',');
          JoinFour(parts, ',');
        }
      }
      s
    }
  }

  /** Red and blue gains: `red,blue`. */
  datatype AWBGainsModel = AWBGainsModel(red: uint32, blue: uint32) {

    function ToString(): (s: string)
      ensures Split(s, ',') == [NatToDecimal(red), NatToDecimal(blue)]
    {
      DecimalAvoids(red, ','); DecimalAvoids(blue, ',');
      SplitJoin([NatToDecimal(red), NatToDecimal(blue)], ',');
      NatToDecimal(red) + "," + NatToDecimal(blue)
    }
  }

  function ParseAWBGains(s: string): Option<AWBGainsModel> {
    var p := Split(s, ',');
    if |p| == 2 && IsUintText(p[0]) && IsUintText(p[1])
    then Some(AWBGainsModel(UintValue(p[0]), UintValue(p[1])))
    else None
  }

  lemma AWBGainsRoundTrip(g: AWBGainsModel)
    ensures ParseAWBGains(g.ToString()) == Some(g)
  {
    UintTextRoundTrip(g.red); UintTextRoundTrip(g.blue);
  }

  /** Sensor mode: `w:h:bitDepth:P` when packed, `...:U` when unpacked. */
  datatype ModeModel = ModeModel(w: uint32, h: uint32, bitDepth: uint32, isPacked: bool) {

    function ToString(): (s: string)
      ensures Split(s, ':') == [NatToDecimal(w), NatToDecimal(h), NatToDecimal(bitDepth), if isPacked then "P" else "U"]
    {
      var packing := if isPacked then "P" else "U";
      var parts := [NatToDecimal(w), NatToDecimal(h), NatToDecimal(bitDepth), packing];
      DecimalAvoids(w, ':'); DecimalAvoids(h, ':'); DecimalAvoids(bitDepth, ':');
      SplitJoin(parts, ':');
      JoinFour(parts, ':');
      NatToDecimal(w) + ":" + NatToDecimal(h) + ":" + NatToDecimal(bitDepth) + ":" + packing
    }
  }

  function ParseMode(s: string): Option<ModeModel> {
    var p := Split(s, ':');
    if |p| == 4 && IsUintText(p[0]) && IsUintText(p[1]) && IsUintText(p[2]) && (p[3] == "P" || p[3] == "U")
    then Some(ModeModel(UintValue(p[0]), UintValue(p[1]), UintValue(p[2]), p[3] == "P"))
    else None
  }

  lemma ModeRoundTrip(m: ModeModel)
    ensures ParseMode(m.ToString()) == Some(m)
  {
    UintTextRoundTrip(m.w); UintTextRoundTrip(m.h); UintTextRoundTrip(m.bitDepth);
  }

  /** Number of leading decimal digits of `s`. */
  function LeadingDigits(s: string): (k: nat)
    ensures k <= |s| && AllDigits(s[..k])
    ensures k < |s| ==> !IsDigit(s[k])
    decreases |s|
  {
    if s == [] || !IsDigit(s[0]) then 0
    else
      var k := 1 + LeadingDigits(s[1..]);
      assert s[..k] == [s[0]] + s[1..][..k - 1];
      k
  }

  /** Reads a `value` immediately followed by `units`, the shape of a measure's text. */
  function ParseMeasure(s: string): Option<(nat, string)> {
    var k := LeadingDigits(s);
    if k == 0 then None else Some((DecimalValue(s[..k]), s[k..]))
  }

  /**
   * `s` is a canonical decimal number directly followed by `units`: the
   * digits before the units carry no leading zero and denote `value`.
   */
  predicate IsMeasureText(s: string, value: nat, units: string) {
    |s| > |units| && s[|s| - |units|..] == units
    && var d := s[..|s| - |units|];
       AllDigits(d) && (d[0] == '0' ==> d == "0") && DecimalValue(d) == value
  }

  /** Text of a value with its units, shared by flicker period and bitrate. */
  function MeasureText(value: uint32, units: string): (s: string)
    ensures IsMeasureText(s, value, units)
    ensures (units == [] || !IsDigit(units[0])) ==> ParseMeasure(s) == Some((value as nat, units))
  {
    var digits := NatToDecimal(value);
    var s := digits + units;
    assert s[..|digits|] == digits && s[|digits|..] == units;
    DecimalRoundTrip(value);
    assert (units == [] || !IsDigit(units[0])) ==> ParseMeasure(s) == Some((value as nat, units)) by {
      if units == [] || !IsDigit(units[0]) {
        LeadingDigitsOfPrefix(digits, units);
      }
    }
    s
  }

  /** A value and its units fix the measure text: there is exactly one. */
  lemma MeasureTextUnique(s: string, value: nat, units: string)
    requires IsMeasureText(s, value, units)
    ensures s == NatToDecimal(value) + units
  {
    var d := s[..|s| - |units|];
    CanonicalDecimal(d);
    assert s == d + units;
  }

  lemma {:induction false} LeadingDigitsOfPrefix(digits: string, rest: string)
    requires AllDigits(digits)
    requires rest == [] || !IsDigit(rest[0])
    ensures LeadingDigits(digits + rest) == |digits|
    decreases |digits|
  {
    if digits == [] {
      assert digits + rest == rest;
    } else {
      assert (digits + rest)[1..] == digits[1..] + rest;
      LeadingDigitsOfPrefix(digits[1..], rest);
    }
  }

  /** Flicker period: the decimal value immediately followed by its units. */
  datatype FlickerPeriodModel = FlickerPeriodModel(units: string, value: uint32) {

    function ToString(): (s: string)
      ensures IsMeasureText(s, value, units)
      ensures (units == [] || !IsDigit(units[0])) ==> ParseMeasure(s) == Some((value as nat, units))
    {
      MeasureText(value, units)
    }
  }

  /** Bitrate: the decimal value immediately followed by its units. */
  datatype BitrateModel = BitrateModel(units: string, value: uint32) {

    function ToString(): (s: string)
      ensures IsMeasureText(s, value, units)
      ensures (units == [] || !IsDigit(units[0])) ==> ParseMeasure(s) == Some((value as nat, units))
    {
      MeasureText(value, units)
    }
  }

  /** Without the units pattern the text of a measure is ambiguous. */
  lemma MeasureNeedsUnitsPattern()
    ensures FlickerPeriodModel("5s", 1).ToString() == FlickerPeriodModel("s", 15).ToString()
  {
  }

  // ------------------------------------------------- attribute patterns

  /** `[um]?s`, matched against the whole string. */
  predicate FlickerUnitsValid(u: string) {
    u == "s" || u == "us" || u == "ms"
  }

  predicate RateSuffix(t: string) {
    |t| == 3 && (t[0] == 'B' || t[0] == 'b') && t[1] == 'p' && (t[2] == 's' || t[2] == 'm' || t[2] == 'h')
  }

  /** `[GMK]?[Bb]p[smh]`, matched against the whole string. */
  predicate BitrateUnitsValid(u: string) {
    RateSuffix(u) || (|u| == 4 && (u[0] == 'G' || u[0] == 'M' || u[0] == 'K') && RateSuffix(u[1..]))
  }

  /** Units that follow their pattern start with a letter, so the measure reads back. */
  lemma ValidUnitsReadBack(f: FlickerPeriodModel, b: BitrateModel)
    requires FlickerUnitsValid(f.units) && BitrateUnitsValid(b.units)
    ensures ParseMeasure(f.ToString()) == Some((f.value as nat, f.units))
    ensures ParseMeasure(b.ToString()) == Some((b.value as nat, b.units))
  {
  }

  /** `(0)|(default)`, matched against the whole string. */
  predicate LensPositionValid(s: string) {
    s == "0" || s == "default"
  }

  predicate IsWordChar(c: char) {
    IsDigit(c) || IsUpper(c) || ('a' <= c <= 'z') || c == '_'
  }

  /** `([\d\w_]+)|(-)`, matched against the whole string, with `\w` read as ASCII. */
  predicate MetadataValid(s: string) {
    s == "-" || (|s| >= 1 && forall i :: 0 <= i < |s| ==> IsWordChar(s[i]))
  }

  // ------------------------------------------------------------------ enums

  datatype MeteringEnum = Centre | Spot | Average | Custom {
    function Name(): string {
      match this
      case Centre => "Centre" case Spot => "Spot" case Average => "Average" case Custom => "Custom"
    }
  }

  datatype ExposureEnum = Normal | Sport {
    function Name(): string {
      match this
      case Normal => "Normal" case Sport => "Sport"
    }
  }

  datatype AWBEnum = Auto | Incandescent | Tungsten | Fluorescent | Indoor | Daylight | Cloudy | Custom {
    function Name(): string {
      match this
      case Auto => "Auto" case Incandescent => "Incandescent" case Tungsten => "Tungsten"
      case Fluorescent => "Fluorescent" case Indoor => "Indoor" case Daylight => "Daylight"
      case Cloudy => "Cloudy" case Custom => "Custom"
    }
  }

  datatype DenoiseEnum = auto | off | cdn_off | cdn_fast | cdn_hq {
    function Name(): string {
      match this
      case auto => "auto" case off => "off" case cdn_off => "cdn_off"
      case cdn_fast => "cdn_fast" case cdn_hq => "cdn_hq"
    }
  }

  datatype AutoFocusModeEnum = Manual | Auto | Continuous {
    function Name(): string {
      match this
      case Manual => "Manual" case Auto => "Auto" case Continuous => "Continuous"
    }
  }

  datatype AutoFocusRangeEnum = Normal | Macro | Full {
    function Name(): string {
      match this
      case Normal => "Normal" case Macro => "Macro" case Full => "Full"
    }
  }

  datatype AutoFocusSpeedEnum = Normal | Fast {
    function Name(): string {
      match this
      case Normal => "Normal" case Fast => "Fast"
    }
  }

  datatype HDREnum = Off | Auto | Sensor | SingleExp {
    function Name(): string {
      match this
      case Off => "Off" case Auto => "Auto" case Sensor => "Sensor" case SingleExp => "SingleExp"
    }
  }

  datatype MetadataFormatEnum = Txt | Json {
    function Name(): string {
      match this
      case Txt => "Txt" case Json => "Json"
    }
  }

  datatype CodecEnum = H264 | Libav | Mjpeg | Yuv420 {
    function Name(): string {
      match this
      case H264 => "H264" case Libav => "Libav" case Mjpeg => "Mjpeg" case Yuv420 => "Yuv420"
    }
  }

  datatype InitialEnum = Pause | Record {
    function Name(): string {
      match this
      case Pause => "Pause" case Record => "Record"
    }
  }
}
