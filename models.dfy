/**
 * The wire codes of the service's enumerations (their `Display` and
 * `Deserialize` implementations), the request-side records, and chrono's
 * `%H:%M` time-of-day format and parse.
 *
 * Every decoder fails closed: a code outside its table is an error, never a
 * fallback variant. Each `Code` states that its code decodes back to the
 * variant; the lemmas beside each decoder state the other direction.
 */
module Models {
  import opened Wrappers
  import opened Decimal
  import opened Query

  /** Rust's `u8`. */
  type U8 = n: int | 0 <= n < 256

  /** One stop/service/destination triple of a bus-times request. */
  datatype Timetable = Timetable(
    stopId: string,
    serviceReference: string,
    destinationReference: string,
    operatorId: Operator)

  // ---------------------------------------------------------------- Operator

  datatype Operator = LothianBuses | AllOperators {
    /**
     * The `Display` code, sent as `operatorId` or `operator`: a plain query
     * value, never the decode-only alias "ALL", that decodes to this operator.
     */
    function Code(): (r: string)
      ensures NoSeparator(r) && r != "ALL"
      ensures DecodeOperator(r) == Ok(this)
    {
      match this
      case LothianBuses => "LB"
      case AllOperators => "0"
    }
  }

  /** Deserialization of an operator code: "ALL" is accepted as an alias of "0". */
  function DecodeOperator(s: string): (r: Result<Operator, string>)
    ensures r.Ok? <==> s == "LB" || s == "0" || s == "ALL"
    ensures s == "ALL" ==> r == Ok(AllOperators)
    ensures r.Err? ==> r.error == "Unknown Operator: " + s
  {
    match s
    case "LB" => Ok(LothianBuses)
    case "0" => Ok(AllOperators)
    case "ALL" => Ok(AllOperators)
    case _ => Err("Unknown Operator: " + s)
  }

  /** Every accepted code other than the alias is the display code of what it decodes to. */
  lemma OperatorDecodedCode(s: string)
    requires DecodeOperator(s).Ok? && s != "ALL"
    ensures DecodeOperator(s).value.Code() == s
  {
  }

  // ------------------------------------------------------ JourneyIdentifier

  /** Journey-times lookups name exactly one of a journey or a bus (fleet number). */
  datatype JourneyIdentifier = JourneyId(journey: string) | BusId(bus: string)

  // -------------------------------------------------------- JourneyTimeMode

  datatype JourneyTimeMode = All | NextReference {
    /** The `Display` code, sent as `mode`: a single decimal digit. */
    function Code(): (r: string)
      ensures |r| == 1 && AllDigits(r)
    {
      match this
      case All => "0"
      case NextReference => "1"
    }
  }

  lemma JourneyTimeModeCodesDistinct(a: JourneyTimeMode, b: JourneyTimeMode)
    requires a.Code() == b.Code()
    ensures a == b
  {
  }

  // ---------------------------------------------------------- DisruptionType

  datatype DisruptionType = All | Network | Service | BusStop {
    /** The `Display` code, sent as `type`: the decimal `u8` the type decodes from. */
    function Code(): (r: string)
      ensures AllDigits(r) && Value(r) <= 3
      ensures DecodeDisruptionType(Value(r)) == Ok(this)
    {
      match this
      case All => "0"
      case Network => "1"
      case Service => "2"
      case BusStop => "3"
    }
  }

  /** Deserialization of a disruption type from its `u8` code 0..3. */
  function DecodeDisruptionType(n: U8): (r: Result<DisruptionType, string>)
    ensures r.Ok? <==> n <= 3
    ensures r.Err? ==> r.error == "Unknown Disruption Type: " + NatToString(n)
  {
    match n
    case 0 => Ok(DisruptionType.All)
    case 1 => Ok(Network)
    case 2 => Ok(Service)
    case 3 => Ok(BusStop)
    case _ => Err("Unknown Disruption Type: " + NatToString(n))
  }

  /** A decoded type displays as the decimal number it was decoded from. */
  lemma DisruptionTypeDecodedCode(n: U8)
    requires DecodeDisruptionType(n).Ok?
    ensures DecodeDisruptionType(n).value.Code() == NatToString(n)
  {
  }

  // --------------------------------------------------------- DisruptionLevel

  datatype DisruptionLevel = Informative | Minor | Major {
    /** The `Display` code: the decimal `u8` the level decodes from. */
    function Code(): (r: string)
      ensures AllDigits(r) && 1 <= Value(r) <= 3
      ensures DecodeDisruptionLevel(Value(r)) == Ok(this)
    {
      match this
      case Informative => "1"
      case Minor => "2"
      case Major => "3"
    }
  }

  /** Deserialization of a disruption level from its `u8` code 1..3; 0 is not a level. */
  function DecodeDisruptionLevel(n: U8): (r: Result<DisruptionLevel, string>)
    ensures r.Ok? <==> 1 <= n <= 3
    ensures r.Err? ==> r.error == "Unknown Disruption Level: " + NatToString(n)
  {
    match n
    case 1 => Ok(Informative)
    case 2 => Ok(Minor)
    case 3 => Ok(Major)
    case _ => Err("Unknown Disruption Level: " + NatToString(n))
  }

  /** A decoded level displays as the decimal number it was decoded from. */
  lemma DisruptionLevelDecodedCode(n: U8)
    requires DecodeDisruptionLevel(n).Ok?
    ensures DecodeDisruptionLevel(n).value.Code() == NatToString(n)
  {
  }

  // ------------------------------------------------------------- Reliability

  datatype Reliability =
    | Delayed
    | Delocated
    | RealTimeNotLowFloorEquipped
    | RealTimeLowFloorEquipped
    | Immobilized
    | Neutralized
    | RadioFault
    | Estimated
    | Diverted
  {
    /** The serde-renamed wire code: one letter, which decodes to this value. */
    function Code(): (r: string)
      ensures |r| == 1
      ensures DecodeReliability(r) == Some(this)
    {
      match this
      case Delayed => "B"
      case Delocated => "D"
      case RealTimeNotLowFloorEquipped => "F"
      case RealTimeLowFloorEquipped => "H"
      case Immobilized => "I"
      case Neutralized => "N"
      case RadioFault => "R"
      case Estimated => "T"
      case Diverted => "V"
    }
  }

  function DecodeReliability(s: string): (r: Option<Reliability>)
    ensures r.Some? <==> s in {"B", "D", "F", "H", "I", "N", "R", "T", "V"}
  {
    match s
    case "B" => Some(Delayed)
    case "D" => Some(Delocated)
    case "F" => Some(RealTimeNotLowFloorEquipped)
    case "H" => Some(RealTimeLowFloorEquipped)
    case "I" => Some(Immobilized)
    case "N" => Some(Neutralized)
    case "R" => Some(RadioFault)
    case "T" => Some(Estimated)
    case "V" => Some(Diverted)
    case _ => None
  }

  /** Every accepted code is the code of what it decodes to. */
  lemma ReliabilityDecodedCode(s: string)
    requires DecodeReliability(s).Some?
    ensures DecodeReliability(s).value.Code() == s
  {
  }

  // ---------------------------------------------------------------- StopType

  datatype StopType = Terminus | Normal | PartRoute | Reference {
    /** The serde-renamed wire code: one letter, which decodes to this value. */
    function Code(): (r: string)
      ensures |r| == 1
      ensures DecodeStopType(r) == Some(this)
    {
      match this
      case Terminus => "D"
      case Normal => "N"
      case PartRoute => "P"
      case Reference => "R"
    }
  }

  function DecodeStopType(s: string): (r: Option<StopType>)
    ensures r.Some? <==> s in {"D", "N", "P", "R"}
  {
    match s
    case "D" => Some(Terminus)
    case "N" => Some(Normal)
    case "P" => Some(PartRoute)
    case "R" => Some(Reference)
    case _ => None
  }

  /** Every accepted code is the code of what it decodes to. */
  lemma StopTypeDecodedCode(s: string)
    requires DecodeStopType(s).Some?
    ensures DecodeStopType(s).value.Code() == s
  {
  }

  // --------------------------------------------------------------- Direction

  datatype Direction = Inbound | Outbound {
    /** The serde-renamed wire code: one letter, which decodes to this value. */
    function Code(): (r: string)
      ensures |r| == 1
      ensures DecodeDirection(r) == Some(this)
    {
      match this
      case Inbound => "A"
      case Outbound => "R"
    }
  }

  function DecodeDirection(s: string): (r: Option<Direction>)
    ensures r.Some? <==> s in {"A", "R"}
  {
    match s
    case "A" => Some(Inbound)
    case "R" => Some(Outbound)
    case _ => None
  }

  /** Every accepted code is the code of what it decodes to. */
  lemma DirectionDecodedCode(s: string)
    requires DecodeDirection(s).Some?
    ensures DecodeDirection(s).value.Code() == s
  {
  }

  // ------------------------------------------------------------- time of day

  /** chrono's `NaiveTime` to the second (sub-second precision plays no part here). */
  datatype TimeOfDay = TimeOfDay(hour: nat, minute: nat, second: nat) {
    predicate Valid() {
      hour < 24 && minute < 60 && second < 60
    }
  }

  type NaiveTime = t: TimeOfDay | t.Valid() witness TimeOfDay(0, 0, 0)

  /** chrono's `%H:%M` formatting: two zero-padded digits each, seconds dropped. */
  function FormatHourMinute(t: NaiveTime): (s: string)
    ensures |s| == 5 && s[2] == ':'
    ensures AllDigits(s[..2]) && AllDigits(s[3..])
  {
    var s := Padded(t.hour, 2) + ":" + Padded(t.minute, 2);
    assert s[..2] == Padded(t.hour, 2) && s[3..] == Padded(t.minute, 2);
    s
  }

  /**
   * `s` has the shape H ':' M with H = s[..i] and M = s[i + 1..], each one or two
   * decimal digits.
   */
  predicate IsHourMinute(s: string, i: nat) {
    1 <= i <= 2 && i + 2 <= |s| <= i + 3 && s[i] == ':' && AllDigits(s[..i]) && AllDigits(s[i + 1..])
  }

  /** The number of leading digits of `s`, at most `max`. */
  function LeadingDigits(s: string, max: nat): (n: nat)
    ensures n <= max && n <= |s| && AllDigits(s[..n])
    ensures n < max && n < |s| ==> !IsDigit(s[n])
  {
    if max == 0 || s == [] || !IsDigit(s[0]) then 0
    else
      var n := 1 + LeadingDigits(s[1..], max - 1);
      assert s[..n] == [s[0]] + s[1..][..n - 1];
      n
  }

  /** chrono's scan of a one- or two-digit number: its value and the rest of the input. */
  function ScanNumber(s: string): (r: Option<(nat, string)>)
    ensures r.Some? ==> var n := |s| - |r.value.1|;
      1 <= n <= 2 && AllDigits(s[..n]) && r.value == (Value(s[..n]), s[n..])
  {
    var n := LeadingDigits(s, 2);
    if n == 0 then None else Some((Value(s[..n]), s[n..]))
  }

  /**
   * Deserialization of a `NaiveTimeExt` with chrono's `%H:%M`: an hour of one or
   * two digits below 24, a colon, a minute of one or two digits below 60, and
   * nothing after it. The seconds are zero.
   */
  function DecodeNaiveTimeExt(s: string): (r: Option<NaiveTime>)
    ensures r.Some? ==> r.value.second == 0
  {
    match ScanNumber(s)
    case None => None
    case Some((hour, rest)) =>
      if hour >= 24 || rest == [] || rest[0] != ':' then None
      else
        match ScanNumber(rest[1..])
        case None => None
        case Some((minute, tail)) =>
          if minute >= 60 || tail != [] then None
          else Some(TimeOfDay(hour, minute, 0))
  }

  /**
   * The decoder accepts exactly the strings H ':' M of one- or two-digit fields
   * with H < 24 and M < 60, and yields their values; everything else is an error.
   */
  lemma DecodeNaiveTimeExtAccepts(s: string)
    ensures DecodeNaiveTimeExt(s).Some? <==>
      || (IsHourMinute(s, 1) && Value(s[..1]) < 24 && Value(s[2..]) < 60)
      || (IsHourMinute(s, 2) && Value(s[..2]) < 24 && Value(s[3..]) < 60)
    ensures DecodeNaiveTimeExt(s).Some? ==> var i := if IsHourMinute(s, 1) then 1 else 2;
      DecodeNaiveTimeExt(s).value == TimeOfDay(Value(s[..i]), Value(s[i + 1..]), 0)
  {
    assert !(IsHourMinute(s, 1) && IsHourMinute(s, 2));
    if IsHourMinute(s, 1) {
      DecodeHourMinute(s, 1);
    }
    if IsHourMinute(s, 2) {
      DecodeHourMinute(s, 2);
    }
    if DecodeNaiveTimeExt(s).Some? {
      DecodedIsHourMinute(s);
    }
  }

  /** On a string of shape H ':' M the decoder checks the two ranges and reads the two numbers. */
  lemma DecodeHourMinute(s: string, i: nat)
    requires IsHourMinute(s, i)
    ensures DecodeNaiveTimeExt(s).Some? <==> Value(s[..i]) < 24 && Value(s[i + 1..]) < 60
    ensures DecodeNaiveTimeExt(s).Some? ==>
      DecodeNaiveTimeExt(s).value == TimeOfDay(Value(s[..i]), Value(s[i + 1..]), 0)
  {
    LeadingDigitsIs(s, 2, i);
    var rest := s[i..];
    assert rest[0] == ':' && rest[1..] == s[i + 1..];
    assert s[i + 1..][..|s[i + 1..]|] == s[i + 1..];
    LeadingDigitsIs(s[i + 1..], 2, |s[i + 1..]|);
  }

  /** Whatever the decoder accepts has the shape H ':' M. */
  lemma DecodedIsHourMinute(s: string)
    requires DecodeNaiveTimeExt(s).Some?
    ensures IsHourMinute(s, 1) || IsHourMinute(s, 2)
  {
    var n := LeadingDigits(s, 2);
    var rest := s[n..];
    var m := LeadingDigits(rest[1..], 2);
    assert rest[1..] == s[n + 1..];
    assert rest[1..][m..] == [];
    assert rest[1..][..m] == s[n + 1..];
    assert IsHourMinute(s, n);
  }


  /** `LeadingDigits` is determined by where the run of digits stops. */
  lemma LeadingDigitsIs(s: string, max: nat, m: nat)
    requires m <= max && m <= |s| && AllDigits(s[..m])
    requires m == max || m == |s| || !IsDigit(s[m])
    ensures LeadingDigits(s, max) == m
  {
  }

  /** Formatting with `%H:%M` and parsing back gives the time truncated to the minute. */
  lemma TimeRoundTrip(t: NaiveTime)
    ensures DecodeNaiveTimeExt(FormatHourMinute(t)) == Some(TimeOfDay(t.hour, t.minute, 0))
  {
    var s := FormatHourMinute(t);
    assert s[..2] == Padded(t.hour, 2) && s[3..] == Padded(t.minute, 2);
    assert IsHourMinute(s, 2);
    DecodeNaiveTimeExtAccepts(s);
  }
}
