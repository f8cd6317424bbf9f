/**
 * The bus-times service: `get_bus_times` and `get_journey_times`. Each
 * validates its arguments with early returns, builds its parameter string and
 * hands it to `MyBusTracker.GetUri`; a validation failure returns before the
 * key is looked at.
 */
module BusTimes {
  import opened Wrappers
  import opened Decimal
  import opened Query
  import opened Models
  import opened Tracker

  const GetBusTimesFunction := "getBusTimes"
  const GetJourneyTimesFunction := "getJourneyTimes"

  /** At most this many timetables per bus-times request. */
  const MaxTimetables := 5
  /** At most this many departures per timetable. */
  const MaxDepartures := 10

  /** The validation of `get_bus_times`, first failing check first. */
  function CheckBusTimes(timetableCount: nat, departureCount: U8, dayOffset: int): (r: Option<TrackerError>)
    ensures r == Some(TooManyTimetables) <==> timetableCount > MaxTimetables
    ensures r == Some(TooManyDepartures) <==>
      timetableCount <= MaxTimetables && departureCount > MaxDepartures
    ensures r == Some(DateOutOfBounds) <==>
      timetableCount <= MaxTimetables && departureCount <= MaxDepartures && !(0 <= dayOffset <= MaxDayOffset)
    ensures r == None <==>
      timetableCount <= MaxTimetables && departureCount <= MaxDepartures && 0 <= dayOffset <= MaxDayOffset
  {
    if timetableCount > MaxTimetables then Some(TooManyTimetables)
    else if departureCount > MaxDepartures then Some(TooManyDepartures)
    else CheckDayOffset(dayOffset)
  }

  /** A timetable's strings are already URL-encoded, so none contains a separator. */
  predicate PlainTimetable(t: Timetable) {
    NoSeparator(t.stopId) && NoSeparator(t.serviceReference) && NoSeparator(t.destinationReference)
  }

  function StopIdField(i: nat, t: Timetable): string {
    "stopId" + NatToString(i) + "=" + t.stopId
  }

  function RefServiceField(i: nat, t: Timetable): string {
    "refService" + NatToString(i) + "=" + t.serviceReference
  }

  function RefDestField(i: nat, t: Timetable): string {
    "refDest" + NatToString(i) + "=" + t.destinationReference
  }

  /**
   * `stopId{i}=…&refService{i}=…&refDest{i}=…` for the timetable numbered `i`;
   * for a plain timetable, exactly its three fields.
   */
  function TimetableRequest(i: nat, t: Timetable): (r: string)
    ensures PlainTimetable(t) ==> Fields(r) == [StopIdField(i, t), RefServiceField(i, t), RefDestField(i, t)]
  {
    var stop, service, dest := StopIdField(i, t), RefServiceField(i, t), RefDestField(i, t);
    DigitsHaveNoChar(NatToString(i), '&');
    ThreePlainFields(stop, service, dest);
    stop + "&" + service + "&" + dest
  }

  /**
   * The timetables numbered from 1 in input order, their requests joined by '&'.
   * When every timetable is plain, timetable k (0-based) contributes fields 3k,
   * 3k + 1 and 3k + 2, numbered k + 1, in input order; no timetables give one
   * empty field.
   */
  function TimetableRequests(timetables: seq<Timetable>): (r: string)
    ensures (forall i | 0 <= i < |timetables| :: PlainTimetable(timetables[i])) ==>
      && |Fields(r)| == (if timetables == [] then 1 else 3 * |timetables|)
      && (timetables == [] ==> Fields(r) == [""])
      && forall k | 0 <= k < |timetables| ::
           && Fields(r)[3 * k] == StopIdField(k + 1, timetables[k])
           && Fields(r)[3 * k + 1] == RefServiceField(k + 1, timetables[k])
           && Fields(r)[3 * k + 2] == RefDestField(k + 1, timetables[k])
  {
    var r := Join(TimetableRequestList(timetables));
    if forall i | 0 <= i < |timetables| :: PlainTimetable(timetables[i]) then
      TimetableListFields(timetables);
      r
    else
      r
  }

  function TimetableRequestList(timetables: seq<Timetable>): seq<string> {
    seq(|timetables|, i requires 0 <= i < |timetables| => TimetableRequest(i + 1, timetables[i]))
  }

  /** The fields of the joined request list, timetable by timetable. */
  lemma {:induction false} TimetableListFields(timetables: seq<Timetable>)
    requires forall i | 0 <= i < |timetables| :: PlainTimetable(timetables[i])
    ensures var fields := Fields(Join(TimetableRequestList(timetables)));
      && |fields| == (if timetables == [] then 1 else 3 * |timetables|)
      && (timetables == [] ==> fields == [""])
      && forall k | 0 <= k < |timetables| ::
           && fields[3 * k] == StopIdField(k + 1, timetables[k])
           && fields[3 * k + 1] == RefServiceField(k + 1, timetables[k])
           && fields[3 * k + 2] == RefDestField(k + 1, timetables[k])
  {
    var fields := Fields(Join(TimetableRequestList(timetables)));
    if timetables == [] {
      assert Join(TimetableRequestList(timetables)) == "";
    } else {
      TimetableFieldsAt(timetables, 0);
      forall k | 0 <= k < |timetables|
        ensures fields[3 * k] == StopIdField(k + 1, timetables[k])
        ensures fields[3 * k + 1] == RefServiceField(k + 1, timetables[k])
        ensures fields[3 * k + 2] == RefDestField(k + 1, timetables[k])
      {
        TimetableFieldsAt(timetables, k);
      }
    }
  }

  /** Timetable `k`'s three fields, at positions 3k to 3k + 2. */
  lemma TimetableFieldsAt(timetables: seq<Timetable>, k: nat)
    requires forall i | 0 <= i < |timetables| :: PlainTimetable(timetables[i])
    requires k < |timetables|
    ensures var fields := Fields(Join(TimetableRequestList(timetables)));
      && |fields| == 3 * |timetables|
      && fields[3 * k] == StopIdField(k + 1, timetables[k])
      && fields[3 * k + 1] == RefServiceField(k + 1, timetables[k])
      && fields[3 * k + 2] == RefDestField(k + 1, timetables[k])
  {
    var requests := TimetableRequestList(timetables);
    assert forall i | 0 <= i < |requests| :: |Fields(requests[i])| == 3 by {
      forall i | 0 <= i < |requests|
        ensures |Fields(requests[i])| == 3
      {
        assert requests[i] == TimetableRequest(i + 1, timetables[i]);
      }
    }
    assert requests[k] == TimetableRequest(k + 1, timetables[k]);
    JoinTriplesAt(requests, k, StopIdField(k + 1, timetables[k]), RefServiceField(k + 1, timetables[k]),
                  RefDestField(k + 1, timetables[k]));
  }

  /** `&time=HH:MM` when a departure time is given, nothing otherwise. */
  function DepartureTimeString(departureTime: Option<NaiveTime>): string {
    match departureTime
    case Some(time) => "&time=" + FormatHourMinute(time)
    case None => ""
  }

  /**
   * `<timetables>&nb=<count>&day=<offset>`, then the departure time if any: after
   * the timetables' fields come the departure count, the day offset and the
   * optional `HH:MM` time, each one field.
   */
  function BusTimesParams(timetables: seq<Timetable>, departureCount: U8, dayOffset: nat,
                          departureTime: Option<NaiveTime>): (r: string)
    ensures Fields(r) ==
      Fields(TimetableRequests(timetables))
      + ["nb=" + NatToString(departureCount), "day=" + NatToString(dayOffset)]
      + (if departureTime.Some? then ["time=" + FormatHourMinute(departureTime.value)] else [])
  {
    var requests := TimetableRequests(timetables);
    TrailerFields(requests, departureCount, dayOffset, departureTime);
    requests + "&nb=" + NatToString(departureCount) + "&day=" + NatToString(dayOffset)
      + DepartureTimeString(departureTime)
  }

  /** The fields a bus-times request adds after its timetables. */
  function BusTimesTrailer(departureCount: U8, dayOffset: nat, departureTime: Option<NaiveTime>): seq<string> {
    ["nb=" + NatToString(departureCount), "day=" + NatToString(dayOffset)]
      + (if departureTime.Some? then ["time=" + FormatHourMinute(departureTime.value)] else [])
  }

  lemma TrailerFields(requests: string, departureCount: U8, dayOffset: nat, departureTime: Option<NaiveTime>)
    ensures Fields(requests + "&nb=" + NatToString(departureCount) + "&day=" + NatToString(dayOffset)
                   + DepartureTimeString(departureTime)) ==
      Fields(requests) + BusTimesTrailer(departureCount, dayOffset, departureTime)
  {
    var trailer := BusTimesTrailer(departureCount, dayOffset, departureTime);
    var n, d := NatToString(departureCount), NatToString(dayOffset);
    BusTimesTrailerPlain(departureCount, dayOffset, departureTime);
    FieldsJoinPlain(trailer);
    FieldsAppend(requests, Join(trailer));
    match departureTime
    case None =>
      TrailerShape(requests, n, d);
      JoinTwo("nb=" + n, "day=" + d);
    case Some(time) =>
      TimedTrailerShape(requests, n, d, FormatHourMinute(time));
      JoinThree("nb=" + n, "day=" + d, "time=" + FormatHourMinute(time));
  }

  lemma TrailerShape(t: string, n: string, d: string)
    ensures t + "&nb=" + n + "&day=" + d + "" == t + "&" + (("nb=" + n) + "&" + ("day=" + d))
  {
  }

  lemma TimedTrailerShape(t: string, n: string, d: string, h: string)
    ensures t + "&nb=" + n + "&day=" + d + ("&time=" + h) ==
      t + "&" + (("nb=" + n) + "&" + ("day=" + d) + "&" + ("time=" + h))
  {
  }

  lemma BusTimesTrailerPlain(departureCount: U8, dayOffset: nat, departureTime: Option<NaiveTime>)
    ensures var trailer := BusTimesTrailer(departureCount, dayOffset, departureTime);
      |trailer| >= 1 && forall i | 0 <= i < |trailer| :: NoSeparator(trailer[i])
  {
    DigitsHaveNoChar(NatToString(departureCount), '&');
    DigitsHaveNoChar(NatToString(dayOffset), '&');
    if departureTime.Some? {
      var hm := FormatHourMinute(departureTime.value);
      DigitsHaveNoChar(hm[..2], '&');
      DigitsHaveNoChar(hm[3..], '&');
      assert hm == hm[..2] + [':'] + hm[3..];
    }
  }

  /**
   * `get_bus_times`: the checks in source order, then the parameter string for
   * the validated day offset, sent as function `getBusTimes`.
   */
  method GetBusTimes(tracker: MyBusTracker, timetables: seq<Timetable>, departureCount: U8,
                     departureDay: Option<int>, departureTime: Option<NaiveTime>, today: int, now: UtcTime)
    returns (r: Result<Uri, TrackerError>)
    requires tracker.Valid()
    modifies tracker.apiKey
    ensures tracker.Valid()
    ensures var check := CheckBusTimes(|timetables|, departureCount, DayOffset(departureDay, today));
      check.Some? ==> r == Err(check.value) && unchanged(tracker.apiKey)
    ensures var offset := DayOffset(departureDay, today);
      CheckBusTimes(|timetables|, departureCount, offset).None? ==>
        && tracker.apiKey.State() == Refreshed(tracker.apiKey.md5, old(tracker.apiKey.State()), now)
        && r == tracker.UriFor(tracker.apiKey.key, GetBusTimesFunction,
                               Some(BusTimesParams(timetables, departureCount, offset, departureTime)))
  {
    if |timetables| > MaxTimetables {
      return Err(TooManyTimetables);
    }
    if departureCount > MaxDepartures {
      return Err(TooManyDepartures);
    }
    var dayDifference := match departureDay
      case Some(day) => day - today
      case None => 0;
    if dayDifference > MaxDayOffset || dayDifference < 0 {
      return Err(DateOutOfBounds);
    }
    var uriParams := BusTimesParams(timetables, departureCount, dayDifference, departureTime);
    r := tracker.GetUri(GetBusTimesFunction, Some(uriParams), now);
  }

  // ------------------------------------------------------------ journey times

  /** `stopId=X&` when a stop is given, nothing otherwise. */
  function StopIdString(stopId: Option<string>): string {
    match stopId
    case Some(stop) => "stopId=" + stop + "&"
    case None => ""
  }

  function JourneyIdField(journeyId: JourneyIdentifier): string {
    match journeyId
    case JourneyId(journey) => "journeyId=" + journey
    case BusId(bus) => "busId=" + bus
  }

  /** `journeyId=J&` or `busId=B&`, by the kind of identifier. */
  function JourneyIdString(journeyId: JourneyIdentifier): string {
    JourneyIdField(journeyId) + "&"
  }

  /**
   * The optional stop, the journey or bus, then `operator=<op>&day=<offset>&mode=<mode>`:
   * when the given strings hold no separator, the stop if given, exactly one
   * identifier, then the operator, day and mode, each one field.
   */
  function JourneyTimesParams(stopId: Option<string>, journeyId: JourneyIdentifier, operator: Operator,
                              dayOffset: nat, mode: JourneyTimeMode): (r: string)
    ensures (stopId.Some? ==> NoSeparator(stopId.value)) &&
            NoSeparator(if journeyId.JourneyId? then journeyId.journey else journeyId.bus) ==>
      Fields(r) ==
        (if stopId.Some? then ["stopId=" + stopId.value] else [])
        + [JourneyIdField(journeyId), "operator=" + operator.Code(), "day=" + NatToString(dayOffset), "mode=" + mode.Code()]
  {
    var j, o, d, m := JourneyIdField(journeyId), operator.Code(), NatToString(dayOffset), mode.Code();
    DigitsHaveNoChar(d, '&');
    DigitsHaveNoChar(m, '&');
    JourneyFields(stopId, j, o, d, m);
    StopIdString(stopId) + JourneyIdString(journeyId) + "operator=" + o + "&day=" + d + "&mode=" + m
  }

  /** The journey-times layout over plain strings: optional stop, identifier, then three named fields. */
  lemma JourneyFields(stopId: Option<string>, j: string, o: string, d: string, m: string)
    ensures (stopId.Some? ==> NoSeparator(stopId.value)) &&
            NoSeparator(j) && NoSeparator(o) && NoSeparator(d) && NoSeparator(m) ==>
      Fields(StopIdString(stopId) + (j + "&") + "operator=" + o + "&day=" + d + "&mode=" + m) ==
        (if stopId.Some? then ["stopId=" + stopId.value] else []) + [j, "operator=" + o, "day=" + d, "mode=" + m]
  {
    var prefix := StopIdString(stopId);
    var rest := j + "&" + (("operator=" + o) + "&" + ("day=" + d) + "&" + ("mode=" + m));
    JourneyShape(prefix, j, o, d, m);
    JourneyTailFields(j, o, d, m);
    if stopId.Some? {
      var stopField := "stopId=" + stopId.value;
      assert prefix + rest == stopField + "&" + rest;
      ConsField(stopField, rest);
    } else {
      assert prefix + rest == rest;
    }
  }

  lemma JourneyTailFields(j: string, o: string, d: string, m: string)
    ensures NoSeparator(j) && NoSeparator(o) && NoSeparator(d) && NoSeparator(m) ==>
      Fields(j + "&" + (("operator=" + o) + "&" + ("day=" + d) + "&" + ("mode=" + m))) ==
        [j, "operator=" + o, "day=" + d, "mode=" + m]
  {
    var operatorField, dayField, modeField := "operator=" + o, "day=" + d, "mode=" + m;
    assert NoSeparator(o) ==> NoSeparator(operatorField);
    assert NoSeparator(d) ==> NoSeparator(dayField);
    assert NoSeparator(m) ==> NoSeparator(modeField);
    FourPlainFields(j, operatorField, dayField, modeField);
  }

  lemma JourneyShape(prefix: string, j: string, o: string, d: string, m: string)
    ensures prefix + (j + "&") + "operator=" + o + "&day=" + d + "&mode=" + m ==
      prefix + (j + "&" + (("operator=" + o) + "&" + ("day=" + d) + "&" + ("mode=" + m)))
  {
  }

  /** Journey 12345 for all operators, today, every departure, with no stop given. */
  lemma JourneyTimesExample()
    ensures Fields(JourneyTimesParams(None, JourneyId("12345"), AllOperators, 0, JourneyTimeMode.All)) ==
      ["journeyId=12345", "operator=0", "day=0", "mode=0"]
  {
    assert JourneyIdField(JourneyId("12345")) == "journeyId=12345";
    assert "operator=" + AllOperators.Code() == "operator=0";
    assert "day=" + NatToString(0) == "day=0";
    assert "mode=" + JourneyTimeMode.All.Code() == "mode=0";
  }

  /** `get_journey_times`: the day check, then the parameters, sent as function `getJourneyTimes`. */
  method GetJourneyTimes(tracker: MyBusTracker, stopId: Option<string>, journeyId: JourneyIdentifier,
                         operator: Operator, day: int, mode: JourneyTimeMode, today: int, now: UtcTime)
    returns (r: Result<Uri, TrackerError>)
    requires tracker.Valid()
    modifies tracker.apiKey
    ensures tracker.Valid()
    ensures !(0 <= day - today <= MaxDayOffset) ==> r == Err(DateOutOfBounds) && unchanged(tracker.apiKey)
    ensures 0 <= day - today <= MaxDayOffset ==>
      && tracker.apiKey.State() == Refreshed(tracker.apiKey.md5, old(tracker.apiKey.State()), now)
      && r == tracker.UriFor(tracker.apiKey.key, GetJourneyTimesFunction,
                             Some(JourneyTimesParams(stopId, journeyId, operator, day - today, mode)))
  {
    var dayDifference := day - today;
    if dayDifference > MaxDayOffset || dayDifference < 0 {
      return Err(DateOutOfBounds);
    }
    var uriParams := JourneyTimesParams(stopId, journeyId, operator, dayDifference, mode);
    r := tracker.GetUri(GetJourneyTimesFunction, Some(uriParams), now);
  }
}
