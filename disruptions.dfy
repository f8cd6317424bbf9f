/**
 * The disruptions service: `get_disruptions`, `get_diversions` and
 * `get_diversion_points`. Defaults fill absent arguments; only diversions
 * validate anything (the day offset) before the URI is built.
 */
module Disruptions {
  import opened Wrappers
  import opened Decimal
  import opened Query
  import opened Models
  import opened Tracker

  const GetDisruptionsFunction := "getDisruptions"
  const GetDiversionsFunction := "getDiversions"
  const GetDiversionPointsFunction := "getDiversionPoints"

  /** The service reference that stands for every service. */
  const AllServices := "0"

  /**
   * `operatorId=<op>&type=<code>`: the operator, then the type, where no type
   * means all types ("0").
   */
  function DisruptionsParams(disruptionType: Option<DisruptionType>, operator: Operator): (r: string)
    ensures Fields(r) ==
      ["operatorId=" + operator.Code(), "type=" + (if disruptionType.Some? then disruptionType.value.Code() else "0")]
  {
    var t := match disruptionType
      case Some(t) => t
      case None => DisruptionType.All;
    var operatorField, typeField := "operatorId=" + operator.Code(), "type=" + t.Code();
    DigitsHaveNoChar(t.Code(), '&');
    TwoPlainFields(operatorField, typeField);
    operatorField + "&" + typeField
  }

  /** With no type given, all operators' disruptions of every type are asked for. */
  lemma DisruptionsDefaultExample()
    ensures DisruptionsParams(None, AllOperators) == "operatorId=0&type=0"
  {
  }

  /** `get_disruptions`: no validation; the only failure is the URI's. */
  method GetDisruptions(tracker: MyBusTracker, disruptionType: Option<DisruptionType>, operator: Operator,
                        now: UtcTime)
    returns (r: Result<Uri, TrackerError>)
    requires tracker.Valid()
    modifies tracker.apiKey
    ensures tracker.Valid()
    ensures tracker.apiKey.State() == Refreshed(tracker.apiKey.md5, old(tracker.apiKey.State()), now)
    ensures r == tracker.UriFor(tracker.apiKey.key, GetDisruptionsFunction,
                                Some(DisruptionsParams(disruptionType, operator)))
    ensures r.Err? ==> r.error.InternalError?
  {
    var uriParams := DisruptionsParams(disruptionType, operator);
    r := tracker.GetUri(GetDisruptionsFunction, Some(uriParams), now);
  }

  // --------------------------------------------------------------- diversions

  /**
   * `operatorId=<op>&refService=<ref>&day=<offset>`: the operator, the service
   * (no service means all, "0") and the day offset, each one field when the
   * service reference holds no separator.
   */
  function DiversionsParams(serviceReference: Option<string>, dayOffset: nat, operator: Operator): (r: string)
    ensures (serviceReference.Some? ==> NoSeparator(serviceReference.value)) ==>
      Fields(r) ==
        [ "operatorId=" + operator.Code(),
          "refService=" + (if serviceReference.Some? then serviceReference.value else "0"),
          "day=" + NatToString(dayOffset) ]
  {
    var service := match serviceReference
      case Some(s) => s
      case None => AllServices;
    var operatorField, serviceField, dayField :=
      "operatorId=" + operator.Code(), "refService=" + service, "day=" + NatToString(dayOffset);
    DigitsHaveNoChar(NatToString(dayOffset), '&');
    ThreePlainFields(operatorField, serviceField, dayField);
    operatorField + "&" + serviceField + "&" + dayField
  }

  /** `get_diversions`: the day check, then the parameters, sent as function `getDiversions`. */
  method GetDiversions(tracker: MyBusTracker, serviceReference: Option<string>, day: Option<int>,
                       operator: Operator, today: int, now: UtcTime)
    returns (r: Result<Uri, TrackerError>)
    requires tracker.Valid()
    modifies tracker.apiKey
    ensures tracker.Valid()
    ensures var offset := DayOffset(day, today);
      !(0 <= offset <= MaxDayOffset) ==> r == Err(DateOutOfBounds) && unchanged(tracker.apiKey)
    ensures var offset := DayOffset(day, today);
      0 <= offset <= MaxDayOffset ==>
        && tracker.apiKey.State() == Refreshed(tracker.apiKey.md5, old(tracker.apiKey.State()), now)
        && r == tracker.UriFor(tracker.apiKey.key, GetDiversionsFunction,
                               Some(DiversionsParams(serviceReference, offset, operator)))
  {
    var dayDifference := match day
      case Some(d) => d - today
      case None => 0;
    if dayDifference > MaxDayOffset || dayDifference < 0 {
      return Err(DateOutOfBounds);
    }
    var uriParams := DiversionsParams(serviceReference, dayDifference, operator);
    r := tracker.GetUri(GetDiversionsFunction, Some(uriParams), now);
  }

  // -------------------------------------------------------- diversion points

  /** `operatorId=<op>&diversionId=<id>`: two fields when the diversion holds no separator. */
  function DiversionPointsParams(diversion: string, operator: Operator): (r: string)
    ensures NoSeparator(diversion) ==> Fields(r) == ["operatorId=" + operator.Code(), "diversionId=" + diversion]
  {
    var operatorField, diversionField := "operatorId=" + operator.Code(), "diversionId=" + diversion;
    TwoPlainFields(operatorField, diversionField);
    operatorField + "&" + diversionField
  }

  /** `get_diversion_points`: no validation; the only failure is the URI's. */
  method GetDiversionPoints(tracker: MyBusTracker, diversion: string, operator: Operator, now: UtcTime)
    returns (r: Result<Uri, TrackerError>)
    requires tracker.Valid()
    modifies tracker.apiKey
    ensures tracker.Valid()
    ensures tracker.apiKey.State() == Refreshed(tracker.apiKey.md5, old(tracker.apiKey.State()), now)
    ensures r == tracker.UriFor(tracker.apiKey.key, GetDiversionPointsFunction,
                                Some(DiversionPointsParams(diversion, operator)))
    ensures r.Err? ==> r.error.InternalError?
  {
    var uriParams := DiversionPointsParams(diversion, operator);
    r := tracker.GetUri(GetDiversionPointsFunction, Some(uriParams), now);
  }
}
