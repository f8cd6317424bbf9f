/**
 * The topological service: topology id, services, service points,
 * destinations and bus stops. None validates its arguments; each names the
 * operator (and, for service points, the service) and calls `GetUri`.
 */
module Topological {
  import opened Wrappers
  import opened Query
  import opened Models
  import opened Tracker

  const GetTopoIdFunction := "getTopoId"
  const GetServicesFunction := "getServices"
  const GetServicePointsFunction := "getServicePoints"
  const GetDestsFunction := "getDests"
  const GetBusStopsFunction := "getBusStops"

  /** `operatorId=<op>`, the whole parameter string of four of the five requests: one field. */
  function OperatorParams(operator: Operator): (r: string)
    ensures Fields(r) == ["operatorId=" + operator.Code()]
  {
    var operatorField := "operatorId=" + operator.Code();
    FieldsOfPlain(operatorField);
    operatorField
  }

  /** `operatorId=<op>&ref=<service reference>`: two fields when the reference holds no separator. */
  function ServicePointsParams(serviceReference: string, operator: Operator): (r: string)
    ensures NoSeparator(serviceReference) ==>
      Fields(r) == ["operatorId=" + operator.Code(), "ref=" + serviceReference]
  {
    var operatorField, serviceField := "operatorId=" + operator.Code(), "ref=" + serviceReference;
    TwoPlainFields(operatorField, serviceField);
    operatorField + "&" + serviceField
  }

  method GetTopoId(tracker: MyBusTracker, operator: Operator, now: UtcTime) returns (r: Result<Uri, TrackerError>)
    requires tracker.Valid()
    modifies tracker.apiKey
    ensures tracker.Valid()
    ensures tracker.apiKey.State() == Refreshed(tracker.apiKey.md5, old(tracker.apiKey.State()), now)
    ensures r == tracker.UriFor(tracker.apiKey.key, GetTopoIdFunction, Some(OperatorParams(operator)))
    ensures r.Err? ==> r.error.InternalError?
  {
    var uriParams := OperatorParams(operator);
    r := tracker.GetUri(GetTopoIdFunction, Some(uriParams), now);
  }

  method GetServices(tracker: MyBusTracker, operator: Operator, now: UtcTime) returns (r: Result<Uri, TrackerError>)
    requires tracker.Valid()
    modifies tracker.apiKey
    ensures tracker.Valid()
    ensures tracker.apiKey.State() == Refreshed(tracker.apiKey.md5, old(tracker.apiKey.State()), now)
    ensures r == tracker.UriFor(tracker.apiKey.key, GetServicesFunction, Some(OperatorParams(operator)))
    ensures r.Err? ==> r.error.InternalError?
  {
    var uriParams := OperatorParams(operator);
    r := tracker.GetUri(GetServicesFunction, Some(uriParams), now);
  }

  method GetServicePoints(tracker: MyBusTracker, serviceReference: string, operator: Operator, now: UtcTime)
    returns (r: Result<Uri, TrackerError>)
    requires tracker.Valid()
    modifies tracker.apiKey
    ensures tracker.Valid()
    ensures tracker.apiKey.State() == Refreshed(tracker.apiKey.md5, old(tracker.apiKey.State()), now)
    ensures r == tracker.UriFor(tracker.apiKey.key, GetServicePointsFunction,
                                Some(ServicePointsParams(serviceReference, operator)))
    ensures r.Err? ==> r.error.InternalError?
  {
    var uriParams := ServicePointsParams(serviceReference, operator);
    r := tracker.GetUri(GetServicePointsFunction, Some(uriParams), now);
  }

  method GetDestinations(tracker: MyBusTracker, operator: Operator, now: UtcTime)
    returns (r: Result<Uri, TrackerError>)
    requires tracker.Valid()
    modifies tracker.apiKey
    ensures tracker.Valid()
    ensures tracker.apiKey.State() == Refreshed(tracker.apiKey.md5, old(tracker.apiKey.State()), now)
    ensures r == tracker.UriFor(tracker.apiKey.key, GetDestsFunction, Some(OperatorParams(operator)))
    ensures r.Err? ==> r.error.InternalError?
  {
    var uriParams := OperatorParams(operator);
    r := tracker.GetUri(GetDestsFunction, Some(uriParams), now);
  }

  method GetBusStops(tracker: MyBusTracker, operator: Operator, now: UtcTime)
    returns (r: Result<Uri, TrackerError>)
    requires tracker.Valid()
    modifies tracker.apiKey
    ensures tracker.Valid()
    ensures tracker.apiKey.State() == Refreshed(tracker.apiKey.md5, old(tracker.apiKey.State()), now)
    ensures r == tracker.UriFor(tracker.apiKey.key, GetBusStopsFunction, Some(OperatorParams(operator)))
    ensures r.Err? ==> r.error.InternalError?
  {
    var uriParams := OperatorParams(operator);
    r := tracker.GetUri(GetBusStopsFunction, Some(uriParams), now);
  }
}
