# My Bus Tracker client — a Dafny model

This project models the request side of `my-bus-tracker-rs`. That crate is a client
for My Bus Tracker, the real-time transit information service provided by the City of
Edinburgh Council. The model covers:

- **Code tables** (`models.dfy`). Operators, journey-time modes, disruption types and
  levels, reliabilities, stop types and directions. Each table has its wire codes, its
  decoder with the source's error cases, and both directions of the round trip. The `%H:%M` time
  format and its parser are here too.
- **The API key** (`tracker.dfy`). The service does not take the developer key itself.
  It takes the lower-case hex MD5 of the key followed by the UTC time as `YYYYMMDDHH`.
  `ApiKey` is a class whose `GetKey` regenerates that key in place when the hour has
  changed.
- **Request URIs** (`tracker.dfy`). `MyBusTracker.GetUri` refreshes the key, builds
  `module=json&key=K&function=F[&params]` and parses it into a URI. A parse failure
  becomes `InternalError`.
- **Endpoints** (`bustimes.dfy`, `disruptions.dfy`, `topological.dfy`). Each endpoint
  builds its parameter string and sends it to `GetUri`. Only three endpoints check
  their inputs first. `get_bus_times` can fail with `TooManyTimetables`,
  `TooManyDepartures` or `DateOutOfBounds`. `get_journey_times` and `get_diversions`
  can fail with `DateOutOfBounds`. The other endpoints check nothing.

Helper modules:

- `wrappers.dfy`: `Option` and `Result`.
- `decimal.dfy`: decimal rendering of naturals, plain and zero-padded, with its value function.
- `hex.dfy`: the `{:x}` rendering of bytes and its inverse.
- `query.dfy`: `Fields` splits a query on `&` and is the inverse of `Join`.

Every string-building function states, in its own contract, the list of `key=value`
fields its result splits into. The URI parser and the MD5 digest are uninterpreted function
parameters. The clock is passed in as `now` (a UTC hour) and `today` (a day number).

Where the crate's documentation and its code disagree, the model follows the code:

- `get_key` compares only the hour of day of the stored key with the current hour
  (`src/lib.rs:129`). A key generated at 10:00 on one date is reused at 10:00 on
  another date, where the service expects a different stamp. `GetKey` keeps this
  behaviour. "## Findings" below records it beside the stamp-comparing refresh
  `Tracker.RefreshedPerStamp`.
- `get_bus_times` takes a `u8` departure count and has no default.
- `get_bus_times` accepts an empty timetable list. Its parameter string then begins
  with `&nb=`, so it has an empty first field.
- For `JourneyId`, a stop id is documented as required, but `get_journey_times` sends
  the request without one.
- `Timetable.operator_id` is carried but never sent (`src/bustimes.rs:88-94`).

## Model

| member | source | states |
|---|---|---|
| Models.Operator.Code | src/models.rs:101-109 | an operator is displayed as a plain query value, never "ALL", that decodes back to the operator |
| Models.DecodeOperator | src/models.rs:111-123 | exactly "LB", "0" and "ALL" decode, "ALL" to `AllOperators`; any other input fails with "Unknown Operator: " and the input |
| Models.OperatorDecodedCode | src/models.rs:101-123 | every accepted code except the alias "ALL" is the display code of the operator it decodes to |
| Models.JourneyTimeMode.Code | src/models.rs:137-145 | a mode is displayed as one decimal digit |
| Models.JourneyTimeModeCodesDistinct | src/models.rs:137-145 | the two modes have different codes |
| Models.DisruptionType.Code | src/models.rs:308-318 | a type is displayed as a decimal number up to 3 that decodes back to the type |
| Models.DecodeDisruptionType | src/models.rs:292-306 | a `u8` decodes iff it is at most 3; otherwise the error names the number |
| Models.DisruptionTypeDecodedCode | src/models.rs:292-318 | a decoded type is displayed as the number it was decoded from |
| Models.DisruptionLevel.Code | src/models.rs:347-356 | a level is displayed as a decimal number from 1 to 3 that decodes back to the level |
| Models.DecodeDisruptionLevel | src/models.rs:332-345 | a `u8` decodes iff it is 1, 2 or 3; otherwise the error names the number |
| Models.DisruptionLevelDecodedCode | src/models.rs:332-356 | a decoded level is displayed as the number it was decoded from |
| Models.Reliability.Code | src/models.rs:62-82 | each reliability has a one-letter code that decodes back to it |
| Models.DecodeReliability | src/models.rs:62-82 | exactly the nine renamed codes decode |
| Models.ReliabilityDecodedCode | src/models.rs:62-82 | every accepted code is the code of the reliability it decodes to |
| Models.StopType.Code | src/models.rs:83-93 | each stop type has a one-letter code that decodes back to it |
| Models.DecodeStopType | src/models.rs:83-93 | exactly D, N, P and R decode |
| Models.StopTypeDecodedCode | src/models.rs:83-93 | every accepted code is the code of the stop type it decodes to |
| Models.Direction.Code | src/models.rs:253-259 | each direction has a one-letter code that decodes back to it |
| Models.DecodeDirection | src/models.rs:253-259 | exactly A and R decode |
| Models.DirectionDecodedCode | src/models.rs:253-259 | every accepted code is the code of the direction it decodes to |
| Models.FormatHourMinute | src/bustimes.rs:79-82 | `%H:%M` gives five characters: two digits, a colon, two digits |
| Models.DecodeNaiveTimeExt | src/models.rs:445-455 | a parsed time always has zero seconds |
| Models.DecodeNaiveTimeExtAccepts | src/models.rs:445-455 | accepted iff the text is 1–2 digits, ':', 1–2 digits, with the hour below 24 and the minute below 60; the time read is those two numbers |
| Models.TimeRoundTrip | src/models.rs:445-455 | parsing the `%H:%M` form of a time gives the time truncated to the minute |
| Decimal.NatToString | src/bustimes.rs:99-105 | integers are sent as non-empty digit strings that read back as the number, with no leading zero |
| Hex.ToHex | src/lib.rs:247-248 | the digest is written as two lower-case hex digits per byte |
| Hex.HexRoundTrip | src/lib.rs:247-248 | reading the hex text back gives the digest's bytes, so no information is lost |
| Query.Fields | src/lib.rs:164-178 | splitting a query on '&' gives separator-free fields that join back to the query |
| Query.FieldsAppend | src/lib.rs:174-178 | splitting `a&b` gives the fields of `a` followed by the fields of `b` |
| Tracker.HourStamp | src/lib.rs:241-245 | the `%Y%m%d%H` stamp is ten digits |
| Tracker.HourStampInjective | src/lib.rs:241-245 | two instants with the same stamp fall in the same hour of the same date |
| Tracker.GenerateApiKey | src/lib.rs:233-253 | returns the generation time and a 32-character lower-case hex key that decodes to the MD5 of the base key followed by the hour stamp |
| Tracker.GenerateApiKeyPerHour | src/lib.rs:233-253 | the generated key depends only on the base key and the hour stamp |
| Tracker.Refreshed | src/lib.rs:121-140 | the raw key is kept; the stored hour of day becomes the current one; a key that matches its stamp still does afterwards |
| Tracker.RefreshedStableWithinHour | src/lib.rs:129-134 | a second refresh in the same hour of day changes nothing |
| Tracker.RefreshedAfterHourChange | src/lib.rs:135-138 | after a change of hour of day, the key is the one generated for the current time |
| Tracker.RefreshedKeepsKeyFromOtherDate | src/lib.rs:129-134 | a key from the same hour on another date is kept, and its stamp differs from the current stamp |
| Tracker.KeyReusedNextDay | src/lib.rs:129-134 | a key generated at 10:00 on 1 March 2018 is still returned at 10:00 on 2 March 2018, though the expected stamp has changed |
| Tracker.RefreshedPerStamp | src/lib.rs:124-128 | the refresh the comment at lines 124-128 describes: the raw key is kept, the stored stamp becomes the current one, and a key that matches its stamp still does afterwards |
| Tracker.RefreshedPerStampCurrent | src/lib.rs:124-128 | after the stamp-comparing refresh, the key is always the one generated for the current hour |
| Tracker.RefreshedSameDate | src/lib.rs:129-138 | within one date the hour-of-day refresh and the stamp-comparing refresh give the same state |
| Tracker.ApiKey.constructor | src/lib.rs:101-113 | the new key state holds the raw key and the key generated at construction time |
| Tracker.ApiKey.GetKey | src/lib.rs:121-140 | updates the fields to the refreshed state, keeps the raw key and returns the stored key |
| Tracker.MergeParams | src/lib.rs:169-172 | with a plain key and function name, the merged parameters split into the key field, the function field, then the caller's fields |
| Tracker.QueryString | src/lib.rs:174-178 | the root query's fields come before the merged fields; without a root query the merged fields stand alone |
| Tracker.GeneratedKeyNoSeparator | src/lib.rs:247-248 | a generated key never contains '&' |
| Tracker.RequestFields | src/lib.rs:166-178 | for a key state whose key matches its stamp, a request's query splits into `module=json`, the key field, the function field and the endpoint's fields |
| Tracker.DayOffset | src/bustimes.rs:70-73 | no date means offset 0; otherwise today plus the offset is the requested date |
| Tracker.CheckDayOffset | src/bustimes.rs:75-77 | a day offset passes iff it is between 0 and 3; otherwise the error is `DateOutOfBounds` |
| Tracker.MyBusTracker.constructor | src/lib.rs:148-160 | the client starts with the root query `module=json` and a freshly generated key |
| Tracker.MyBusTracker.UriFor | src/lib.rs:180-186 | the URI is whatever the query parses to; a parse failure becomes `InternalError` with the parser's message |
| Tracker.MyBusTracker.GetUri | src/lib.rs:166-187 | refreshes the key, then returns the URI for the refreshed key, function and parameters |
| BusTimes.CheckBusTimes | src/bustimes.rs:62-77 | too many timetables is reported first, then too many departures, then a day outside 0..3; the check passes iff none holds |
| BusTimes.TimetableRequest | src/bustimes.rs:87-95 | a plain timetable contributes exactly `stopIdN`, `refServiceN` and `refDestN` |
| BusTimes.TimetableRequests | src/bustimes.rs:84-97 | the timetables are numbered from 1; the k-th timetable's three fields sit at positions 3k, 3k+1 and 3k+2; an empty list gives one empty field |
| BusTimes.BusTimesParams | src/bustimes.rs:79-105 | the timetable fields are followed by `nb`, `day` and, when a time is given, `time` as `%H:%M` |
| BusTimes.GetBusTimes | src/bustimes.rs:47-114 | a failed check returns its error and leaves the key alone; otherwise the key is refreshed and the URI is built from the bus-times parameters |
| BusTimes.JourneyTimesParams | src/bustimes.rs:134-156 | the fields are the optional `stopId`, then `journeyId` or `busId`, `operator`, `day` and `mode` |
| BusTimes.JourneyTimesExample | src/bustimes.rs:149-156 | journey 12345 for all operators today in mode 0 splits into `journeyId=12345`, `operator=0`, `day=0`, `mode=0` |
| BusTimes.GetJourneyTimes | src/bustimes.rs:116-166 | a day outside 0..3 gives `DateOutOfBounds` with the key untouched; otherwise the key is refreshed and the journey-times URI is built |
| Disruptions.DisruptionsParams | src/disruptions.rs:59-65 | the fields are `operatorId` and `type`; a missing type is sent as 0 |
| Disruptions.DisruptionsDefaultExample | src/disruptions.rs:59-65 | with no type and all operators, the parameters are `operatorId=0&type=0` |
| Disruptions.GetDisruptions | src/disruptions.rs:47-74 | the key is refreshed and the disruptions URI is built; the only possible error is `InternalError` |
| Disruptions.DiversionsParams | src/disruptions.rs:90-105 | the fields are `operatorId`, `refService` (0 when absent) and `day` |
| Disruptions.GetDiversions | src/disruptions.rs:76-114 | a day outside 0..3 gives `DateOutOfBounds` with the key untouched; otherwise the key is refreshed and the diversions URI is built |
| Disruptions.DiversionPointsParams | src/disruptions.rs:126 | the fields are `operatorId` and `diversionId` |
| Disruptions.GetDiversionPoints | src/disruptions.rs:115-135 | the key is refreshed and the diversion-points URI is built; the only possible error is `InternalError` |
| Topological.OperatorParams | src/topological.rs:61 | the operator parameters are the single field `operatorId` |
| Topological.ServicePointsParams | src/topological.rs:103-107 | the fields are `operatorId` and `ref` |
| Topological.GetTopoId | src/topological.rs:52-70 | the key is refreshed and the `getTopoId` URI for the operator is built; the only possible error is `InternalError` |
| Topological.GetServices | src/topological.rs:72-90 | the key is refreshed and the `getServices` URI for the operator is built; the only possible error is `InternalError` |
| Topological.GetServicePoints | src/topological.rs:92-116 | the key is refreshed and the `getServicePoints` URI for the service is built; the only possible error is `InternalError` |
| Topological.GetDestinations | src/topological.rs:118-136 | the key is refreshed and the `getDests` URI for the operator is built; the only possible error is `InternalError` |
| Topological.GetBusStops | src/topological.rs:138-156 | the key is refreshed and the `getBusStops` URI for the operator is built; the only possible error is `InternalError` |

## Left out

- `make_request` is not modelled: the HTTP request, the User-Agent header, the response body and the JSON decoding of results. The model stops at the URI a request is sent to, so `CommunicationError` is declared but never produced.
- The response records (bus times, journey times, services, stops, disruptions, diversions) are not modelled: they are plain serde structs with no logic, some with `f32` coordinates.
- MD5 is not modelled: `ApiKey.md5` is an uninterpreted function that returns 16 bytes.
- `Url::set_query` percent-encoding and hyper's URI parser are not modelled: both are the uninterpreted parameter `MyBusTracker.uriFromQuery`.
- `Url::parse` of the constant root URL in `MyBusTracker::new` is not modelled as failable: the literal is well formed, so the constructor always succeeds.
- The system clock is passed in as `now` and `today`. `get_key` and `generate_api_key` each read the clock; the model uses one reading for both.
- `Tracker.HourStamp`: years are limited to 0000–9999, where `%Y` gives exactly four digits.
- The day difference for a date is taken as a whole number of days (`DayOffset`), not as chrono's `Duration`.
- Logging and `Rc`/`RefCell` are not modelled: they only trace and share the key; `GetKey` updates the key object in place.
- `Models.DecodeNaiveTimeExt`: returns `Option`, not chrono's error kinds, and does not model chrono's whitespace leniency or leap seconds.
- `Models.DecodeReliability`, `Models.DecodeStopType`, `Models.DecodeDirection`: return `Option` instead of serde's unknown-variant error text.
- `Models.DecodeDisruptionType`, `Models.DecodeDisruptionLevel`: inputs that are not a `u8` are rejected by serde before this code runs, and are not modelled.
- `BusTimes.TimetableRequest`, `BusTimes.TimetableRequests`, `BusTimes.JourneyTimesParams`, `Disruptions.DiversionsParams`, `Disruptions.DiversionPointsParams`, `Topological.ServicePointsParams`, `Tracker.MergeParams`, `Tracker.RequestFields`: the field lists are stated only for caller values that contain no '&'. `get_uri` documents that its parameters arrive already URL-encoded.
- `Models.JourneyTimeMode.Code`: the service defines no decoder for modes, so the two codes are tied together only by `Models.JourneyTimeModeCodesDistinct`.

## Findings

| source | as written | input that shows it | evidently intended | confidence | as-written member | corrected member |
|---|---|---|---|---|---|---|
| src/lib.rs:129 | `get_key` regenerates only when the stored hour of day differs from the current hour of day | a key generated at 2018-03-01 10:00 UTC and read at 2018-03-02 10:00 UTC is kept, though the service expects the key for stamp 2018030210 | regenerate whenever the `YYYYMMDDHH` stamp differs, as the comment at lines 124-128 says | not executed | Tracker.KeyReusedNextDay | Tracker.RefreshedPerStampCurrent |

`ApiKey.GetKey` keeps the behaviour as written, because that is what the client does.
`Tracker.RefreshedPerStamp` is the corrected refresh, and `Tracker.RefreshedSameDate`
shows that the two refreshes differ only across dates.
