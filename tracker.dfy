/**
 * The client's state and request construction: the hourly API key (`ApiKey`),
 * its derivation from the developer key and the UTC hour, and the assembly of
 * the request query (`MyBusTracker.GetUri`).
 *
 * The clock is a parameter (`now`, `today`), MD5 is the uninterpreted function
 * `ApiKey.md5`, and the URL library's serialisation and parsing is the
 * uninterpreted function `MyBusTracker.uriFromQuery`.
 */
module Tracker {
  import opened Wrappers
  import opened Decimal
  import opened Hex
  import opened Query

  /** The failures a request can end in. */
  datatype TrackerError =
    | InternalError(cause: string)
    | CommunicationError(cause: string)
    | DateOutOfBounds
    | TooManyTimetables
    | TooManyDepartures

  // ------------------------------------------------------------------ time

  predicate IsLeapYear(y: int) {
    y % 4 == 0 && (y % 100 != 0 || y % 400 == 0)
  }

  function DaysInMonth(y: int, m: int): int
    requires 1 <= m <= 12
  {
    if m == 2 then (if IsLeapYear(y) then 29 else 28)
    else if m == 4 || m == 6 || m == 9 || m == 11 then 30
    else 31
  }

  /** A UTC instant to the hour; minutes and seconds decide nothing here. */
  datatype DateTime = DateTime(year: int, month: int, day: int, hour: int) {
    predicate Valid() {
      && 0 <= year <= 9999
      && 1 <= month <= 12
      && 1 <= day <= DaysInMonth(year, month)
      && 0 <= hour < 24
    }
  }

  type UtcTime = t: DateTime | t.Valid() witness DateTime(1970, 1, 1, 0)

  /** chrono's `%Y%m%d%H` rendering of an instant. */
  function HourStamp(t: UtcTime): (s: string)
    ensures |s| == 10 && AllDigits(s)
  {
    Padded(t.year, 4) + Padded(t.month, 2) + Padded(t.day, 2) + Padded(t.hour, 2)
  }

  /** The stamp names the hour: two instants with the same stamp are the same hour of the same day. */
  lemma HourStampInjective(a: UtcTime, b: UtcTime)
    requires HourStamp(a) == HourStamp(b)
    ensures a == b
  {
    HourStampParts(a);
    HourStampParts(b);
  }

  lemma HourStampParts(t: UtcTime)
    ensures Value(HourStamp(t)[..4]) == t.year
    ensures Value(HourStamp(t)[4..6]) == t.month
    ensures Value(HourStamp(t)[6..8]) == t.day
    ensures Value(HourStamp(t)[8..]) == t.hour
  {
    var s := HourStamp(t);
    assert s[..4] == Padded(t.year, 4);
    assert s[4..6] == Padded(t.month, 2);
    assert s[6..8] == Padded(t.day, 2);
    assert s[8..] == Padded(t.hour, 2);
  }

  // --------------------------------------------------------------- API key

  /** An MD5 digest (RFC 1321): sixteen bytes. */
  type Digest = d: seq<Byte> | |d| == 16 witness [0, 0, 0, 0, 0, 0, 0, 0, 0, 0, 0, 0, 0, 0, 0, 0]

  /**
   * The key for the hour of `now`: the lower-case hex MD5 digest of the
   * developer key followed by the `%Y%m%d%H` stamp, paired with the instant.
   */
  function GenerateApiKey(md5: string -> Digest, baseKey: string, now: UtcTime): (r: (string, UtcTime))
    ensures r.1 == now
    ensures |r.0| == 32 && IsLowerHex(r.0)
    ensures FromHex(r.0) == md5(baseKey + HourStamp(now))
  {
    var computedKey := md5(baseKey + HourStamp(now));
    HexRoundTrip(computedKey);
    (ToHex(computedKey), now)
  }

  /** Same developer key and same hour give the same key, whatever else differs. */
  lemma GenerateApiKeyPerHour(md5: string -> Digest, baseKey: string, a: UtcTime, b: UtcTime)
    requires HourStamp(a) == HourStamp(b)
    ensures GenerateApiKey(md5, baseKey, a) == GenerateApiKey(md5, baseKey, b)
  {
    HourStampInjective(a, b);
  }

  /** The fields of `ApiKey`. */
  datatype KeyState = KeyState(rawApiKey: string, key: string, generated: UtcTime)

  /** The stored key is the one derived for the stored generation instant. */
  predicate Consistent(md5: string -> Digest, s: KeyState) {
    s.key == GenerateApiKey(md5, s.rawApiKey, s.generated).0
  }

  /**
   * The state after `get_key` at `now`: regenerated when the stored hour of day
   * differs from the current one, kept as it is otherwise. Only the hour of day
   * is compared, not the date.
   */
  function Refreshed(md5: string -> Digest, s: KeyState, now: UtcTime): (r: KeyState)
    ensures r.rawApiKey == s.rawApiKey
    ensures r.generated.hour == now.hour
    ensures Consistent(md5, s) ==> Consistent(md5, r)
  {
    if s.generated.hour == now.hour then s
    else
      var (key, generated) := GenerateApiKey(md5, s.rawApiKey, now);
      KeyState(s.rawApiKey, key, generated)
  }

  /** Within one hour of day the key is generated at most once: a second read changes nothing. */
  lemma RefreshedStableWithinHour(md5: string -> Digest, s: KeyState, now: UtcTime, later: UtcTime)
    requires later.hour == now.hour
    ensures Refreshed(md5, Refreshed(md5, s, now), later) == Refreshed(md5, s, now)
  {
  }

  /** When the hour of day has moved on, the key returned is the one derived for `now`. */
  lemma RefreshedAfterHourChange(md5: string -> Digest, s: KeyState, now: UtcTime)
    requires s.generated.hour != now.hour
    ensures Refreshed(md5, s, now).generated == now
    ensures Refreshed(md5, s, now).key == GenerateApiKey(md5, s.rawApiKey, now).0
  {
  }

  /**
   * A key generated at the same hour of day on another date is kept: the state
   * is unchanged, and the key it holds was derived from a stamp other than the
   * current one.
   */
  lemma RefreshedKeepsKeyFromOtherDate(md5: string -> Digest, s: KeyState, now: UtcTime)
    requires Consistent(md5, s)
    requires s.generated.hour == now.hour && s.generated != now
    ensures Refreshed(md5, s, now) == s
    ensures FromHex(Refreshed(md5, s, now).key) == md5(s.rawApiKey + HourStamp(s.generated))
    ensures HourStamp(Refreshed(md5, s, now).generated) != HourStamp(now)
  {
    if HourStamp(s.generated) == HourStamp(now) {
      HourStampInjective(s.generated, now);
    }
  }

  /**
   * A key generated at 10:00 on 1 March 2018 is still in use at 10:00 on 2 March,
   * although the stamp the service expects has changed.
   */
  lemma KeyReusedNextDay(md5: string -> Digest, raw: string)
    ensures var earlier: UtcTime, later: UtcTime := DateTime(2018, 3, 1, 10), DateTime(2018, 3, 2, 10);
      var s := KeyState(raw, GenerateApiKey(md5, raw, earlier).0, earlier);
      Refreshed(md5, s, later) == s && HourStamp(s.generated) != HourStamp(later)
  {
    var earlier: UtcTime, later: UtcTime := DateTime(2018, 3, 1, 10), DateTime(2018, 3, 2, 10);
    var s := KeyState(raw, GenerateApiKey(md5, raw, earlier).0, earlier);
    RefreshedKeepsKeyFromOtherDate(md5, s, later);
  }


  /**
   * The refresh the hourly key evidently calls for: regenerate whenever the
   * `%Y%m%d%H` stamp of `now` differs from the stored one, so that a new day
   * at the same hour also gets a new key.
   */
  function RefreshedPerStamp(md5: string -> Digest, s: KeyState, now: UtcTime): (r: KeyState)
    ensures r.rawApiKey == s.rawApiKey
    ensures HourStamp(r.generated) == HourStamp(now)
    ensures Consistent(md5, s) ==> Consistent(md5, r)
  {
    if HourStamp(s.generated) == HourStamp(now) then s
    else
      var (key, generated) := GenerateApiKey(md5, s.rawApiKey, now);
      KeyState(s.rawApiKey, key, generated)
  }

  /** With the stamp compared, the key held after a refresh is always the one for the current hour. */
  lemma RefreshedPerStampCurrent(md5: string -> Digest, s: KeyState, now: UtcTime)
    requires Consistent(md5, s)
    ensures RefreshedPerStamp(md5, s, now).key == GenerateApiKey(md5, s.rawApiKey, now).0
  {
    if HourStamp(s.generated) == HourStamp(now) {
      HourStampInjective(s.generated, now);
    }
  }

  /** On one date the two refreshes agree: the hour-of-day compare only goes wrong across dates. */
  lemma RefreshedSameDate(md5: string -> Digest, s: KeyState, now: UtcTime)
    requires (s.generated.year, s.generated.month, s.generated.day) == (now.year, now.month, now.day)
    ensures Refreshed(md5, s, now) == RefreshedPerStamp(md5, s, now)
  {
    if s.generated.hour != now.hour && HourStamp(s.generated) == HourStamp(now) {
      HourStampInjective(s.generated, now);
    }
  }

  /** The developer key and its hourly derivative, updated in place by `GetKey`. */
  class ApiKey {
    const md5: string -> Digest
    var rawApiKey: string
    var key: string
    var generated: UtcTime

    function State(): KeyState
      reads this
    {
      KeyState(rawApiKey, key, generated)
    }

    ghost predicate Valid()
      reads this
    {
      Consistent(md5, State())
    }

    constructor (apiKey: string, md5: string -> Digest, now: UtcTime)
      ensures this.md5 == md5
      ensures State() == KeyState(apiKey, GenerateApiKey(md5, apiKey, now).0, now)
      ensures Valid()
    {
      var (key, generated) := GenerateApiKey(md5, apiKey, now);
      this.md5 := md5;
      rawApiKey := apiKey;
      this.key := key;
      this.generated := generated;
    }

    /** Returns a key for the current hour, regenerating it if the hour of day has changed. */
    method GetKey(now: UtcTime) returns (k: string)
      requires Valid()
      modifies this
      ensures Valid()
      ensures State() == Refreshed(md5, old(State()), now)
      ensures rawApiKey == old(rawApiKey)
      ensures k == key
    {
      if generated.hour != now.hour {
        var (newKey, newGenerated) := GenerateApiKey(md5, rawApiKey, now);
        key := newKey;
        generated := newGenerated;
      }
      k := key;
    }
  }

  // --------------------------------------------------------- request query

  /** The query of the fixed root URL `http://ws.mybustracker.co.uk/?module=json`. */
  const RootQuery := "module=json"

  /**
   * `key=K&function=F`, followed by `&P` when extra parameters are given: the
   * key field, the function field, then the caller's own fields.
   */
  function MergeParams(apiKey: string, functionName: string, uriParams: Option<string>): (r: string)
    ensures NoSeparator(apiKey) && NoSeparator(functionName) ==>
      Fields(r) == ["key=" + apiKey, "function=" + functionName] + (if uriParams.Some? then Fields(uriParams.value) else [])
  {
    var keyField, functionField := "key=" + apiKey, "function=" + functionName;
    match uriParams
    case None =>
      TwoPlainFields(keyField, functionField);
      keyField + "&" + functionField
    case Some(params) =>
      ConsField(functionField, params);
      ConsField(keyField, functionField + "&" + params);
      keyField + "&" + (functionField + "&" + params)
  }

  /**
   * The root URL's own query, if any, then `&` and the merged parameters: the
   * root query's fields come first, and without one the merged fields stand alone.
   */
  function QueryString(rootQuery: Option<string>, mergedParams: string): (r: string)
    ensures Fields(r) == (if rootQuery.Some? then Fields(rootQuery.value) else []) + Fields(mergedParams)
  {
    match rootQuery
    case None => mergedParams
    case Some(q) =>
      FieldsAppend(q, mergedParams);
      q + "&" + mergedParams
  }

  /** A generated key never contains a field separator. */
  lemma GeneratedKeyNoSeparator(md5: string -> Digest, baseKey: string, now: UtcTime)
    ensures NoSeparator(GenerateApiKey(md5, baseKey, now).0)
  {
    var k := GenerateApiKey(md5, baseKey, now).0;
    assert forall i | 0 <= i < |k| :: k[i] != '&';
  }

  /**
   * The whole query a client with a consistent key state builds: the root query,
   * the stored key, the function name, then the endpoint's own fields.
   */
  lemma RequestFields(md5: string -> Digest, s: KeyState, functionName: string, params: string)
    requires Consistent(md5, s) && NoSeparator(functionName)
    ensures Fields(QueryString(Some(RootQuery), MergeParams(s.key, functionName, Some(params)))) ==
      [RootQuery, "key=" + s.key, "function=" + functionName] + Fields(params)
  {
    GeneratedKeyNoSeparator(md5, s.rawApiKey, s.generated);
    assert NoSeparator(RootQuery);
    QueryFields(RootQuery, s.key, functionName, params);
  }

  lemma QueryFields(rootQuery: string, apiKey: string, functionName: string, params: string)
    requires NoSeparator(rootQuery) && NoSeparator(apiKey) && NoSeparator(functionName)
    ensures Fields(QueryString(Some(rootQuery), MergeParams(apiKey, functionName, Some(params)))) ==
      [rootQuery, "key=" + apiKey, "function=" + functionName] + Fields(params)
  {
    FieldsOfPlain(rootQuery);
  }

  // ------------------------------------------------------- the date window

  /** How many days ahead a date-bounded request may look. */
  const MaxDayOffset := 3

  /** The signed number of days from `today` to `day`; no day means today. */
  function DayOffset(day: Option<int>, today: int): (r: int)
    ensures day.None? ==> r == 0
    ensures day.Some? ==> today + r == day.value
  {
    match day
    case None => 0
    case Some(d) => d - today
  }

  /** The day-offset check shared by the date-bounded requests. */
  function CheckDayOffset(offset: int): (r: Option<TrackerError>)
    ensures r == None <==> 0 <= offset <= MaxDayOffset
    ensures r != None ==> r == Some(DateOutOfBounds)
  {
    if offset > MaxDayOffset || offset < 0 then Some(DateOutOfBounds) else None
  }

  // ------------------------------------------------------------ the client

  /** A request URI, as the URL library produces it. */
  datatype Uri = Uri(text: string)

  class MyBusTracker {
    const apiKey: ApiKey
    const rootQuery: Option<string>
    /** Serialising the root URL with a new query and parsing it as a request URI. */
    const uriFromQuery: string -> Result<Uri, string>

    ghost predicate Valid()
      reads this, apiKey
    {
      apiKey.Valid()
    }

    constructor (apiKey: string, md5: string -> Digest, uriFromQuery: string -> Result<Uri, string>, now: UtcTime)
      ensures fresh(this.apiKey) && Valid()
      ensures this.apiKey.md5 == md5
      ensures this.apiKey.State() == KeyState(apiKey, GenerateApiKey(md5, apiKey, now).0, now)
      ensures rootQuery == Some(RootQuery) && this.uriFromQuery == uriFromQuery
    {
      this.apiKey := new ApiKey(apiKey, md5, now);
      rootQuery := Some(RootQuery);
      this.uriFromQuery := uriFromQuery;
    }

    /**
     * The URI for `functionName` with key `key`: the URL library's result, with
     * any failure reported as an internal error carrying its message.
     */
    function UriFor(key: string, functionName: string, uriParams: Option<string>): (r: Result<Uri, TrackerError>)
      ensures var parsed := uriFromQuery(QueryString(rootQuery, MergeParams(key, functionName, uriParams)));
        && (r.Ok? <==> parsed.Ok?)
        && (r.Ok? ==> r.value == parsed.value)
        && (r.Err? ==> r.error == InternalError(parsed.error))
    {
      match uriFromQuery(QueryString(rootQuery, MergeParams(key, functionName, uriParams)))
      case Ok(uri) => Ok(uri)
      case Err(cause) => Err(InternalError(cause))
    }

    /** Refreshes the key and builds the request URI for `functionName` and the given parameters. */
    method GetUri(functionName: string, uriParams: Option<string>, now: UtcTime) returns (r: Result<Uri, TrackerError>)
      requires Valid()
      modifies apiKey
      ensures Valid()
      ensures apiKey.State() == Refreshed(apiKey.md5, old(apiKey.State()), now)
      ensures r == UriFor(apiKey.key, functionName, uriParams)
    {
      var key := apiKey.GetKey(now);
      var mergedParams := MergeParams(key, functionName, uriParams);
      var queryString := QueryString(rootQuery, mergedParams);
      match uriFromQuery(queryString)
      case Ok(uri) => r := Ok(uri);
      case Err(cause) => r := Err(InternalError(cause));
    }
  }
}
