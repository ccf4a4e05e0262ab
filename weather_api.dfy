/** The OpenWeather provider client (`fetchWeatherAPI` with its module-level rate
    limiter), the hourly-forecast formatter and the assembly of the app's weather
    record in `getWeatherData`.

    The network is an input: each request's outcome is a `HttpResponse`, whose
    payload already carries the verdict of the response schema. The clock is an
    input too (`now`, in milliseconds). */
module WeatherApi {
  import opened Wrappers
  import opened JsText
  import JsMath
  import opened WeatherSchemas

  /** At most this many requests are dispatched per window. */
  const CallLimit: int := 50

  /** The window length in milliseconds. */
  const WindowMs: int := 60000

  /** How many hourly entries the formatter keeps. */
  const HourlySlots: int := 8

  /** Why a request or `getWeatherData` rejects. */
  datatype ApiError =
    | RateLimited                        // the local budget is spent
    | MissingApiKey                      // the key is unset or empty
    | NotFound                           // HTTP 404
    | HttpFailure(status: nat)           // any other non-2xx status
    | SchemaMismatch(issues: seq<string>) // the response schema's issue messages
    | NetworkFailure                     // `fetch` itself rejected
    | BodyNotJson                        // `response.json()` rejected
    | SnapshotRejected                   // the final `WeatherDataSchema.parse` threw

  /** The response body as the endpoint's schema judged it. */
  datatype Payload<T> = NotJson | Conforms(value: T) | Violates(issues: seq<string>)

  /** What `fetch` produced for one request. */
  datatype HttpResponse<T> = FetchRejected | Response(status: nat, payload: Payload<T>)

  /** The two module-level variables `apiCallCount` and `apiCallWindowStart`. */
  datatype Limiter = Limiter(count: int, windowStart: int)

  /** The outcome of the synchronous part of `fetchWeatherAPI`, before any `await`. */
  datatype Admission = Admitted | Refused(error: ApiError)

  /** The message of the `Error` a rejection carries; `None` where the text comes from
      the platform (a `TypeError` from `fetch`, a `SyntaxError` from `json()`, a
      `ZodError` from the final parse). */
  function Message(e: ApiError): (m: Option<string>)
    ensures m.None? <==> e.NetworkFailure? || e.BodyNotJson? || e.SnapshotRejected?
    ensures m.Some? ==> m.value != ""
  {
    match e
    case RateLimited => Some("API 호출 한도를 초과했습니다. 잠시 후 다시 시도해주세요.")
    case MissingApiKey => Some("OpenWeatherMap API 키가 설정되지 않았습니다.")
    case NotFound => Some("해당 장소의 정보가 제공되지 않습니다.")
    case HttpFailure(status) => Some(HttpFailurePrefix + Decimal(status) + ")")
    case SchemaMismatch(issues) => Some(SchemaMismatchPrefix + JoinWith(issues, ", "))
    case _ => None
  }

  const HttpFailurePrefix: string := "날씨 정보를 가져오는데 실패했습니다. ("

  const SchemaMismatchPrefix: string := "API 응답 형식이 올바르지 않습니다: "

  /** The message of a failed status carries the status in decimal, between the
      parentheses at its end. */
  lemma HttpFailureMessageCarriesStatus(status: nat)
    ensures var m := Message(HttpFailure(status)).value;
      && |HttpFailurePrefix| < |m| && m[|m| - 1] == ')'
      && (forall k :: |HttpFailurePrefix| <= k < |m| - 1 ==> IsDigit(m[k]))
      && DigitsValue(m[|HttpFailurePrefix|..|m| - 1]) == status
  {
    var m := Message(HttpFailure(status)).value;
    assert m[|HttpFailurePrefix|..|m| - 1] == Decimal(status);
    DecimalValue(status);
  }

  /** The message of a schema mismatch lists the schema's issue messages after a
      fixed prefix, in order, separated by ", ", and nothing follows the last one. */
  lemma SchemaMismatchMessageCarriesIssues(issues: seq<string>)
    ensures var m := Message(SchemaMismatch(issues)).value;
      && |SchemaMismatchPrefix| <= |m| && m[..|SchemaMismatchPrefix|] == SchemaMismatchPrefix
      && (issues == [] ==> m == SchemaMismatchPrefix)
      && forall i | 0 <= i < |issues| ::
           var o := |SchemaMismatchPrefix| + PartStart(issues, ", ", i);
           && o + |issues[i]| <= |m| && m[o..o + |issues[i]|] == issues[i]
           && (i + 1 < |issues| ==> o + |issues[i]| + 2 <= |m| && m[o + |issues[i]|..o + |issues[i]| + 2] == ", ")
           && (i + 1 == |issues| ==> o + |issues[i]| == |m|)
  {
    var m := Message(SchemaMismatch(issues)).value;
    assert m == SchemaMismatchPrefix + JoinWith(issues, ", ");
    forall i | 0 <= i < |issues|
      ensures var o := |SchemaMismatchPrefix| + PartStart(issues, ", ", i);
        && o + |issues[i]| <= |m| && m[o..o + |issues[i]|] == issues[i]
        && (i + 1 < |issues| ==> o + |issues[i]| + 2 <= |m| && m[o + |issues[i]|..o + |issues[i]| + 2] == ", ")
        && (i + 1 == |issues| ==> o + |issues[i]| == |m|)
    {
      PrefixedJoinPlacesPart(SchemaMismatchPrefix, issues, ", ", i);
      if i + 1 < |issues| {
        PrefixedJoinPlacesSeparator(SchemaMismatchPrefix, issues, ", ", i);
      }
    }
  }

  // ----- the rate limiter, as a function of its state -----

  /** The synchronous prologue of `fetchWeatherAPI`: open a new window once more than
      `WindowMs` has passed, refuse at the limit, otherwise spend one call of the
      budget, and only then look for the API key. */
  function Admit(s: Limiter, now: int, keyPresent: bool): (r: (Limiter, Admission))
    ensures r.0.windowStart == (if now - s.windowStart > WindowMs then now else s.windowStart)
    ensures var base := if now - s.windowStart > WindowMs then 0 else s.count;
      && (r.1 == Refused(RateLimited) <==> base >= CallLimit)
      && r.0.count == (if base >= CallLimit then base else base + 1)
      && (r.1 == Admitted <==> base < CallLimit && keyPresent)
    ensures r.1.Refused? ==> r.1.error == RateLimited || r.1.error == MissingApiKey
  {
    var s1 := if now - s.windowStart > WindowMs then Limiter(0, now) else s;
    if s1.count >= CallLimit then (s1, Refused(RateLimited))
    else if !keyPresent then (s1.(count := s1.count + 1), Refused(MissingApiKey))
    else (s1.(count := s1.count + 1), Admitted)
  }

  /** What happens once the response of a dispatched request arrives: 404, then a
      429 (which also forces the counter to the limit), then any other non-2xx
      status, then the body and its schema. */
  function Settle<T>(s: Limiter, response: HttpResponse<T>): (r: (Limiter, Result<T, ApiError>))
    ensures r.0.windowStart == s.windowStart
    ensures r.0.count == (if response.Response? && response.status == 429 then CallLimit else s.count)
    ensures r.1.Ok? <==> response.Response? && 200 <= response.status <= 299 && response.payload.Conforms?
    ensures r.1.Ok? ==> r.1.value == response.payload.value
    ensures response.Response? && response.status == 404 ==> r.1 == Err(NotFound)
    ensures response.Response? && !(200 <= response.status <= 299) && response.status != 404
      ==> r.1 == Err(HttpFailure(response.status))
    ensures response.Response? && 200 <= response.status <= 299 && response.payload.Violates?
      ==> r.1 == Err(SchemaMismatch(response.payload.issues))
    ensures response.Response? && 200 <= response.status <= 299 && response.payload.NotJson?
      ==> r.1 == Err(BodyNotJson)
    ensures response.FetchRejected? ==> r.1 == Err(NetworkFailure)
  {
    match response
    case FetchRejected => (s, Err(NetworkFailure))
    case Response(status, payload) =>
      if !(200 <= status <= 299) then
        if status == 404 then (s, Err(NotFound))
        else if status == 429 then (s.(count := CallLimit), Err(HttpFailure(status)))
        else (s, Err(HttpFailure(status)))
      else
        match payload
        case NotJson => (s, Err(BodyNotJson))
        case Conforms(v) => (s, Ok(v))
        case Violates(issues) => (s, Err(SchemaMismatch(issues)))
  }

  /** One whole `fetchWeatherAPI` call. */
  function Fetch<T>(s: Limiter, now: int, keyPresent: bool, response: HttpResponse<T>)
    : (r: (Limiter, Result<T, ApiError>))
    ensures r.1.Ok? ==> (keyPresent && response.Response? && 200 <= response.status <= 299
      && response.payload == Conforms(r.1.value))
    ensures Admit(s, now, keyPresent).1.Refused? ==> r == (Admit(s, now, keyPresent).0, Err(Admit(s, now, keyPresent).1.error))
    ensures Admit(s, now, keyPresent).1.Admitted? ==> r == Settle(Admit(s, now, keyPresent).0, response)
    ensures r.1.Ok? <==> (Admit(s, now, keyPresent).1.Admitted? && response.Response?
      && 200 <= response.status <= 299 && response.payload.Conforms?)
    ensures 0 <= s.count <= CallLimit ==> 0 <= r.0.count <= CallLimit
  {
    var (s1, a) := Admit(s, now, keyPresent);
    if a.Refused? then (s1, Err(a.error)) else Settle(s1, response)
  }

  predicate LimiterOk(s: Limiter) {
    0 <= s.count <= CallLimit
  }

  /** Admission and settlement keep the counter within `0..CallLimit`. */
  lemma LimiterStaysInRange<T>(s: Limiter, now: int, keyPresent: bool, response: HttpResponse<T>)
    requires LimiterOk(s)
    ensures LimiterOk(Admit(s, now, keyPresent).0)
    ensures LimiterOk(Settle(s, response).0)
  {
  }

  /** The window is reset (counter 0, start `now`) exactly when strictly more than
      `WindowMs` has passed since it started. */
  lemma WindowResetRule(s: Limiter, now: int, keyPresent: bool)
    requires LimiterOk(s)
    ensures var (s1, a) := Admit(s, now, keyPresent);
      && (s1.windowStart == now || s1.windowStart == s.windowStart)
      && (now - s.windowStart > WindowMs ==> s1 == Limiter(1, now) && a != Refused(RateLimited))
      && (now - s.windowStart <= WindowMs ==> s1.windowStart == s.windowStart)
  {
  }

  /** Within a window, a counter at the limit refuses before any request is made,
      and the state stays as it was. */
  lemma RefusedAtLimit(s: Limiter, now: int, keyPresent: bool)
    requires s.count >= CallLimit && now - s.windowStart <= WindowMs
    ensures Admit(s, now, keyPresent) == (s, Refused(RateLimited))
  {
  }

  /** Every call that gets past the limit spends one unit of budget, even when the
      key is missing and whatever the response turns out to be. */
  lemma AdmissionSpendsBudget(s: Limiter, now: int, keyPresent: bool)
    requires s.count < CallLimit && now - s.windowStart <= WindowMs
    ensures Admit(s, now, keyPresent).0 == s.(count := s.count + 1)
    ensures Admit(s, now, keyPresent).1 == if keyPresent then Admitted else Refused(MissingApiKey)
  {
  }

  /** An HTTP 429 forces the counter to the limit, so the next call in the same window
      is refused. */
  lemma CooldownAfterTooManyRequests<T>(s: Limiter, p: Payload<T>, later: int, keyPresent: bool)
    requires later - s.windowStart <= WindowMs
    ensures var (s1, r) := Settle(s, Response(429, p));
      && s1.count == CallLimit && r == Err(HttpFailure(429))
      && Admit(s1, later, keyPresent).1 == Refused(RateLimited)
  {
  }

  /** One request in a sequence of calls: its clock reading and its response. */
  datatype Call<T> = Call(now: int, response: HttpResponse<T>)

  /** A sequence of `fetchWeatherAPI` calls, one after another: the final limiter
      state and how many calls got past the limit (spent budget). */
  function Run<T>(s: Limiter, keyPresent: bool, calls: seq<Call<T>>): (Limiter, nat)
    decreases |calls|
  {
    if calls == [] then (s, 0)
    else
      var (s1, a) := Admit(s, calls[0].now, keyPresent);
      var spent := if a == Refused(RateLimited) then 0 else 1;
      var s2 := if a.Admitted? then Settle(s1, calls[0].response).0 else s1;
      var (s3, rest) := Run(s2, keyPresent, calls[1..]);
      (s3, spent + rest)
  }

  predicate InWindow<T>(s: Limiter, calls: seq<Call<T>>) {
    forall k :: 0 <= k < |calls| ==> calls[k].now - s.windowStart <= WindowMs
  }

  /** Within one window no more calls get past the limit than the budget that was
      left when the sequence began, whatever the responses (429s included). */
  lemma {:induction false} BudgetPerWindow<T>(s: Limiter, keyPresent: bool, calls: seq<Call<T>>)
    requires LimiterOk(s) && InWindow(s, calls)
    ensures var (s', spent) := Run(s, keyPresent, calls);
      LimiterOk(s') && s'.windowStart == s.windowStart && s.count + spent <= s'.count
    ensures Run(s, keyPresent, calls).1 <= CallLimit - s.count
    decreases |calls|
  {
    if calls != [] {
      var (s1, a) := Admit(s, calls[0].now, keyPresent);
      var s2 := if a.Admitted? then Settle(s1, calls[0].response).0 else s1;
      assert LimiterOk(s2) && s2.windowStart == s.windowStart;
      assert InWindow(s2, calls[1..]) by {
        forall k | 0 <= k < |calls[1..]| ensures calls[1..][k].now - s2.windowStart <= WindowMs {
          assert calls[1..][k] == calls[k + 1];
        }
      }
      BudgetPerWindow(s2, keyPresent, calls[1..]);
    }
  }

  predicate NoTooManyRequests<T>(calls: seq<Call<T>>) {
    forall k :: 0 <= k < |calls| ==> !(calls[k].response.Response? && calls[k].response.status == 429)
  }

  /** Without 429s, the calls of one window spend exactly `min(n, budget left)`: the
      first calls up to the limit get through and every later one is refused. */
  lemma {:induction false} ExactBudgetPerWindow<T>(s: Limiter, keyPresent: bool, calls: seq<Call<T>>)
    requires LimiterOk(s) && InWindow(s, calls) && NoTooManyRequests(calls)
    ensures var (s', spent) := Run(s, keyPresent, calls);
      && spent == (if |calls| < CallLimit - s.count then |calls| else CallLimit - s.count)
      && s'.count == s.count + spent
    decreases |calls|
  {
    if calls != [] {
      var (s1, a) := Admit(s, calls[0].now, keyPresent);
      var s2 := if a.Admitted? then Settle(s1, calls[0].response).0 else s1;
      assert s2.count == (if s.count < CallLimit then s.count + 1 else s.count);
      assert s2.windowStart == s.windowStart;
      assert InWindow(s2, calls[1..]) && NoTooManyRequests(calls[1..]) by {
        forall k | 0 <= k < |calls[1..]|
          ensures calls[1..][k].now - s2.windowStart <= WindowMs
          ensures !(calls[1..][k].response.Response? && calls[1..][k].response.status == 429)
        {
          assert calls[1..][k] == calls[k + 1];
        }
      }
      ExactBudgetPerWindow(s2, keyPresent, calls[1..]);
    }
  }

  // ----- the provider client -----

  /** The module state of `weather.ts`: the API key (read once at load) and the
      two limiter variables. */
  class ProviderClient {
    const keyPresent: bool
    var callCount: int
    var windowStart: int

    function State(): Limiter
      reads this
    {
      Limiter(callCount, windowStart)
    }

    ghost predicate Valid()
      reads this
    {
      LimiterOk(State())
    }

    /** Module load: `apiCallCount = 0`, `apiCallWindowStart = Date.now()`. */
    constructor (keyPresent: bool, loadedAt: int)
      ensures this.keyPresent == keyPresent
      ensures State() == Limiter(0, loadedAt) && Valid()
    {
      this.keyPresent := keyPresent;
      callCount := 0;
      windowStart := loadedAt;
    }

    /** The part of `fetchWeatherAPI` that runs before its first `await`. */
    method Begin(now: int) returns (a: Admission)
      requires Valid()
      modifies this
      ensures Valid()
      ensures (State(), a) == Admit(old(State()), now, keyPresent)
    {
      if now - windowStart > WindowMs {
        callCount := 0;
        windowStart := now;
      }
      if callCount >= CallLimit {
        return Refused(RateLimited);
      }
      callCount := callCount + 1;
      if !keyPresent {
        return Refused(MissingApiKey);
      }
      return Admitted;
    }

    /** The part of `fetchWeatherAPI` that runs once the response is in. */
    method Complete<T>(response: HttpResponse<T>) returns (r: Result<T, ApiError>)
      requires Valid()
      modifies this
      ensures Valid()
      ensures (State(), r) == Settle(old(State()), response)
    {
      match response
      case FetchRejected =>
        r := Err(NetworkFailure);
      case Response(status, payload) =>
        if !(200 <= status <= 299) {
          if status == 404 {
            return Err(NotFound);
          }
          if status == 429 {
            callCount := CallLimit;
          }
          return Err(HttpFailure(status));
        }
        match payload
        case NotJson => r := Err(BodyNotJson);
        case Conforms(v) => r := Ok(v);
        case Violates(issues) => r := Err(SchemaMismatch(issues));
    }

    /** `fetchWeatherAPI(endpoint, params, schema)`. */
    method FetchWeatherApi<T>(now: int, response: HttpResponse<T>) returns (r: Result<T, ApiError>)
      requires Valid()
      modifies this
      ensures Valid()
      ensures (State(), r) == Fetch(old(State()), now, keyPresent, response)
    {
      var a := Begin(now);
      if a.Refused? {
        return Err(a.error);
      }
      r := Complete(response);
    }

    /** `getWeatherData(coordinates)`: both requests are admitted one after the other
        before either response is awaited; both responses are then handled, and the
        record is assembled and validated only when both succeed. */
    method GetWeatherData(now: int, currentResponse: HttpResponse<CurrentWeatherResponse>,
                          forecastResponse: HttpResponse<ForecastResponse>,
                          currentSettlesFirst: bool, formattedAt: int, timeLabel: int -> string)
      returns (r: Result<WeatherData, ApiError>)
      requires Valid()
      modifies this
      ensures Valid()
      ensures (State(), r) == GetWeatherDataSpec(old(State()), now, keyPresent, currentResponse,
                                                 forecastResponse, currentSettlesFirst, formattedAt, timeLabel)
    {
      var a1 := Begin(now);
      var a2 := Begin(now);
      var r1: Result<CurrentWeatherResponse, ApiError>;
      var r2: Result<ForecastResponse, ApiError>;
      if a1.Admitted? {
        r1 := Complete(currentResponse);
      } else {
        r1 := Err(a1.error);
      }
      if a2.Admitted? {
        r2 := Complete(forecastResponse);
      } else {
        r2 := Err(a2.error);
      }
      var failure := FirstRejection(a1, r1, a2, r2, currentSettlesFirst);
      if failure.Some? {
        return Err(failure.value);
      }
      r := BuildWeatherData(r1.value, r2.value, formattedAt, timeLabel);
    }
  }

  /** Which rejection `Promise.all` reports: a request refused before its first
      `await` rejects at once, the current-conditions one first; otherwise the
      response that failed, and when both failed the one that settled first. */
  function FirstRejection<A, B>(a1: Admission, r1: Result<A, ApiError>, a2: Admission, r2: Result<B, ApiError>,
                                currentSettlesFirst: bool): (e: Option<ApiError>)
    requires a1.Refused? ==> r1 == Err(a1.error)
    requires a2.Refused? ==> r2 == Err(a2.error)
    ensures e.None? <==> r1.Ok? && r2.Ok?
    ensures e.Some? ==> (r1.Err? && e.value == r1.error) || (r2.Err? && e.value == r2.error)
  {
    if a1.Refused? then Some(a1.error)
    else if a2.Refused? then Some(a2.error)
    else if r1.Err? && (r2.Ok? || currentSettlesFirst) then Some(r1.error)
    else if r2.Err? then Some(r2.error)
    else None
  }

  /** `getWeatherData` as a function of the limiter state and the two responses. */
  function GetWeatherDataSpec(s: Limiter, now: int, keyPresent: bool,
                              currentResponse: HttpResponse<CurrentWeatherResponse>,
                              forecastResponse: HttpResponse<ForecastResponse>,
                              currentSettlesFirst: bool, formattedAt: int, timeLabel: int -> string)
    : (r: (Limiter, Result<WeatherData, ApiError>))
    ensures !keyPresent ==> r.1.Err? && (r.1.error == MissingApiKey || r.1.error == RateLimited)
    ensures 0 <= s.count <= CallLimit ==> 0 <= r.0.count <= CallLimit
    ensures r.1.Ok? ==> ValidCoordinates(r.1.value.coordinates)
  {
    var (s1, a1) := Admit(s, now, keyPresent);
    var (s2, a2) := Admit(s1, now, keyPresent);
    var (s3, r1) := if a1.Admitted? then Settle(s2, currentResponse) else (s2, Err(a1.error));
    var (s4, r2) := if a2.Admitted? then Settle(s3, forecastResponse) else (s3, Err(a2.error));
    var failure := FirstRejection(a1, r1, a2, r2, currentSettlesFirst);
    if failure.Some? then (s4, Err(failure.value))
    else (s4, BuildWeatherData(r1.value, r2.value, formattedAt, timeLabel))
  }

  /** No partial record: `getWeatherData` resolves only when both requests got a 2xx
      response whose body passed its schema, and then with the record built from
      those two bodies. */
  lemma NoPartialSnapshot(s: Limiter, now: int, keyPresent: bool,
                          currentResponse: HttpResponse<CurrentWeatherResponse>,
                          forecastResponse: HttpResponse<ForecastResponse>,
                          currentSettlesFirst: bool, formattedAt: int, timeLabel: int -> string)
    requires LimiterOk(s)
    ensures var r := GetWeatherDataSpec(s, now, keyPresent, currentResponse, forecastResponse,
                                        currentSettlesFirst, formattedAt, timeLabel).1;
      r.Ok? ==>
        && keyPresent
        && currentResponse.Response? && 200 <= currentResponse.status <= 299 && currentResponse.payload.Conforms?
        && forecastResponse.Response? && 200 <= forecastResponse.status <= 299 && forecastResponse.payload.Conforms?
        && r == BuildWeatherData(currentResponse.payload.value, forecastResponse.payload.value, formattedAt, timeLabel)
    ensures var r := GetWeatherDataSpec(s, now, keyPresent, currentResponse, forecastResponse,
                                        currentSettlesFirst, formattedAt, timeLabel).1;
      (&& keyPresent && (now - s.windowStart > WindowMs || s.count + 2 <= CallLimit)
       && currentResponse.Response? && 200 <= currentResponse.status <= 299 && currentResponse.payload.Conforms?
       && forecastResponse.Response? && 200 <= forecastResponse.status <= 299 && forecastResponse.payload.Conforms?)
      ==> r == BuildWeatherData(currentResponse.payload.value, forecastResponse.payload.value, formattedAt, timeLabel)
  {
  }

  /** Both requests of one `getWeatherData` spend budget, whatever their responses:
      with room for two calls in the current window, the counter grows by two unless
      a 429 has forced it to the limit. */
  lemma WeatherDataSpendsTwoCalls(s: Limiter, now: int, keyPresent: bool,
                                  currentResponse: HttpResponse<CurrentWeatherResponse>,
                                  forecastResponse: HttpResponse<ForecastResponse>,
                                  currentSettlesFirst: bool, formattedAt: int, timeLabel: int -> string)
    requires LimiterOk(s) && s.count + 2 <= CallLimit && now - s.windowStart <= WindowMs
    ensures var s' := GetWeatherDataSpec(s, now, keyPresent, currentResponse, forecastResponse,
                                         currentSettlesFirst, formattedAt, timeLabel).0;
      s'.windowStart == s.windowStart && (s'.count == s.count + 2 || s'.count == CallLimit)
  {
  }

  // ----- the normaliser -----

  datatype Condition = Condition(description: string, icon: string)

  datatype MainReadings = MainReadings(temp: real, feelsLike: real, tempMin: real, tempMax: real, humidity: real)

  /** The fields of the `/weather` response that the app reads. */
  datatype CurrentWeatherResponse = CurrentWeatherResponse(
    name: string, coord: Coordinates, main: MainReadings, weather: seq<Condition>, windSpeed: real)

  /** The fields of one `/forecast` list entry that the app reads (`dt` in seconds). */
  datatype ForecastItem = ForecastItem(dt: int, temp: real, weather: seq<Condition>)

  datatype ForecastResponse = ForecastResponse(list: seq<ForecastItem>)

  /** `item.dt * 1000 >= now.getTime()`. */
  predicate IsUpcoming(item: ForecastItem, nowMs: int) {
    item.dt * 1000 >= nowMs
  }

  /** `list.filter(item => item.dt * 1000 >= now)`. */
  function Upcoming(items: seq<ForecastItem>, nowMs: int): (r: seq<ForecastItem>)
    ensures |r| <= |items|
    ensures forall k :: 0 <= k < |r| ==> IsUpcoming(r[k], nowMs) && r[k] in items
    ensures forall x :: x in items && IsUpcoming(x, nowMs) ==> x in r
  {
    if items == [] then []
    else if IsUpcoming(items[0], nowMs) then [items[0]] + Upcoming(items[1..], nowMs)
    else Upcoming(items[1..], nowMs)
  }

  /** The filter keeps input order: filtering a concatenation is concatenating the
      filtered parts. */
  lemma {:induction false} UpcomingKeepsOrder(a: seq<ForecastItem>, b: seq<ForecastItem>, nowMs: int)
    ensures Upcoming(a + b, nowMs) == Upcoming(a, nowMs) + Upcoming(b, nowMs)
  {
    if a != [] {
      assert (a + b)[0] == a[0] && (a + b)[1..] == a[1..] + b;
      UpcomingKeepsOrder(a[1..], b, nowMs);
    } else {
      assert a + b == b;
    }
  }

  /** `weather[0]?.icon || "01d"`: an empty icon string falls back too. */
  function IconOf(weather: seq<Condition>): (icon: string)
    ensures icon != []
    ensures weather != [] && weather[0].icon != "" ==> icon == weather[0].icon
    ensures weather == [] || weather[0].icon == "" ==> icon == "01d"
  {
    if weather != [] && weather[0].icon != "" then weather[0].icon else "01d"
  }

  /** `weather[0]?.description || ""`. */
  function DescriptionOf(weather: seq<Condition>): (d: string)
    ensures weather != [] ==> d == weather[0].description
    ensures weather == [] ==> d == ""
  {
    if weather != [] then weather[0].description else ""
  }

  predicate IsWhole(x: real) {
    x == x.Floor as real
  }

  /** One hourly entry; `toLocaleTimeString("ko-KR", …)` is the `timeLabel` input. */
  function ToHourly(item: ForecastItem, timeLabel: int -> string): (h: HourlyForecast)
    ensures h.time == timeLabel(item.dt)
    ensures IsWhole(h.temp) && h.temp - 0.5 <= item.temp < h.temp + 0.5
    ensures h.icon != "" && h.icon == IconOf(item.weather)
    ensures h.description == DescriptionOf(item.weather)
  {
    HourlyForecast(timeLabel(item.dt), JsMath.Round(item.temp) as real, IconOf(item.weather), DescriptionOf(item.weather))
  }

  function MapToHourly(items: seq<ForecastItem>, timeLabel: int -> string): (r: seq<HourlyForecast>)
    ensures |r| == |items|
    ensures forall k :: 0 <= k < |r| ==> r[k] == ToHourly(items[k], timeLabel)
  {
    if items == [] then [] else [ToHourly(items[0], timeLabel)] + MapToHourly(items[1..], timeLabel)
  }

  /** `formatHourlyForecast(forecast)`: the first (at most) eight entries at or after
      `nowMs`, in input order, each with a whole temperature and a non-empty icon. */
  function FormatHourlyForecast(forecast: ForecastResponse, nowMs: int, timeLabel: int -> string)
    : (r: seq<HourlyForecast>)
    ensures var up := Upcoming(forecast.list, nowMs);
      && |r| == (if |up| < HourlySlots then |up| else HourlySlots)
      && forall k :: 0 <= k < |r| ==> r[k] == ToHourly(up[k], timeLabel)
    ensures forall k :: 0 <= k < |r| ==> IsWhole(r[k].temp) && r[k].icon != []
  {
    var up := Upcoming(forecast.list, nowMs);
    var slots := if |up| < HourlySlots then up else up[..HourlySlots];
    MapToHourly(slots, timeLabel)
  }

  /** Every formatted entry comes from a forecast item at or after `nowMs`. */
  lemma HourlyEntriesAreUpcoming(forecast: ForecastResponse, nowMs: int, timeLabel: int -> string, k: int)
    requires 0 <= k < |FormatHourlyForecast(forecast, nowMs, timeLabel)|
    ensures exists item :: item in forecast.list && IsUpcoming(item, nowMs)
                           && FormatHourlyForecast(forecast, nowMs, timeLabel)[k] == ToHourly(item, timeLabel)
  {
    var up := Upcoming(forecast.list, nowMs);
    assert up[k] in forecast.list && IsUpcoming(up[k], nowMs);
  }

  /** The record `getWeatherData` builds before validating it. */
  function AssembleSnapshot(current: CurrentWeatherResponse, hourly: seq<HourlyForecast>): WeatherData {
    WeatherData(
      current.name,
      Coordinates(current.coord.lat, current.coord.lon),
      Current(
        JsMath.Round(current.main.temp) as real,
        JsMath.Round(current.main.feelsLike) as real,
        JsMath.Round(current.main.tempMin) as real,
        JsMath.Round(current.main.tempMax) as real,
        current.main.humidity,
        DescriptionOf(current.weather),
        IconOf(current.weather),
        current.windSpeed),
      hourly)
  }

  /** The last steps of `getWeatherData`: format, assemble and pass the record
      through `WeatherDataSchema.parse`. It succeeds exactly when the provider's
      coordinates are in range; the location is the provider's `name`, the
      temperatures are rounded, humidity and wind speed pass through and the icon
      is never empty. */
  function BuildWeatherData(current: CurrentWeatherResponse, forecast: ForecastResponse,
                            formattedAt: int, timeLabel: int -> string)
    : (r: Result<WeatherData, ApiError>)
    ensures r.Ok? <==> ValidCoordinates(current.coord)
    ensures r.Err? ==> r.error == SnapshotRejected
    ensures r.Ok? ==>
      && r.value.location == current.name
      && r.value.coordinates == current.coord
      && r.value.current.temp == JsMath.Round(current.main.temp) as real
      && r.value.current.feelsLike == JsMath.Round(current.main.feelsLike) as real
      && r.value.current.tempMin == JsMath.Round(current.main.tempMin) as real
      && r.value.current.tempMax == JsMath.Round(current.main.tempMax) as real
      && r.value.current.humidity == current.main.humidity
      && r.value.current.windSpeed == current.windSpeed
      && r.value.current.icon != []
      && r.value.current.icon == IconOf(current.weather)
      && r.value.current.description == DescriptionOf(current.weather)
      && r.value.hourlyForecast == FormatHourlyForecast(forecast, formattedAt, timeLabel)
  {
    var w := AssembleSnapshot(current, FormatHourlyForecast(forecast, formattedAt, timeLabel));
    WeatherDataRoundTrip(w);
    match ParseWeatherData(EncodeWeatherData(w))
    case Some(v) => Ok(v)
    case None => Err(SnapshotRejected)
  }
}
