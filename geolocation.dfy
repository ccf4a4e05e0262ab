/** `useGeolocation`: the browser-position state of the current-location view.
    The hook's state record and its "already auto-requested" flag are fields of
    `GeolocationHook`; each event (support detection, a request, the success or the
    error callback, the auto-request effect) is a method whose new state is the
    matching transition function of the old state. The browser's position and
    error code are inputs. */
module Geolocation {
  import opened Wrappers
  import JsMath
  import opened WeatherSchemas

  const NotSupportedMessage: string := "이 브라우저는 위치 정보를 지원하지 않습니다."
  const DefaultErrorMessage: string := "위치 정보를 가져올 수 없습니다."
  const PermissionDeniedMessage: string := "위치 정보 접근이 거부되었습니다. 브라우저 설정에서 위치 권한을 허용해주세요."
  const UnavailableMessage: string := "위치 정보를 사용할 수 없습니다."
  const TimeoutMessage: string := "위치 정보 요청 시간이 초과되었습니다."

  /** `GeolocationPositionError` codes. */
  const PermissionDenied: int := 1
  const PositionUnavailable: int := 2
  const Timeout: int := 3

  /** `GeolocationState` with the auto-request flag beside it. */
  datatype GeoState = GeoState(
    coordinates: Option<Coordinates>,
    isLoading: bool,
    error: Option<string>,
    isSupported: bool,
    hasAutoRequested: bool)

  const Initial: GeoState := GeoState(None, false, None, false, false)

  /** `Math.round(x * 10000) / 10000`: a coordinate to four decimal places. */
  function Round4(x: real): (r: real)
    ensures (r * 10000.0).Floor as real == r * 10000.0
    ensures x - 0.00005 < r <= x + 0.00005
  {
    var n := JsMath.Round(x * 10000.0);
    assert n as real - 0.5 <= x * 10000.0 < n as real + 0.5;
    assert (n as real / 10000.0) * 10000.0 == n as real;
    n as real / 10000.0
  }

  /** The rounded coordinate is the one multiple of 0.0001 in the half-open window
      `[x - 0.00005, x + 0.00005)` around the input, halves going up. */
  lemma Round4Unique(x: real, k: int)
    requires k as real / 10000.0 - 0.00005 <= x < k as real / 10000.0 + 0.00005
    ensures Round4(x) == k as real / 10000.0
  {
    JsMath.RoundUnique(x * 10000.0, k);
  }

  /** Rounding a rounded coordinate changes nothing. */
  lemma Round4Idempotent(x: real)
    ensures Round4(Round4(x)) == Round4(x)
  {
    var n := JsMath.Round(x * 10000.0);
    assert Round4(x) * 10000.0 == n as real;
    JsMath.RoundOfInteger(n);
  }

  /** Rounding keeps a position inside the latitude and longitude ranges, so the
      stored coordinates satisfy the coordinate schema. */
  lemma Round4KeepsValid(lat: real, lon: real)
    requires ValidCoordinates(Coordinates(lat, lon))
    ensures ValidCoordinates(Coordinates(Round4(lat), Round4(lon)))
  {
    RoundMonotone(lat * 10000.0, 900000.0);
    RoundMonotone(-900000.0, lat * 10000.0);
    RoundMonotone(lon * 10000.0, 1800000.0);
    RoundMonotone(-1800000.0, lon * 10000.0);
    JsMath.RoundOfInteger(900000);
    JsMath.RoundOfInteger(-900000);
    JsMath.RoundOfInteger(1800000);
    JsMath.RoundOfInteger(-1800000);
  }

  lemma RoundMonotone(x: real, y: real)
    requires x <= y
    ensures JsMath.Round(x) <= JsMath.Round(y)
  {
  }

  /** The message for an error callback: one per known code, the default for any
      other. */
  function PositionErrorMessage(code: int): (m: string)
    ensures code == PermissionDenied ==> m == PermissionDeniedMessage
    ensures code == PositionUnavailable ==> m == UnavailableMessage
    ensures code == Timeout ==> m == TimeoutMessage
    ensures code !in {PermissionDenied, PositionUnavailable, Timeout} ==> m == DefaultErrorMessage
  {
    if code == PermissionDenied then PermissionDeniedMessage
    else if code == PositionUnavailable then UnavailableMessage
    else if code == Timeout then TimeoutMessage
    else DefaultErrorMessage
  }

  /** The four messages differ, so the message tells the cause apart. */
  lemma ErrorMessagesDistinct(a: int, b: int)
    requires a in {1, 2, 3} && b in {1, 2, 3} && a != b
    ensures PositionErrorMessage(a) != PositionErrorMessage(b)
    ensures PositionErrorMessage(a) != DefaultErrorMessage
  {
    assert PermissionDeniedMessage[6] != UnavailableMessage[6];
    assert PermissionDeniedMessage[6] != TimeoutMessage[6];
    assert UnavailableMessage[6] != TimeoutMessage[6];
    assert PermissionDeniedMessage[6] != DefaultErrorMessage[6];
    assert UnavailableMessage[7] != DefaultErrorMessage[7];
    assert TimeoutMessage[6] != DefaultErrorMessage[6];
  }

  // ----- transitions -----

  /** The mount effect: support is recorded, with the "not supported" error exactly
      when there is no `navigator.geolocation`. */
  function Detected(s: GeoState, available: bool): (t: GeoState)
    ensures t.isSupported == available
    ensures t.error.None? <==> available
    ensures t.coordinates == s.coordinates && t.isLoading == s.isLoading
      && t.hasAutoRequested == s.hasAutoRequested
  {
    s.(isSupported := available, error := if available then None else Some(NotSupportedMessage))
  }

  /** `requestLocation()`: ignored while a request is pending or without support;
      otherwise loading starts, the error is cleared and a position request is
      issued (the second result). */
  function Requested(s: GeoState): (r: (GeoState, bool))
    ensures r.1 <==> !s.isLoading && s.isSupported
    ensures !r.1 ==> r.0 == s
    ensures r.1 ==> (r.0.isLoading && r.0.error.None? && r.0.coordinates == s.coordinates
      && r.0.isSupported && r.0.hasAutoRequested == s.hasAutoRequested)
  {
    if s.isLoading || !s.isSupported then (s, false)
    else (s.(isLoading := true, error := None), true)
  }

  /** The success callback: the rounded position is stored and the error cleared. */
  function Succeeded(s: GeoState, latitude: real, longitude: real): (t: GeoState)
    ensures t.coordinates == Some(Coordinates(Round4(latitude), Round4(longitude)))
    ensures !t.isLoading && t.error.None? && t.isSupported
    ensures t.hasAutoRequested == s.hasAutoRequested
  {
    GeoState(Some(Coordinates(Round4(latitude), Round4(longitude))), false, None, true, s.hasAutoRequested)
  }

  /** The error callback: loading ends with the code's message; the previous
      coordinates are kept. */
  function Failed(s: GeoState, code: int): (t: GeoState)
    ensures !t.isLoading && t.error == Some(PositionErrorMessage(code))
    ensures t.coordinates == s.coordinates && t.isSupported == s.isSupported
      && t.hasAutoRequested == s.hasAutoRequested
  {
    s.(isLoading := false, error := Some(PositionErrorMessage(code)))
  }

  /** The auto-request effect: fires (the second result) only when enabled, supported,
      without coordinates, not loading and not fired before; firing sets the flag and
      makes the request. */
  function AutoRequested(autoRequest: bool, s: GeoState): (r: (GeoState, bool))
    ensures r.1 <==> autoRequest && s.isSupported && s.coordinates.None? && !s.isLoading && !s.hasAutoRequested
    ensures !r.1 ==> r.0 == s
    ensures r.1 ==> r.0.hasAutoRequested && r.0.isLoading && r.0.error.None? && r.0.coordinates.None?
  {
    if autoRequest && s.isSupported && s.coordinates.None? && !s.isLoading && !s.hasAutoRequested then
      Requested(s.(hasAutoRequested := true))
    else (s, false)
  }

  datatype Event = Detect(available: bool) | Request | Success(latitude: real, longitude: real)
    | Failure(code: int) | AutoEffect

  /** One event: the new state, and whether the auto-request effect fired. */
  function Step(autoRequest: bool, s: GeoState, e: Event): (GeoState, bool) {
    match e
      case Detect(available) => (Detected(s, available), false)
      case Request => (Requested(s).0, false)
      case Success(latitude, longitude) => (Succeeded(s, latitude, longitude), false)
      case Failure(code) => (Failed(s, code), false)
      case AutoEffect => AutoRequested(autoRequest, s)
  }

  /** A run of events: the final state and how many times the auto request fired. */
  function Run(autoRequest: bool, s: GeoState, events: seq<Event>): (GeoState, nat)
    decreases |events|
  {
    if events == [] then (s, 0)
    else
      var (t, fired) := Step(autoRequest, s, events[0]);
      var (u, n) := Run(autoRequest, t, events[1..]);
      (u, n + if fired then 1 else 0)
  }

  /** Once set, the auto-request flag stays set. */
  lemma {:induction false} FlagStaysSet(autoRequest: bool, s: GeoState, events: seq<Event>)
    requires s.hasAutoRequested
    ensures Run(autoRequest, s, events).0.hasAutoRequested && Run(autoRequest, s, events).1 == 0
    decreases |events|
  {
    if events != [] {
      var t := Step(autoRequest, s, events[0]).0;
      FlagStaysSet(autoRequest, t, events[1..]);
    }
  }

  /** The automatic request fires at most once per hook, whatever happens. */
  lemma {:induction false} AutoRequestAtMostOnce(autoRequest: bool, s: GeoState, events: seq<Event>)
    ensures Run(autoRequest, s, events).1 <= 1
    ensures s.hasAutoRequested ==> Run(autoRequest, s, events).1 == 0
    decreases |events|
  {
    if s.hasAutoRequested {
      FlagStaysSet(autoRequest, s, events);
    } else if events != [] {
      var (t, fired) := Step(autoRequest, s, events[0]);
      if fired {
        FlagStaysSet(autoRequest, t, events[1..]);
      } else {
        AutoRequestAtMostOnce(autoRequest, t, events[1..]);
      }
    }
  }

  /** With auto-request off the effect never fires. */
  lemma {:induction false} NoAutoRequestWhenDisabled(s: GeoState, events: seq<Event>)
    ensures Run(false, s, events).1 == 0
    decreases |events|
  {
    if events != [] {
      NoAutoRequestWhenDisabled(Step(false, s, events[0]).0, events[1..]);
    }
  }

  /** A second request while the first is pending is ignored. */
  lemma NoOverlappingRequests(s: GeoState)
    requires Requested(s).1
    ensures Requested(Requested(s).0) == (Requested(s).0, false)
  {
  }

  class GeolocationHook {
    const autoRequest: bool
    var coordinates: Option<Coordinates>
    var isLoading: bool
    var error: Option<string>
    var isSupported: bool
    /** `hasAutoRequestedRef.current`. */
    var hasAutoRequested: bool
    /** How many `getCurrentPosition` calls were made. */
    var positionRequests: nat

    function State(): GeoState
      reads this
    {
      GeoState(coordinates, isLoading, error, isSupported, hasAutoRequested)
    }

    constructor (autoRequest: bool)
      ensures this.autoRequest == autoRequest && State() == Initial && positionRequests == 0
    {
      this.autoRequest := autoRequest;
      coordinates := None;
      isLoading := false;
      error := None;
      isSupported := false;
      hasAutoRequested := false;
      positionRequests := 0;
    }

    /** The mount effect, given whether `navigator.geolocation` exists. */
    method DetectSupport(available: bool)
      modifies this
      ensures State() == Detected(old(State()), available)
      ensures positionRequests == old(positionRequests)
    {
      isSupported := available;
      error := if available then None else Some(NotSupportedMessage);
    }

    /** `requestLocation()`. */
    method RequestLocation() returns (started: bool)
      modifies this
      ensures (State(), started) == Requested(old(State()))
      ensures positionRequests == old(positionRequests) + (if started then 1 else 0)
    {
      if isLoading || !isSupported {
        return false;
      }
      isLoading := true;
      error := None;
      positionRequests := positionRequests + 1;
      return true;
    }

    /** The success callback of `getCurrentPosition`. */
    method OnPositionSuccess(latitude: real, longitude: real)
      modifies this
      ensures State() == Succeeded(old(State()), latitude, longitude)
      ensures positionRequests == old(positionRequests)
    {
      coordinates := Some(Coordinates(Round4(latitude), Round4(longitude)));
      isLoading := false;
      error := None;
      isSupported := true;
    }

    /** The error callback of `getCurrentPosition`. */
    method OnPositionError(code: int)
      modifies this
      ensures State() == Failed(old(State()), code)
      ensures positionRequests == old(positionRequests)
    {
      var message := DefaultErrorMessage;
      if code == PermissionDenied {
        message := PermissionDeniedMessage;
      } else if code == PositionUnavailable {
        message := UnavailableMessage;
      } else if code == Timeout {
        message := TimeoutMessage;
      }
      isLoading := false;
      error := Some(message);
    }

    /** The auto-request effect, run after a render that changed its dependencies. */
    method AutoRequestEffect() returns (fired: bool)
      modifies this
      ensures (State(), fired) == AutoRequested(autoRequest, old(State()))
      ensures positionRequests == old(positionRequests) + (if fired then 1 else 0)
    {
      if autoRequest && isSupported && coordinates.None? && !isLoading && !hasAutoRequested {
        hasAutoRequested := true;
        var started := RequestLocation();
        return true;
      }
      return false;
    }
  }
}
