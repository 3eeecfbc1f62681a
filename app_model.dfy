/** The state of the `App` component and its transitions, as values. */
module AppModel {
  import opened Wrappers
  import Locale

  /** The three display modes, one per button and one per marker list. */
  datatype Mode = Trending | Essentials | Routes

  /** A map centre. Coordinates are only stored and passed through. */
  datatype Location = Location(lat: real, lng: real)

  /** `pos.coords` as the geolocation success callback receives it. */
  datatype Position = Position(latitude: real, longitude: real)

  /** One point of interest as a data endpoint returns it; `tags` may be absent. */
  datatype Marker = Marker(name: string, lat: real, lng: real, tags: Option<seq<string>>)

  /** The `markers` object: one list per mode. */
  type MarkerSets = map<Mode, seq<Marker>>

  /** The four `useState` cells. */
  datatype State = State(location: Location, mode: Mode, markers: MarkerSets, lang: string)

  /** Seoul city centre, the location before any geolocation report. */
  const DefaultLocation := Location(37.5665, 126.9780)

  /** What every reachable state satisfies: `markers` has a list for every mode. */
  predicate Valid(s: State)
  {
    forall m: Mode :: m in s.markers
  }

  /** A `markers` object with the given three lists. */
  function Lists(trending: seq<Marker>, essentials: seq<Marker>, routes: seq<Marker>): (ms: MarkerSets)
    ensures forall m: Mode :: m in ms
    ensures ms[Trending] == trending && ms[Essentials] == essentials && ms[Routes] == routes
  {
    CoversModes(trending, essentials, routes);
    map[Trending := trending, Essentials := essentials, Routes := routes]
  }

  lemma CoversModes(trending: seq<Marker>, essentials: seq<Marker>, routes: seq<Marker>)
    ensures forall m: Mode :: m in map[Trending := trending, Essentials := essentials, Routes := routes]
  {
    forall m: Mode
      ensures m in map[Trending := trending, Essentials := essentials, Routes := routes]
    {
      match m
      case Trending =>
      case Essentials =>
      case Routes =>
    }
  }

  /** The state of the first render. */
  function Initial(): (s: State)
    ensures Valid(s)
    ensures s.markers[Trending] == [] && s.markers[Essentials] == [] && s.markers[Routes] == []
    ensures s.location == DefaultLocation && s.mode == Trending && s.lang == "en"
  {
    State(DefaultLocation, Trending, Lists([], [], []), "en")
  }

  // ---------------------------------------------------------------------------
  // Transitions

  /** A click on a mode button: `setMode(m)`. */
  function SelectMode(s: State, m: Mode): State
  {
    s.(mode := m)
  }

  /** The one-shot geolocation request settles. Only a success callback is
      registered, so a failure (`None`) changes nothing. */
  function Geolocated(s: State, outcome: Option<Position>): State
  {
    match outcome
    case None => s
    case Some(pos) => s.(location := Location(pos.latitude, pos.longitude))
  }

  /** The GET endpoint of each mode's marker list. */
  function Url(m: Mode): string
  {
    match m
    case Trending => "/api/trending"
    case Essentials => "/api/essentials"
    case Routes => "/api/routes"
  }

  const Urls := [Url(Trending), Url(Essentials), Url(Routes)]

  /** What `fetchData` does with the three request outcomes: which GETs it
      issues (each one only after the previous one resolved) and the combined
      `markers` object it sets, if it gets that far. */
  datatype FetchOutcome = FetchOutcome(requested: seq<string>, loaded: Option<MarkerSets>)

  function FetchAll<E>(trending: Result<seq<Marker>, E>, essentials: Result<seq<Marker>, E>,
                       routes: Result<seq<Marker>, E>): (o: FetchOutcome)
    ensures 1 <= |o.requested| <= 3 && o.requested == Urls[..|o.requested|]
    ensures |o.requested| >= 2 <==> trending.Ok?
    ensures |o.requested| == 3 <==> trending.Ok? && essentials.Ok?
    ensures o.loaded.Some? <==> trending.Ok? && essentials.Ok? && routes.Ok?
    ensures o.loaded.Some? ==> (forall m: Mode :: m in o.loaded.value)
                               && o.loaded.value[Trending] == trending.value
                               && o.loaded.value[Essentials] == essentials.value
                               && o.loaded.value[Routes] == routes.value
  {
    if trending.Err? then FetchOutcome(Urls[..1], None)
    else if essentials.Err? then FetchOutcome(Urls[..2], None)
    else if routes.Err? then FetchOutcome(Urls, None)
    else FetchOutcome(Urls, Some(Lists(trending.value, essentials.value, routes.value)))
  }

  /** `fetchData` settles: one combined `setMarkers` when all three fetches
      succeeded, nothing otherwise (the rejection escapes before it). */
  function MarkersLoaded<E>(s: State, trending: Result<seq<Marker>, E>, essentials: Result<seq<Marker>, E>,
                            routes: Result<seq<Marker>, E>): State
  {
    match FetchAll(trending, essentials, routes).loaded
    case None => s
    case Some(ms) => s.(markers := ms)
  }

  /** `setLang(navigator.language.split('-')[0])`. */
  function LanguageDetected(s: State, tag: string): State
  {
    s.(lang := Locale.DetectLang(tag))
  }

  // ---------------------------------------------------------------------------
  // Events: user clicks and the completions of the mount effect, applied one
  // at a time in whatever order they arrive.

  /** A fetch error; its content is never inspected. */
  type FetchError = string

  datatype Event =
    | ModeSelected(mode: Mode)
    | GeolocationSettled(outcome: Option<Position>)
    | MarkersFetched(trending: Result<seq<Marker>, FetchError>, essentials: Result<seq<Marker>, FetchError>,
                     routes: Result<seq<Marker>, FetchError>)
    | LanguageRead(tag: string)

  /** Which of the four state cells an event writes. */
  function Kind(e: Event): nat
  {
    match e
    case ModeSelected(_) => 0
    case GeolocationSettled(_) => 1
    case MarkersFetched(_, _, _) => 2
    case LanguageRead(_) => 3
  }

  function Step(s: State, e: Event): State
  {
    match e
    case ModeSelected(m) => SelectMode(s, m)
    case GeolocationSettled(outcome) => Geolocated(s, outcome)
    case MarkersFetched(t, es, r) => MarkersLoaded(s, t, es, r)
    case LanguageRead(tag) => LanguageDetected(s, tag)
  }

  /** The state after the events `es`, first to last. */
  function Run(s: State, es: seq<Event>): State
    decreases |es|
  {
    if es == [] then s else Run(Step(s, es[0]), es[1..])
  }

  // ---------------------------------------------------------------------------
  // Reference definitions: each field is decided by the most recent event of
  // its own kind, scanning from the latest event backwards.

  function LatestMode(init: Mode, es: seq<Event>): Mode
    decreases |es|
  {
    if es == [] then init
    else match es[|es| - 1]
      case ModeSelected(m) => m
      case _ => LatestMode(init, es[..|es| - 1])
  }

  function LatestLocation(init: Location, es: seq<Event>): Location
    decreases |es|
  {
    if es == [] then init
    else match es[|es| - 1]
      case GeolocationSettled(Some(pos)) => Location(pos.latitude, pos.longitude)
      case _ => LatestLocation(init, es[..|es| - 1])
  }

  /** True of a marker load whose three fetches all succeeded. */
  predicate LoadSucceeds(e: Event)
  {
    e.MarkersFetched? && e.trending.Ok? && e.essentials.Ok? && e.routes.Ok?
  }

  function LatestMarkers(init: MarkerSets, es: seq<Event>): MarkerSets
    decreases |es|
  {
    if es == [] then init
    else
      var e := es[|es| - 1];
      if LoadSucceeds(e)
      then Lists(e.trending.value, e.essentials.value, e.routes.value)
      else LatestMarkers(init, es[..|es| - 1])
  }

  function LatestLang(init: string, es: seq<Event>): string
    decreases |es|
  {
    if es == [] then init
    else match es[|es| - 1]
      case LanguageRead(tag) => Locale.DetectLang(tag)
      case _ => LatestLang(init, es[..|es| - 1])
  }

  // ---------------------------------------------------------------------------
  // Properties of single transitions

  /** Selecting a mode sets exactly the mode; selecting it again changes nothing. */
  lemma SelectModeSpec(s: State, m: Mode)
    ensures SelectMode(s, m).mode == m
    ensures SelectMode(s, m).location == s.location && SelectMode(s, m).markers == s.markers
    ensures SelectMode(s, m).lang == s.lang
    ensures SelectMode(SelectMode(s, m), m) == SelectMode(s, m)
  {
  }

  /** A geolocation success replaces the location with the reported coordinates;
      a failure leaves the state as it was. Nothing else changes. */
  lemma GeolocatedSpec(s: State, outcome: Option<Position>)
    ensures outcome.None? ==> Geolocated(s, outcome) == s
    ensures outcome.Some? ==> Geolocated(s, outcome).location
                              == Location(outcome.value.latitude, outcome.value.longitude)
    ensures Geolocated(s, outcome).(location := s.location) == s
  {
  }

  /** The marker load is all-or-nothing: all three lists are replaced together
      when every fetch succeeds, and any failure keeps all three. */
  lemma MarkersLoadedSpec<E>(s: State, t: Result<seq<Marker>, E>, e: Result<seq<Marker>, E>,
                             r: Result<seq<Marker>, E>)
    requires Valid(s)
    ensures Valid(MarkersLoaded(s, t, e, r))
    ensures MarkersLoaded(s, t, e, r).(markers := s.markers) == s
    ensures t.Ok? && e.Ok? && r.Ok? ==>
      var ms := MarkersLoaded(s, t, e, r).markers;
      ms[Trending] == t.value && ms[Essentials] == e.value && ms[Routes] == r.value
    ensures !(t.Ok? && e.Ok? && r.Ok?) ==> MarkersLoaded(s, t, e, r) == s
  {
  }

  /** A failed routes fetch leaves the trending and essentials lists as they
      were, even when their own fetches succeeded. */
  lemma RoutesFailureDiscardsOthers<E>(s: State, t: seq<Marker>, e: seq<Marker>, err: E)
    requires Valid(s)
    ensures MarkersLoaded(s, Ok(t), Ok(e), Err(err)).markers[Trending] == s.markers[Trending]
    ensures MarkersLoaded(s, Ok(t), Ok(e), Err(err)).markers[Essentials] == s.markers[Essentials]
  {
  }

  /** Events of different kinds touch different fields, so the order in which
      two of them arrive does not matter. */
  lemma StepsCommute(s: State, a: Event, b: Event)
    requires Kind(a) != Kind(b)
    ensures Step(Step(s, a), b) == Step(Step(s, b), a)
  {
  }

  // ---------------------------------------------------------------------------
  // Properties of runs

  lemma {:induction false} RunSnoc(s: State, es: seq<Event>, e: Event)
    ensures Run(s, es + [e]) == Step(Run(s, es), e)
    decreases |es|
  {
    if es != [] {
      assert (es + [e])[1..] == es[1..] + [e];
      RunSnoc(Step(s, es[0]), es[1..], e);
    }
  }

  /** After any sequence of events each field holds what the latest event of
      its own kind put there (or its starting value): every field has exactly
      one kind of writer. */
  lemma {:induction false} RunFields(s: State, es: seq<Event>)
    ensures Run(s, es) == State(LatestLocation(s.location, es), LatestMode(s.mode, es),
                                LatestMarkers(s.markers, es), LatestLang(s.lang, es))
    decreases |es|
  {
    if es != [] {
      var init := es[..|es| - 1];
      assert es == init + [es[|es| - 1]];
      RunSnoc(s, init, es[|es| - 1]);
      RunFields(s, init);
    }
  }

  /** Every reachable state keeps a list for each of the three modes. */
  lemma {:induction false} RunValid(s: State, es: seq<Event>)
    requires Valid(s)
    ensures Valid(Run(s, es))
    decreases |es|
  {
    if es != [] {
      if es[0].MarkersFetched? {
        MarkersLoadedSpec(s, es[0].trending, es[0].essentials, es[0].routes);
      }
      RunValid(Step(s, es[0]), es[1..]);
    }
  }

  /** Without a load whose three fetches all succeed, the marker lists stay as they were. */
  lemma {:induction false} NoLoadKeepsMarkers(init: MarkerSets, es: seq<Event>)
    requires forall i :: 0 <= i < |es| ==> !LoadSucceeds(es[i])
    ensures LatestMarkers(init, es) == init
    decreases |es|
  {
    if es != [] {
      assert !LoadSucceeds(es[|es| - 1]);
      NoLoadKeepsMarkers(init, es[..|es| - 1]);
    }
  }

  /** Without a geolocation success, the location stays at its starting value. */
  lemma {:induction false} NoFixKeepsLocation(init: Location, es: seq<Event>)
    requires forall i :: 0 <= i < |es| ==> !(es[i].GeolocationSettled? && es[i].outcome.Some?)
    ensures LatestLocation(init, es) == init
    decreases |es|
  {
    if es != [] {
      assert !(es[|es| - 1].GeolocationSettled? && es[|es| - 1].outcome.Some?);
      NoFixKeepsLocation(init, es[..|es| - 1]);
    }
  }
}
