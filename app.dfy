/** The `App` component as an object: its four `useState` cells are fields,
    and each handler or completion is a method that overwrites them. */
module AppComponent {
  import opened Wrappers
  import opened AppModel
  import Locale
  import Render

  class App {
    var location: Location
    var mode: Mode
    var markers: MarkerSets
    var lang: string

    /** The current values of the four cells. */
    function Model(): AppModel.State
      reads this
    {
      AppModel.State(location, mode, markers, lang)
    }

    /** `markers` holds a list for every mode. */
    predicate Valid()
      reads this
    {
      AppModel.Valid(Model())
    }

    /** The first render: the `useState` initial values. */
    constructor ()
      ensures Valid() && Model() == Initial()
    {
      location := DefaultLocation;
      mode := Trending;
      markers := Lists([], [], []);
      lang := "en";
    }

    /** The `onClick` of the button for `m`. */
    method SelectMode(m: Mode)
      requires Valid()
      modifies this
      ensures Valid() && Model() == AppModel.SelectMode(old(Model()), m)
    {
      mode := m;
    }

    /** The success callback passed to `getCurrentPosition`. */
    method OnPosition(pos: Position)
      modifies this
      ensures Model() == old(Model()).(location := Location(pos.latitude, pos.longitude))
    {
      location := Location(pos.latitude, pos.longitude);
    }

    /** The geolocation request settles; with no error callback registered, a
        failure runs no code at all. */
    method GeolocationSettled(outcome: Option<Position>)
      requires Valid()
      modifies this
      ensures Valid() && Model() == Geolocated(old(Model()), outcome)
    {
      if outcome.Some? {
        OnPosition(outcome.value);
      }
    }

    /** `fetchData`: three GETs, each awaited before the next is issued, then
        one `setMarkers`. A rejection ends it at that `await`. Returns the
        URLs requested. */
    method FetchData<E>(trending: Result<seq<Marker>, E>, essentials: Result<seq<Marker>, E>,
                        routes: Result<seq<Marker>, E>) returns (requested: seq<string>)
      requires Valid()
      modifies this
      ensures Valid() && Model() == MarkersLoaded(old(Model()), trending, essentials, routes)
      ensures requested == FetchAll(trending, essentials, routes).requested
    {
      requested := [Url(Trending)];
      if trending.Err? {
        return;
      }
      requested := requested + [Url(Essentials)];
      if essentials.Err? {
        return;
      }
      requested := requested + [Url(Routes)];
      if routes.Err? {
        return;
      }
      markers := Lists(trending.value, essentials.value, routes.value);
    }

    /** `setLang(navigator.language.split('-')[0])`. */
    method DetectLanguage(tag: string)
      requires Valid()
      modifies this
      ensures Valid() && Model() == LanguageDetected(old(Model()), tag)
    {
      lang := Locale.Split(tag, Locale.Dash)[0];
    }

    /** Dispatches one event to its handler. */
    method Handle(e: Event)
      requires Valid()
      modifies this
      ensures Valid() && Model() == Step(old(Model()), e)
    {
      match e
      case ModeSelected(m) => SelectMode(m);
      case GeolocationSettled(outcome) => GeolocationSettled(outcome);
      case MarkersFetched(t, es, r) => var _ := FetchData(t, es, r);
      case LanguageRead(tag) => DetectLanguage(tag);
    }

    /** What the component renders now. */
    function Rendered(): (v: Render.View)
      reads this
      requires Valid()
      ensures v.markers == markers[mode]
      ensures v.toolbar == Render.Toolbar(mode)
      ensures v.caption == Render.Caption(mode, lang)
    {
      Render.ViewOf(Model())
    }
  }
}
