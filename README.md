# App state machine of a map-based places viewer

This project models the `App` component of a small Next.js page that shows a
map whose `center` prop is the user's position, three toolbar buttons that switch between
three modes (`trending`, `essentials`, `routes`), the markers of the current
mode, and a caption in Korean or English.

The component holds four state cells: `location`, `mode`, `markers` (one list
per mode) and `lang`. Its mount effect asks once for the device position,
loads the three marker lists, and reads the browser language. The render
derives the highlighted button, the visible markers and the caption from those
four cells. A `translate` helper is defined but never called by the render.

Layout:

- `wrappers.dfy` (`Wrappers`): `Option` and `Result` for outcomes of the browser and network calls.
- `locale.dfy` (`Locale`): `split('-')` and the language detection built on it.
- `translation.dfy` (`Translation`): the fail-soft `translate` helper. The translation service is a function parameter.
- `app_model.dfy` (`AppModel`): the state as a value, one function per transition, and events folded by `Run`. It also holds reference definitions (`LatestMode`, `LatestLocation`, `LatestMarkers`, `LatestLang`) and the lemmas that connect the two.
- `render.dfy` (`Render`): the toolbar, the visible markers, the caption card, and lemmas about what is shown after any sequence of events.
- `app.dfy` (`AppComponent`): the component as a class with the four cells as fields. Each handler is a method proved against the matching `AppModel` transition.

Outside inputs are parameters. The geolocation result is an `Option<Position>`. Each GET is a `Result`. The browser language tag is a `string`. The translation service is a function from request to reply. Completions of the mount effect and button clicks are discrete events, applied one at a time in any order.

The model follows the code as written, in particular:

- The detected language is stored verbatim after `split('-')[0]`. `"fr-FR"` gives `"fr"` and the empty tag gives `""`. Nothing falls back to `"en"` except the initial value.
- The marker load is not three independent updates. `fetchData` awaits the three GETs in sequence and then calls `setMarkers` once with all three lists. Any rejection ends it before that call, so one failed fetch keeps all three lists at their previous values (`RoutesFailureDiscardsOthers`).
- The caption is not translated. It is picked from two literal strings by `lang == "ko"`.

## Model

| member | source | states |
|---|---|---|
| AppModel.Initial | pages/index.tsx:14-17 | the first state is well formed: location (37.5665, 126.9780), mode trending, all three marker lists empty, lang "en" |
| AppComponent.App.constructor | pages/index.tsx:14-17 | the new component's fields equal the initial state |
| AppModel.SelectModeSpec | pages/index.tsx:56-58 | selecting a mode sets exactly that mode, keeps location, markers and lang, and selecting it again changes nothing |
| AppComponent.App.SelectMode | pages/index.tsx:56-58 | the click handler leaves the fields equal to the model's mode selection applied to the old state |
| AppModel.GeolocatedSpec | pages/index.tsx:35-37 | a geolocation success replaces the location with the reported latitude and longitude; a failure changes nothing; no other field changes |
| AppComponent.App.OnPosition | pages/index.tsx:35-37 | the success callback overwrites only the location, with the position's coordinates |
| AppComponent.App.GeolocationSettled | pages/index.tsx:35-37 | a settled geolocation request leaves the fields equal to the model's transition; failure runs no handler |
| AppModel.FetchAll | pages/index.tsx:40-45 | GETs go out in order trending, essentials, routes; each one is sent only if every earlier one succeeded; a combined marker object exists if and only if all three succeed, and it then holds the three fetched lists |
| AppModel.MarkersLoadedSpec | pages/index.tsx:40-45 | the load replaces all three lists together when every fetch succeeds and leaves the whole state unchanged otherwise; it touches only `markers` and keeps a list for every mode |
| AppModel.RoutesFailureDiscardsOthers | pages/index.tsx:41-44 | a failed routes fetch keeps the trending and essentials lists at their previous values even though their fetches succeeded |
| AppComponent.App.FetchData | pages/index.tsx:40-45 | the sequential awaits request the URLs the model predicts and leave the fields equal to the model's marker load |
| Locale.Split | pages/index.tsx:49 | `split` gives at least one piece; no piece contains the separator; the first piece is a prefix of the input, the whole input when it has no separator, and otherwise followed in the input by the separator |
| Locale.JoinSplit | pages/index.tsx:49 | joining the pieces of a split with the separator gives back the input |
| Locale.SplitJoin | pages/index.tsx:49 | splitting a join of separator-free pieces gives back the pieces |
| Locale.DetectLang | pages/index.tsx:49-50 | the detected lang is a prefix of the tag without a dash; it is the whole tag when the tag has no dash, and otherwise it is followed by the tag's first dash |
| Locale.DetectLangUnique | pages/index.tsx:49-50 | the detected lang is exactly the text before the first dash: any dash-free prefix ending at a dash or at the end of the tag equals it |
| AppComponent.App.DetectLanguage | pages/index.tsx:49-50 | the language handler overwrites only `lang`, with the detected lang, stored verbatim |
| AppModel.StepsCommute | pages/index.tsx:34-51 | two events of different kinds give the same state in either order, so the effect's completions may arrive in any order |
| AppModel.RunFields | pages/index.tsx:14-58 | after any sequence of events, each of the four cells holds what the latest event of its own kind wrote, or its starting value; no event writes another kind's cell |
| AppModel.RunValid | pages/index.tsx:16 | every reachable state keeps a marker list for each of the three modes |
| AppModel.NoLoadKeepsMarkers | pages/index.tsx:16 | without a load whose three fetches all succeed, the marker lists keep their starting value |
| AppModel.NoFixKeepsLocation | pages/index.tsx:14 | without a geolocation success, the location keeps its starting value |
| AppModel.Lists | pages/index.tsx:44 | the combined marker object has a list for every mode and holds the three given lists under their modes |
| AppModel.SelectMode | pages/index.tsx:56-58 | the `setMode` transition; specified by SelectModeSpec |
| AppModel.Geolocated | pages/index.tsx:35-37 | the geolocation transition; specified by GeolocatedSpec |
| AppModel.MarkersLoaded | pages/index.tsx:40-45 | the marker-load transition; specified by MarkersLoadedSpec and RoutesFailureDiscardsOthers |
| AppModel.LanguageDetected | pages/index.tsx:49-50 | the `setLang` transition, storing DetectLang of the tag; specified by DetectLang's contract and RunFields |
| AppModel.Step | pages/index.tsx:34-58 | one event applied to the state; specified by StepsCommute and RunFields |
| AppModel.Run | pages/index.tsx:34-58 | a sequence of events applied first to last; specified by RunFields and RunValid |
| AppComponent.App.Handle | pages/index.tsx:34-58 | delivering any event to the component leaves the fields equal to the model's step for that event |
| Render.Visible | pages/index.tsx:65 | the `markers[mode]` lookup; specified by VisibleFollowsLatestMode and NothingVisibleBeforeLoad |
| Render.VariantFor | pages/index.tsx:56-58 | the variant ternary; specified by Toolbar and ExactlyOneHighlighted |
| Render.Toolbar | pages/index.tsx:56-58 | three buttons in order trending, essentials, routes, each selecting its own mode; a button has variant `default` exactly when its mode is the current mode, and `outline` otherwise |
| Render.ExactlyOneHighlighted | pages/index.tsx:56-58 | exactly one button has variant `default`, and it is the button of the current mode |
| Render.Caption | pages/index.tsx:76-78 | the caption is the Korean text exactly when lang is "ko", and the English text exactly when it is not |
| Render.CardSlots | pages/index.tsx:76-78 | of the three conditionals, only the one for the current mode renders, and it renders that mode's caption for the current lang |
| Render.CardShowsOneCaption | pages/index.tsx:74-80 | the card's text is exactly the one caption for the current mode and lang |
| Render.ViewOf | pages/index.tsx:53-80 | a render shows the toolbar for the current mode and the markers `markers[mode]`, passes `location` as the map's `center` prop, and captions the current mode in the current lang |
| AppComponent.App.Rendered | pages/index.tsx:53-80 | the component renders the current mode's list, the toolbar for the current mode and the caption for the current mode and lang |
| Render.VisibleFollowsLatestMode | pages/index.tsx:65 | after any events, the visible markers are the list of the most recently selected mode and the toolbar highlights that mode |
| Render.NothingVisibleBeforeLoad | pages/index.tsx:16 | before any load whose three fetches all succeed, the visible marker list is empty whatever mode is selected |
| Render.DefaultCenterWithoutFix | pages/index.tsx:14 | without a geolocation success, the location passed as the map's `center` prop stays the default |
| Render.StartupScenario | pages/index.tsx:14-51 | with geolocation failed, tag "fr-FR" and loads of 2, 1 and 3 markers, the view passes the default location as `center`, has lang "fr", mode trending with its 2 markers and the English caption |
| Render.SelectBeforeLoadScenario | pages/index.tsx:56-65 | selecting essentials before the load shows no markers; after the load the same selection shows the loaded essentials list |
| Translation.RequestFor | pages/index.tsx:22-27 | the POST goes to the translation endpoint and its body carries the input text as `q` and the component's lang as `target` |
| Translation.Translate | pages/index.tsx:20-32 | the result is the input text when the call rejects or no translation comes back, and the first translation otherwise |
| Translation.TranslateFailSoft | pages/index.tsx:20-32 | whatever the service does, the result is the input text or a text the service returned for this request |
| Translation.TranslateOffline | pages/index.tsx:29-31 | with a service that rejects every request, `translate` returns its input unchanged |

## Left out

- Map rendering: the `react-leaflet` dynamic imports, the tile layer URL and attribution, the zoom level and the popup markup with the marker name and tags. These are foreign UI components. The model keeps the `center` prop and the list of visible markers only.
- The map's actual position. The model records the `center` prop passed to the map container. It does not model where the map really is: the map component takes `center` only when it mounts, so a later location change does not move it.
- The HTTP calls themselves: the axios requests, status handling and JSON decoding. Each GET is a `Result` carrying the decoded marker list. Each POST is a function from request body to reply.
- Translation.Translate: a reply whose first entry has no `translatedText` field makes the source return `undefined`. The model has no such reply. Every entry is a string, and a body without `data.data.translations` counts as a rejection.
- `navigator.geolocation` and `navigator.language` as runtime APIs. Their results are inputs to the transitions.
- Async scheduling. Each completion and each click is one atomic event, applied in any order. The model does not restrict how often each effect event occurs, even though the source fires each one once. Every property also holds for the real, more limited traces.
- `fetchData`'s unhandled rejection. The model drops it without effect, as the page does.
- Coordinate ranges. The source checks none, so coordinates are plain reals that are stored and passed through.
- `components/ui/button.tsx` and `components/ui/card.tsx`. They are prop pass-through wrappers with no logic.
