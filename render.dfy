/** What the `App` component renders from its state: the toolbar, the map's
    `center` prop and markers, and the caption card. */
module Render {
  import opened Wrappers
  import opened AppModel

  /** `markers[mode]`: the markers drawn on the map. */
  function Visible(s: State): seq<Marker>
    requires Valid(s)
  {
    s.markers[s.mode]
  }

  datatype Variant = Default | Outline

  /** A toolbar button: the mode its click selects, its variant and its label. */
  datatype Button = Button(onClick: Mode, variant: Variant, text: string)

  /** The toolbar's buttons, left to right. */
  const ButtonOrder: seq<Mode> := [Trending, Essentials, Routes]

  function Label(m: Mode): string
  {
    match m
    case Trending => "🔥 지금 인기"
    case Essentials => "🧻 필수 장소"
    case Routes => "🎯 추천 루트"
  }

  /** `variant={mode === button ? 'default' : 'outline'}`. */
  function VariantFor(button: Mode, mode: Mode): Variant
  {
    if mode == button then Default else Outline
  }

  /** The three buttons: each selects its own mode, and only the one for the
      current mode is highlighted. */
  function Toolbar(mode: Mode): (bs: seq<Button>)
    ensures |bs| == |ButtonOrder|
    ensures forall i :: 0 <= i < |bs| ==> bs[i].onClick == ButtonOrder[i] && bs[i].text == Label(ButtonOrder[i])
    ensures forall i :: 0 <= i < |bs| ==> (bs[i].variant == Default <==> bs[i].onClick == mode)
    ensures forall i :: 0 <= i < |bs| ==> (bs[i].variant == Outline <==> bs[i].onClick != mode)
  {
    seq(|ButtonOrder|, i requires 0 <= i < |ButtonOrder| =>
      Button(ButtonOrder[i], VariantFor(ButtonOrder[i], mode), Label(ButtonOrder[i])))
  }

  /** Exactly one button has variant `default`, and it is the current mode's. */
  lemma ExactlyOneHighlighted(mode: Mode)
    ensures exists i :: 0 <= i < |Toolbar(mode)| && Toolbar(mode)[i].variant == Default
                        && Toolbar(mode)[i].onClick == mode
    ensures forall i, j :: 0 <= i < |Toolbar(mode)| && 0 <= j < |Toolbar(mode)| &&
                           Toolbar(mode)[i].variant == Default && Toolbar(mode)[j].variant == Default
                           ==> i == j
  {
    var bs := Toolbar(mode);
    var k := match mode case Trending => 0 case Essentials => 1 case Routes => 2;
    assert bs[k].variant == Default;
  }

  function KoreanCaption(m: Mode): string
  {
    match m
    case Trending => "인스타그램 해시태그 기반 지금 뜨는 장소들!"
    case Essentials => "당장 필요한 장소 (화장실, 편의점 등)를 찾을 수 있어요."
    case Routes => "여행 루트로 코스 따라가기!"
  }

  function EnglishCaption(m: Mode): string
  {
    match m
    case Trending => "Trending places based on Instagram!"
    case Essentials => "Find essentials like toilets and convenience stores."
    case Routes => "Follow suggested travel routes!"
  }

  /** The caption for a mode: the Korean text exactly when `lang` is "ko",
      the English text for every other language. */
  function Caption(m: Mode, lang: string): (c: string)
    ensures c == KoreanCaption(m) <==> lang == "ko"
    ensures c == EnglishCaption(m) <==> lang != "ko"
  {
    if lang == "ko" then KoreanCaption(m) else EnglishCaption(m)
  }

  /** The card's three conditionals `mode === X && (...)`, one per mode in
      toolbar order; a false condition renders nothing. */
  function CardSlots(mode: Mode, lang: string): (slots: seq<Option<string>>)
    ensures |slots| == |ButtonOrder|
    ensures forall i :: 0 <= i < |slots| ==> (slots[i].Some? <==> ButtonOrder[i] == mode)
    ensures forall i :: 0 <= i < |slots| && slots[i].Some? ==> slots[i].value == Caption(mode, lang)
  {
    seq(|ButtonOrder|, i requires 0 <= i < |ButtonOrder| =>
      if mode == ButtonOrder[i] then Some(Caption(ButtonOrder[i], lang)) else None)
  }

  /** The text a slot renders: its caption, or nothing. */
  function SlotText(slot: Option<string>): string
  {
    match slot
    case Some(t) => t
    case None => []
  }

  /** The text of the rendered slots, concatenated. */
  function Shown(slots: seq<Option<string>>): string
  {
    if slots == [] then [] else SlotText(slots[0]) + Shown(slots[1..])
  }

  lemma ShownThree(slots: seq<Option<string>>)
    requires |slots| == 3
    ensures Shown(slots) == SlotText(slots[0]) + SlotText(slots[1]) + SlotText(slots[2])
  {
    var rest := slots[1..];
    assert rest[0] == slots[1] && rest[1..] == slots[2..];
    assert slots[2..][0] == slots[2] && slots[2..][1..] == [];
    calc {
      Shown(slots);
      SlotText(slots[0]) + Shown(rest);
      SlotText(slots[0]) + (SlotText(slots[1]) + Shown(slots[2..]));
      SlotText(slots[0]) + (SlotText(slots[1]) + (SlotText(slots[2]) + Shown([])));
    }
  }

  /** The card shows exactly one caption: the one for the current mode and language. */
  lemma CardShowsOneCaption(mode: Mode, lang: string)
    ensures Shown(CardSlots(mode, lang)) == Caption(mode, lang)
  {
    var slots := CardSlots(mode, lang);
    ShownThree(slots);
    match mode
    case Trending =>
    case Essentials =>
    case Routes =>
  }

  /** One render of the component: `center` is the `center` prop passed to the
      map container (the map tiles and popups are not modelled). */
  datatype View = View(toolbar: seq<Button>, center: Location, markers: seq<Marker>, caption: string)

  function ViewOf(s: State): (v: View)
    requires Valid(s)
    ensures v.toolbar == Toolbar(s.mode)
    ensures v.markers == s.markers[s.mode]
    ensures v.center == s.location
    ensures v.caption == Caption(s.mode, s.lang)
  {
    CardShowsOneCaption(s.mode, s.lang);
    View(Toolbar(s.mode), s.location, Visible(s), Shown(CardSlots(s.mode, s.lang)))
  }

  // ---------------------------------------------------------------------------
  // Properties of what is rendered after a sequence of events

  /** The visible markers are always the list of the most recently selected
      mode, whatever else has happened in between. */
  lemma VisibleFollowsLatestMode(s: State, es: seq<Event>)
    requires Valid(s)
    ensures Valid(Run(s, es))
    ensures Visible(Run(s, es)) == Run(s, es).markers[LatestMode(s.mode, es)]
    ensures ViewOf(Run(s, es)).toolbar == Toolbar(LatestMode(s.mode, es))
  {
    RunValid(s, es);
    RunFields(s, es);
  }

  /** Before any load whose three fetches all succeed, every mode shows no markers. */
  lemma NothingVisibleBeforeLoad(es: seq<Event>)
    requires forall i :: 0 <= i < |es| ==> !LoadSucceeds(es[i])
    ensures Valid(Run(Initial(), es))
    ensures Visible(Run(Initial(), es)) == []
  {
    RunValid(Initial(), es);
    RunFields(Initial(), es);
    NoLoadKeepsMarkers(Initial().markers, es);
  }

  /** The map's `center` prop stays the default location until a geolocation success arrives. */
  lemma DefaultCenterWithoutFix(es: seq<Event>)
    requires forall i :: 0 <= i < |es| ==> !(es[i].GeolocationSettled? && es[i].outcome.Some?)
    ensures Run(Initial(), es).location == DefaultLocation
  {
    RunFields(Initial(), es);
    NoFixKeepsLocation(Initial().location, es);
  }

  /** Startup with geolocation denied, browser language "fr-FR" and three
      successful fetches of 2, 1 and 3 markers: the default `center`, language
      "fr" (not "en"), mode trending showing its 2 markers, English caption. */
  lemma StartupScenario(t: seq<Marker>, e: seq<Marker>, r: seq<Marker>)
    requires |t| == 2 && |e| == 1 && |r| == 3
    ensures Valid(Run(Initial(), [GeolocationSettled(None), LanguageRead("fr-FR"), MarkersFetched(Ok(t), Ok(e), Ok(r))]))
    ensures var s := Run(Initial(), [GeolocationSettled(None), LanguageRead("fr-FR"), MarkersFetched(Ok(t), Ok(e), Ok(r))]);
            s.lang == "fr" && s.mode == Trending &&
            ViewOf(s) == View(Toolbar(Trending), DefaultLocation, t, EnglishCaption(Trending))
  {
    var es := [GeolocationSettled(None), LanguageRead("fr-FR"), MarkersFetched(Ok(t), Ok(e), Ok(r))];
    var s1 := Geolocated(Initial(), None);
    var s2 := LanguageDetected(s1, "fr-FR");
    var s3 := MarkersLoaded<FetchError>(s2, Ok(t), Ok(e), Ok(r));
    assert Run(Initial(), es) == Run(s1, es[1..]);
    assert es[1..][0] == es[1] && es[1..][1..] == es[2..];
    assert Run(s1, es[1..]) == Run(s2, es[2..]);
    assert es[2..][0] == es[2] && es[2..][1..] == [];
    assert Run(s2, es[2..]) == Run(s3, []);
    Locale.DetectLangUnique("fr-FR", 2);
    assert "fr-FR"[..2] == "fr";
    assert s3.lang == "fr";
    CardShowsOneCaption(Trending, "fr");
  }

  /** Selecting essentials before the load shows nothing; once the load
      arrives, the same selection shows the essentials list without reselecting. */
  lemma SelectBeforeLoadScenario(m: Marker, t: seq<Marker>, r: seq<Marker>)
    ensures Valid(Run(Initial(), [ModeSelected(Essentials)]))
    ensures Valid(Run(Initial(), [ModeSelected(Essentials), MarkersFetched(Ok(t), Ok([m]), Ok(r))]))
    ensures Visible(Run(Initial(), [ModeSelected(Essentials)])) == []
    ensures Visible(Run(Initial(), [ModeSelected(Essentials), MarkersFetched(Ok(t), Ok([m]), Ok(r))])) == [m]
  {
    var es := [ModeSelected(Essentials), MarkersFetched(Ok(t), Ok([m]), Ok(r))];
    RunValid(Initial(), es[..1]);
    RunValid(Initial(), es);
    RunFields(Initial(), es[..1]);
    RunFields(Initial(), es);
  }
}
