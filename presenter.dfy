/**
 * What the widget renders (src/App/App.js, lines 81-129, reduced to the
 * choices it makes): one of three bodies in fixed priority, in the selected
 * direction, with the language toggle button under every body.
 */
module Presenter {
  import opened Wrappers
  import opened Transform
  import opened Locale
  import opened Widget

  /** The three bodies the card can show. */
  datatype Branch = SpinnerBranch | ErrorBranch | DataBranch

  /** The card's body: progress indicator, error text, or the weather view. */
  datatype Body =
    | Progress
    | ErrorMessage(text: string)
    | Weather(city: string, time: Stamp, shownDescription: string, values: DisplayValues)

  /** A rendered screen. */
  datatype Screen = Screen(dir: Direction, body: Body, buttonLabel: string)

  /** Text shown in place of a city name that translates to nothing. */
  const CityPlaceholder: string := "Loading..."

  /** The body's kind. */
  function KindOf(b: Body): Branch
  {
    match b
    case Progress => SpinnerBranch
    case ErrorMessage(_) => ErrorBranch
    case Weather(_, _, _, _) => DataBranch
  }

  /** The render's choice: loading first, then error, then data. */
  function ChooseBranch(loading: bool, error: Option<string>): (b: Branch)
    ensures b == SpinnerBranch <==> loading
    ensures b == ErrorBranch <==> !loading && error.Some?
    ensures b == DataBranch <==> !loading && error.None?
  {
    if loading then SpinnerBranch
    else if error.Some? then ErrorBranch
    else DataBranch
  }

  /**
   * The city heading: the translated name, or the placeholder when the name
   * is missing or translates to the empty text. `t` is the translation
   * function of the translation library.
   */
  function CityHeading(t: string -> string, name: Option<string>): (h: string)
    ensures h != ""
    ensures name.Some? && t(name.value) != "" ==> h == t(name.value)
    ensures !(name.Some? && t(name.value) != "") ==> h == CityPlaceholder
  {
    if name.Some? && t(name.value) != "" then t(name.value) else CityPlaceholder
  }

  /** The screen for state `s`, translating with `t`. */
  function Render(s: AppState, t: string -> string): (v: Screen)
    ensures v.dir == s.lang.dir && v.buttonLabel == s.lang.btnContent
    ensures KindOf(v.body) == ChooseBranch(s.loading, s.error)
    ensures v.body.ErrorMessage? ==> v.body.text == s.error.value
    ensures v.body.Weather? ==>
      v.body.values == Derive(s.data) && v.body.time == s.dateAndTime &&
      v.body.shownDescription == t(Description(s.data)) &&
      v.body.city == CityHeading(t, s.data.name)
  {
    var body :=
      match ChooseBranch(s.loading, s.error)
      case SpinnerBranch => Progress
      case ErrorBranch => ErrorMessage(s.error.value)
      case DataBranch =>
        var values := Derive(s.data);
        Weather(CityHeading(t, s.data.name), s.dateAndTime, t(values.description), values);
    Screen(s.lang.dir, body, s.lang.btnContent)
  }

  /**
   * Which body shows depends on `loading` and `error` alone, not on the
   * data, the language, the time stamp or the translations.
   */
  lemma BranchDependsOnStatusOnly(s1: AppState, s2: AppState, t1: string -> string, t2: string -> string)
    requires s1.loading == s2.loading && s1.error == s2.error
    ensures KindOf(Render(s1, t1).body) == KindOf(Render(s2, t2).body)
    ensures Render(s1, t1).body.ErrorMessage? ==> Render(s1, t1).body == Render(s2, t2).body
  {
  }

  /**
   * The toggle button is on every screen of a valid state, labelled with the
   * other language, and its label goes together with the direction.
   */
  lemma ToggleButtonAlwaysShown(s: AppState, t: string -> string)
    requires Valid(s)
    ensures var v := Render(s, t);
      (v.dir == Ltr && v.buttonLabel == "عربي") || (v.dir == Rtl && v.buttonLabel == "English")
  {
    DirectionLabelLanguageLockstep(s.lang);
  }

  /** Once a fetch has failed, no later screen shows weather data. */
  lemma {:induction false} FailureHidesDataForever(s: AppState, es: seq<Event>, t: string -> string)
    requires FetchFailed in es
    ensures !Render(Run(s, es), t).body.Weather?
    ensures !Run(s, es).loading ==> Render(Run(s, es), t).body == ErrorMessage(FetchErrorMessage)
  {
    ErrorAfterRun(s, es);
  }

  /** On mount the card shows the spinner, left to right, with the "عربي" button. */
  lemma MountShowsSpinner(i18nLanguage: string, momentLocale: string, t: string -> string)
    ensures Render(Mount(i18nLanguage, momentLocale), t) == Screen(Ltr, Progress, "عربي")
  {
  }

  /** A first fetch that succeeds shows the derived values of its payload. */
  lemma SuccessShowsWeather(i18nLanguage: string, momentLocale: string, now: int, p: Payload, t: string -> string)
    ensures var s := Run(Mount(i18nLanguage, momentLocale), CycleEvents(now, Response(p)));
      Render(s, t) == Screen(Ltr,
        Weather(CityHeading(t, p.name), Formatted(now, momentLocale), t(Description(p)), Derive(p)),
        "عربي")
  {
    FetchCycle(Mount(i18nLanguage, momentLocale), now, Response(p));
  }

  /**
   * Whatever the state before, the card shows the spinner from the start of
   * a fetch cycle until its `finally`.
   */
  lemma SpinnerWhileFetching(s: AppState, now: int, o: Outcome, t: string -> string, k: nat)
    requires 1 <= k <= 3
    ensures Render(Run(s, CycleEvents(now, o)[..k]), t).body == Progress
  {
    LoadingDuringCycle(s, now, o, k);
  }

  /** A fetch that fails shows the error text, and the toggle button stays. */
  lemma FailureShowsError(s: AppState, now: int, t: string -> string)
    ensures var v := Render(Run(s, CycleEvents(now, NetworkFailure)), t);
      v.body == ErrorMessage(FetchErrorMessage) && v.buttonLabel == s.lang.btnContent
  {
    FetchCycle(s, now, NetworkFailure);
  }

  /**
   * Toggling while English is selected switches to the right-to-left Arabic
   * screen, re-fetches and stamps the time in Arabic.
   */
  lemma ToggleFromEnglish(s: AppState, now: int, o: Outcome, t: string -> string)
    requires s.lang == EnglishLang
    ensures var r := Run(s, [LangToggle] + CycleEvents(now, o));
      r.lang == ArabicLang && Render(r, t).dir == Rtl && Render(r, t).buttonLabel == "English" &&
      r.i18nLanguage == "ar" && r.dateAndTime == Formatted(now, "ar") && !r.loading
  {
    ToggleThenCycle(s, now, o);
    RunAppend(s, [LangToggle], CycleEvents(now, o));
    FetchCycle(Step(s, LangToggle), now, o);
  }
}
