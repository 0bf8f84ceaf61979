/**
 * The state of the weather widget component and its transitions
 * (src/App/App.js, lines 39-71): the language toggle and the fetch cycle run
 * on mount and after every change of language.
 *
 * The transitions are specified once, as the pure function `Step` over an
 * `AppState` record; the class `WeatherApp` holds the same state in mutable
 * fields and each of its methods is proved to perform one `Step`.
 */
module Widget {
  import opened Wrappers
  import opened Transform
  import opened Locale

  /** The only error text the component ever stores. */
  const FetchErrorMessage: string := "Failed to fetch weather data"

  /**
   * The `dateAndTime` state: empty until the first fetch cycle, then the
   * clock reading formatted in the date library's locale of that moment. The
   * formatting itself belongs to the date library and is not modelled.
   */
  datatype Stamp = Unset | Formatted(instant: int, locale: string)

  /**
   * The component state (`lang`, `data`, `dateAndTime`, `loading`, `error`)
   * together with the two pieces of library state the component changes: the
   * active language of the translation library and the global locale of the
   * date library.
   */
  datatype AppState = AppState(
    lang: LangRecord,
    data: Payload,
    dateAndTime: Stamp,
    loading: bool,
    error: Option<string>,
    i18nLanguage: string,
    momentLocale: string)

  /** What every reachable state satisfies. */
  predicate Valid(s: AppState)
    ensures Valid(s) && s.error.Some? ==> s.error.value != ""
  {
    IsLangRecord(s.lang) && (s.error == None || s.error == Some(FetchErrorMessage))
  }

  /** The translation library shows the language of the selected record. */
  predicate InSync(s: AppState)
    requires IsLangRecord(s.lang)
  {
    s.i18nLanguage == Language(s.lang)
  }

  /**
   * The state right after mount, before the first effect runs. The start-up
   * language of the translation library and the date library's global locale
   * are set outside the component and are parameters here.
   */
  function Mount(i18nLanguage: string, momentLocale: string): (s: AppState)
    ensures Valid(s)
    ensures s.lang == EnglishLang && s.loading && s.error.None? && s.data == EmptyPayload
    ensures s.dateAndTime == Unset
  {
    AppState(EnglishLang, EmptyPayload, Unset, true, None, i18nLanguage, momentLocale)
  }

  /** The events that change the state. */
  datatype Event =
    | LangToggle                       // the toggle button's `langToggle`
    | FetchStart                       // `setLoading(true)` at the top of `fetchData`
    | TimeStamp(now: int)              // `setDateAndTime(...)`, then `moment.locale("en")`
    | FetchSucceeded(payload: Payload) // `setData(response.data)`
    | FetchFailed                      // `setError(...)` in the `catch`
    | FetchSettled                     // `setLoading(false)` in the `finally`

  /** How the network request of one fetch cycle ends. */
  datatype Outcome = Response(payload: Payload) | NetworkFailure

  /** One transition. */
  function Step(s: AppState, e: Event): (r: AppState)
    ensures r.lang != s.lang ==> e == LangToggle
    ensures r.data != s.data ==> e.FetchSucceeded? && r.data == e.payload
    ensures r.error != s.error ==> r.error == Some(FetchErrorMessage)
    ensures r.loading != s.loading ==> e == FetchStart || e == FetchSettled
    ensures r.i18nLanguage != s.i18nLanguage ==> e == LangToggle
    ensures r.dateAndTime != s.dateAndTime ==> e.TimeStamp?
    ensures r.momentLocale != s.momentLocale ==> e == LangToggle || e.TimeStamp?
    ensures e == FetchStart ==> r.loading
    ensures e == FetchSettled ==> !r.loading
  {
    match e
    case LangToggle =>
      // The handler reads the `lang` of the render it belongs to, so the
      // libraries receive the locale of the record being left.
      s.(lang := Toggled(s.lang), i18nLanguage := s.lang.locale, momentLocale := s.lang.locale)
    case FetchStart => s.(loading := true)
    case TimeStamp(now) => s.(dateAndTime := Formatted(now, s.momentLocale), momentLocale := "en")
    case FetchSucceeded(p) => s.(data := p)
    case FetchFailed => s.(error := Some(FetchErrorMessage))
    case FetchSettled => s.(loading := false)
  }

  /** A sequence of transitions, in order. */
  function Run(s: AppState, es: seq<Event>): AppState
    decreases |es|
  {
    if es == [] then s else Run(Step(s, es[0]), es[1..])
  }

  /** The event of a request's outcome. */
  function OutcomeEvent(o: Outcome): (e: Event)
    ensures e.FetchSucceeded? <==> o.Response?
    ensures o.Response? ==> e.payload == o.payload
    ensures o.NetworkFailure? ==> e == FetchFailed
  {
    match o
    case Response(p) => FetchSucceeded(p)
    case NetworkFailure => FetchFailed
  }

  /**
   * One effect run (src/App/App.js:56-71) with the request completing before
   * anything else happens: loading on, time stamp, outcome, loading off.
   */
  function CycleEvents(now: int, o: Outcome): (es: seq<Event>)
    ensures |es| == 4 && es[0] == FetchStart && es[|es| - 1] == FetchSettled
  {
    [FetchStart, TimeStamp(now), OutcomeEvent(o), FetchSettled]
  }

  /** Running `a` then `b` is running `a + b`. */
  lemma {:induction false} RunAppend(s: AppState, a: seq<Event>, b: seq<Event>)
    ensures Run(s, a + b) == Run(Run(s, a), b)
    decreases |a|
  {
    if a == [] {
      assert a + b == b;
    } else {
      assert (a + b)[1..] == a[1..] + b;
      RunAppend(Step(s, a[0]), a[1..], b);
    }
  }

  /** Every transition keeps a valid state valid. */
  lemma StepKeepsValid(s: AppState, e: Event)
    requires Valid(s)
    ensures Valid(Step(s, e))
  {
  }

  /** Every run keeps a valid state valid. */
  lemma {:induction false} RunKeepsValid(s: AppState, es: seq<Event>)
    requires Valid(s)
    ensures Valid(Run(s, es))
    decreases |es|
  {
    if es != [] {
      StepKeepsValid(s, es[0]);
      RunKeepsValid(Step(s, es[0]), es[1..]);
    }
  }

  /**
   * The error is never cleared: after a run it is the failure message if any
   * fetch failed during the run, and what it was before otherwise.
   */
  lemma {:induction false} ErrorAfterRun(s: AppState, es: seq<Event>)
    ensures Run(s, es).error == if FetchFailed in es then Some(FetchErrorMessage) else s.error
    decreases |es|
  {
    if es != [] {
      ErrorAfterRun(Step(s, es[0]), es[1..]);
      assert es == [es[0]] + es[1..];
      if FetchFailed in es[1..] {
        assert FetchFailed in es;
      }
    }
  }

  /** Once set, the error stays. */
  lemma ErrorIsSticky(s: AppState, es: seq<Event>)
    requires s.error.Some?
    requires Valid(s)
    ensures Run(s, es).error == s.error
  {
    ErrorAfterRun(s, es);
  }

  /** The payload of the last successful fetch in `es`, or `current` if there is none. */
  function LastPayload(es: seq<Event>, current: Payload): Payload
    decreases |es|
  {
    if es == [] then current
    else LastPayload(es[1..], if es[0].FetchSucceeded? then es[0].payload else current)
  }

  /**
   * `data` is replaced wholesale by every successful fetch and by nothing
   * else: a failure does not clear it.
   */
  lemma {:induction false} DataAfterRun(s: AppState, es: seq<Event>)
    ensures Run(s, es).data == LastPayload(es, s.data)
    decreases |es|
  {
    if es != [] {
      DataAfterRun(Step(s, es[0]), es[1..]);
    }
  }

  /** The number of toggles in `es`. */
  function Toggles(es: seq<Event>): nat
    decreases |es|
  {
    if es == [] then 0 else (if es[0] == LangToggle then 1 else 0) + Toggles(es[1..])
  }

  /** Only toggles move the selection, each to the other record. */
  lemma {:induction false} LangAfterRun(s: AppState, es: seq<Event>)
    requires IsLangRecord(s.lang)
    ensures Run(s, es).lang == if Toggles(es) % 2 == 0 then s.lang else Toggled(s.lang)
    decreases |es|
  {
    if es != [] {
      var s' := Step(s, es[0]);
      LangAfterRun(s', es[1..]);
      if es[0] == LangToggle {
        ToggleInvolution(s.lang);
      }
    }
  }

  /**
   * Every transition keeps the translation library's language in step with
   * the selection, and a toggle puts it in step whatever came before.
   */
  lemma StepKeepsInSync(s: AppState, e: Event)
    requires IsLangRecord(s.lang)
    requires InSync(s) || e == LangToggle
    ensures IsLangRecord(Step(s, e).lang) && InSync(Step(s, e))
  {
    if e == LangToggle {
      LocaleIsLanguageOfToggled(s.lang);
    }
  }

  /**
   * After any run that contains a toggle, the translation library shows the
   * language of the selected record.
   */
  lemma {:induction false} InSyncAfterToggle(s: AppState, es: seq<Event>)
    requires IsLangRecord(s.lang)
    requires InSync(s) || LangToggle in es
    ensures IsLangRecord(Run(s, es).lang) && InSync(Run(s, es))
    decreases |es|
  {
    if es == [] {
    } else {
      var s' := Step(s, es[0]);
      assert es == [es[0]] + es[1..];
      if InSync(s) || es[0] == LangToggle {
        StepKeepsInSync(s, es[0]);
      }
      InSyncAfterToggle(s', es[1..]);
    }
  }

  /** Once on, `loading` stays on until a `finally` turns it off. */
  lemma {:induction false} LoadingUntilSettled(s: AppState, es: seq<Event>)
    requires s.loading
    requires FetchSettled !in es
    ensures Run(s, es).loading
    decreases |es|
  {
    if es != [] {
      assert es[0] != FetchSettled;
      assert forall i :: 0 <= i < |es[1..]| ==> es[1..][i] == es[i + 1];
      LoadingUntilSettled(Step(s, es[0]), es[1..]);
    }
  }

  /**
   * While a fetch cycle's request is outstanding (after its start and before
   * its `finally`), `loading` is on.
   */
  lemma LoadingDuringCycle(s: AppState, now: int, o: Outcome, k: nat)
    requires 1 <= k <= 3
    ensures Run(s, CycleEvents(now, o)[..k]).loading
  {
    var es := CycleEvents(now, o);
    var pre := es[..k];
    assert pre[0] == FetchStart && pre[1..] == es[1..k];
    assert FetchSettled !in es[1..k];
    LoadingUntilSettled(Step(s, FetchStart), pre[1..]);
  }

  /**
   * One fetch cycle ends with `loading` off whatever the outcome; a response
   * replaces `data` and keeps `error`; a failure sets `error` and keeps
   * `data`; the time stamp takes the date library's locale at the start of
   * the effect, which is then reset to English.
   */
  lemma FetchCycle(s: AppState, now: int, o: Outcome)
    ensures var t := Run(s, CycleEvents(now, o));
      !t.loading &&
      t.lang == s.lang && t.i18nLanguage == s.i18nLanguage &&
      t.data == (if o.Response? then o.payload else s.data) &&
      t.error == (if o.Response? then s.error else Some(FetchErrorMessage)) &&
      t.dateAndTime == Formatted(now, s.momentLocale) &&
      t.momentLocale == "en"
  {
    RunOfCycle(s, now, o);
  }

  /** A cycle's run is its four steps. */
  lemma RunOfCycle(s: AppState, now: int, o: Outcome)
    ensures Run(s, CycleEvents(now, o))
         == Step(Step(Step(Step(s, FetchStart), TimeStamp(now)), OutcomeEvent(o)), FetchSettled)
  {
    var es := CycleEvents(now, o);
    var s1 := Step(s, es[0]);
    var s2 := Step(s1, es[1]);
    var s3 := Step(s2, es[2]);
    var s4 := Step(s3, es[3]);
    assert es[1..] == [es[1], es[2], es[3]];
    assert es[1..][1..] == [es[2], es[3]];
    assert es[1..][1..][1..] == [es[3]];
    calc {
      Run(s, es);
      Run(s1, es[1..]);
      Run(s2, es[1..][1..]);
      Run(s3, es[1..][1..][1..]);
      Run(s4, []);
    }
  }

  /**
   * After a toggle and the fetch cycle it triggers, the time stamp is in the
   * newly selected language, as are the translations.
   */
  lemma ToggleThenCycle(s: AppState, now: int, o: Outcome)
    requires IsLangRecord(s.lang)
    ensures var t := Run(s, [LangToggle] + CycleEvents(now, o));
      t.lang == Toggled(s.lang) &&
      t.dateAndTime == Formatted(now, Language(t.lang)) &&
      InSync(t)
  {
    var s1 := Step(s, LangToggle);
    RunAppend(s, [LangToggle], CycleEvents(now, o));
    FetchCycle(s1, now, o);
    LocaleIsLanguageOfToggled(s.lang);
  }

  /** The component, with the fields it updates in place. */
  class WeatherApp {
    var lang: LangRecord
    var data: Payload
    var dateAndTime: Stamp
    var loading: bool
    var error: Option<string>
    var i18nLanguage: string
    var momentLocale: string

    /** The abstract value of the fields. */
    function State(): AppState
      reads this
    {
      AppState(lang, data, dateAndTime, loading, error, i18nLanguage, momentLocale)
    }

    /** Mount: the initial values of the `useState` hooks. */
    constructor (initialLanguage: string, initialMomentLocale: string)
      ensures State() == Mount(initialLanguage, initialMomentLocale)
    {
      lang := EnglishLang;
      data := EmptyPayload;
      dateAndTime := Unset;
      loading := true;
      error := None;
      i18nLanguage := initialLanguage;
      momentLocale := initialMomentLocale;
    }

    /** `langToggle`. */
    method Toggle()
      modifies this
      ensures State() == Step(old(State()), LangToggle)
    {
      var current := lang;
      if current == EnglishLang {
        lang := ArabicLang;
      } else {
        lang := EnglishLang;
      }
      i18nLanguage := current.locale;
      momentLocale := current.locale;
    }

    method StartFetch()
      modifies this
      ensures State() == Step(old(State()), FetchStart)
    {
      loading := true;
    }

    method StampTime(now: int)
      modifies this
      ensures State() == Step(old(State()), TimeStamp(now))
    {
      dateAndTime := Formatted(now, momentLocale);
      momentLocale := "en";
    }

    method Succeed(payload: Payload)
      modifies this
      ensures State() == Step(old(State()), FetchSucceeded(payload))
    {
      data := payload;
    }

    method Fail()
      modifies this
      ensures State() == Step(old(State()), FetchFailed)
    {
      error := Some(FetchErrorMessage);
    }

    method Finish()
      modifies this
      ensures State() == Step(old(State()), FetchSettled)
    {
      loading := false;
    }

    /** The effect body with its request run to completion. */
    method RunFetchCycle(now: int, outcome: Outcome)
      modifies this
      ensures State() == Run(old(State()), CycleEvents(now, outcome))
    {
      ghost var s0 := State();
      StartFetch();
      StampTime(now);
      match outcome {
        case Response(p) => Succeed(p);
        case NetworkFailure => Fail();
      }
      Finish();
      RunOfCycle(s0, now, outcome);
    }
  }
}
