# Weather widget: a Dafny model of its component logic

The widget is one React component (`src/App/App.js`). It fetches the current
weather for a fixed coordinate, shows it in whole degrees Celsius, and switches
between an English left-to-right layout and an Arabic right-to-left layout.
Every switch re-runs the fetch. This project models the component's logic in
four modules:

- `Transform` (`transform.dfy`): `toCelsius` and the display values derived
  from the payload. `main` may be absent, which gives three "N/A" temperatures.
  The `weather` list may be absent or empty, which gives an "N/A" description
  and no icon.
- `Locale` (`locale.dfy`): the two constant records `englishLang` and
  `arabicLang`, and `langToggle`'s choice between them.
- `Widget` (`widget.dfy`): the component state (`lang`, `data`, `dateAndTime`,
  `loading`, `error`) and the two library settings the component changes:
  the translation library's active language and the date library's global
  locale.
  - The transitions are specified once, by the pure function `Step` over
    events. `Run` applies a sequence of events.
  - The class `WeatherApp` holds the same state in mutable fields. Each of its
    methods is proved to perform one `Step`, and `RunFetchCycle` is proved to
    perform one whole fetch cycle.
- `Presenter` (`presenter.dfy`): the render's choice of body, in fixed
  priority: spinner while loading, else the error text, else the weather
  view. The toggle button is on every screen.

Two behaviours of the code that are easy to misread:

- The locale codes are reversed: `englishLang.locale` is "ar" and
  `arabicLang.locale` is "en" (`src/App/App.js:26`, `:32`).
  - The toggle hands the locale of the record it leaves to the translation
    and date libraries (`src/App/App.js:52-53`).
  - So the language that reaches the libraries is the language of the newly
    selected record (`Locale.LocaleIsLanguageOfToggled`,
    `Widget.InSyncAfterToggle`).
- The only write to `error` is the `setError` in the `catch`
  (`src/App/App.js:63`), so nothing ever clears it. After one failure, every
  later screen that is not the spinner shows the error text, even after a
  later fetch succeeds (`Widget.ErrorAfterRun`,
  `Presenter.FailureHidesDataForever`). The model keeps this behaviour.

Modelling choices:

- Kelvin readings are exact `real`s. `Math.round` is the floor of `x + 0.5`.
- The network request is an `Outcome`: a response payload or a failure.
- The clock reading is an `int` parameter.
- The translation function `t` is an uninterpreted `string -> string`
  parameter of `Render`.
- The translation library's start-up language and the date library's
  start-up global locale are set outside the component. They are parameters
  of `Mount` and of the constructor.

## Model

| member | source | states |
|---|---|---|
| Transform.JsRound | src/App/App.js:36 | `Math.round` gives the integer `n` with `n - 0.5 <= x < n + 0.5`, so halves round up |
| Transform.ToCelsius | src/App/App.js:36 | `toCelsius(k)` is `k - 273.15` rounded to the nearest whole degree, halves up |
| Transform.ToCelsiusMonotone | src/App/App.js:36 | converting never reverses the order of two Kelvin readings |
| Transform.ToCelsiusShift | src/App/App.js:36 | a shift of `d` whole Kelvin shifts the Celsius value by exactly `d` |
| Transform.ToCelsiusSamples | src/App/App.js:36 | 300 K gives 27, 295 K gives 22, 305 K gives 32, 273.15 K gives 0 and 0 K gives -273 |
| Transform.TemperatureShown | src/App/App.js:75-77 | a shown temperature is "N/A" exactly when `main` is absent; otherwise it is its reading rounded to whole Celsius |
| Transform.TemperaturesInLockstep | src/App/App.js:75-77 | current, min and max temperature are either all numbers or all "N/A" |
| Transform.TemperaturesFromMain | src/App/App.js:74-77 | without `main` all three are "N/A"; with it each equals `toCelsius` of `temp`, `temp_min` and `temp_max` respectively |
| Transform.DisplayedRangeOrdered | src/App/App.js:75-77 | readings with min <= current <= max stay ordered when displayed |
| Transform.IconUrlFor | src/App/App.js:79 | the icon address is the OpenWeatherMap prefix, the icon code and the suffix `@2x.png`, in that order |
| Transform.IconOfUrl | src/App/App.js:79 | an icon code read back from an address rebuilds exactly that address |
| Transform.IconUrlRoundTrip | src/App/App.js:79 | reading the icon code back from the address built for it gives the same code |
| Transform.IconUrl | src/App/App.js:79 | an icon address is produced exactly when `weather` is present and non-empty, and it encodes `weather[0].icon` |
| Transform.Description | src/App/App.js:78 | the description is `weather[0].description` when `weather` is present and non-empty, and "N/A" otherwise; any result other than "N/A" is that first entry's description |
| Transform.Derive | src/App/App.js:74-79 | the derived values: current, min and max temperature are each "N/A" exactly when `main` is absent, an icon exists exactly when `weather` is non-empty, and without an icon the description is "N/A" |
| Transform.DescriptionAndIconAgree | src/App/App.js:78-79 | with a non-empty `weather` list, the description is `weather[0].description` and the icon address is built from `weather[0].icon`; otherwise the description is "N/A" and there is no icon |
| Transform.RiyadhSample | src/App/App.js:74-79 | readings 300/295/305 K with "clear sky"/"01d" display as 27, 22, 32, "clear sky" and the `01d@2x.png` icon |
| Locale.Language | src/App/App.js:23-33 | the left-to-right record is English ("en"); the other record is Arabic ("ar") |
| Locale.Toggled | src/App/App.js:46-51 | the toggle always selects one of the two records, a different one with the opposite direction; any other value becomes `englishLang` |
| Locale.ToggleInvolution | src/App/App.js:46-51 | toggling twice restores the selection |
| Locale.LocaleIsLanguageOfToggled | src/App/App.js:23-33 | each record's `locale` is the language of the record the toggle switches to |
| Locale.DirectionLabelLanguageLockstep | src/App/App.js:23-33 | `ltr` goes with the label "عربي" and English; `rtl` goes with "English" and Arabic |
| Widget.Mount | src/App/App.js:39-43 | the component starts with the English record, empty data, no time stamp, `loading` on and no error |
| Widget.Valid | src/App/App.js:39-43 | the reachable-state invariant: the selection is one of the two records and `error` is null or the fixed message, so a set error is never the empty (falsy) text |
| Widget.Step | src/App/App.js:46-70 | one state update: the fetch start turns `loading` on and the `finally` turns it off, and nothing else changes `loading`; only a toggle changes the selection and the translation language; only a response changes `data`, to its payload; `error` only ever changes to the fixed message; only the time stamp changes `dateAndTime`; only a toggle or the time stamp changes the date library's locale |
| Widget.OutcomeEvent | src/App/App.js:59-63 | a response becomes `setData` with its payload; a failure becomes `setError` |
| Widget.CycleEvents | src/App/App.js:56-71 | a fetch cycle starts by turning `loading` on and ends in the `finally` that turns it off |
| Widget.StepKeepsValid | src/App/App.js:46-67 | every transition keeps the selection one of the two records and the error either null or the fixed message |
| Widget.RunKeepsValid | src/App/App.js:46-67 | the same holds after any sequence of transitions |
| Widget.ErrorAfterRun | src/App/App.js:62-63 | after a run, `error` is the fixed message if any fetch in it failed, and otherwise what it was before; nothing resets it |
| Widget.ErrorIsSticky | src/App/App.js:63 | once the error is set, it stays set |
| Widget.DataAfterRun | src/App/App.js:60-63 | `data` is the payload of the last successful fetch, or its old value if there was none; a failure does not clear it |
| Widget.LangAfterRun | src/App/App.js:46-51 | only toggles move the selection: an even number keeps it, an odd number gives the other record |
| Widget.StepKeepsInSync | src/App/App.js:46-53 | a toggle puts the translation library's language in step with the selection, and no transition puts it out of step |
| Widget.InSyncAfterToggle | src/App/App.js:46-53 | after any run that contains a toggle, the translation library shows the language of the selected record |
| Widget.LoadingUntilSettled | src/App/App.js:58-66 | once `loading` is on, it stays on through any events until a `finally` |
| Widget.LoadingDuringCycle | src/App/App.js:58-66 | `loading` is on after the start, the time stamp and the outcome of a cycle, until its `finally` |
| Widget.FetchCycle | src/App/App.js:56-71 | after a cycle `loading` is off whatever the outcome; a response replaces `data` and keeps `error`; a failure sets the fixed error and keeps `data`; the time stamp uses the date locale of the cycle's start, which is then reset to "en" |
| Widget.ToggleThenCycle | src/App/App.js:46-71 | after a toggle and its fetch cycle, the time stamp and the translations are both in the newly selected language |
| Widget.WeatherApp.constructor | src/App/App.js:39-43 | the fields start in the `Mount` state |
| Widget.WeatherApp.Toggle | src/App/App.js:46-54 | selects the other record and hands the old record's locale to both libraries, as one `Step` |
| Widget.WeatherApp.StartFetch | src/App/App.js:58 | turns `loading` on and changes nothing else |
| Widget.WeatherApp.StampTime | src/App/App.js:69-70 | records the clock reading in the current date locale, then resets that locale to "en" |
| Widget.WeatherApp.Succeed | src/App/App.js:61 | replaces `data` with the payload and changes nothing else |
| Widget.WeatherApp.Fail | src/App/App.js:63 | sets `error` to "Failed to fetch weather data" and changes nothing else |
| Widget.WeatherApp.Finish | src/App/App.js:64-66 | turns `loading` off and changes nothing else |
| Widget.WeatherApp.RunFetchCycle | src/App/App.js:56-71 | performs the four steps of a fetch cycle in order |
| Presenter.ChooseBranch | src/App/App.js:87-91 | spinner exactly while loading; error text exactly when not loading and an error is set; weather view otherwise |
| Presenter.CityHeading | src/App/App.js:96 | the heading is the translated city name when that is non-empty, and "Loading..." otherwise; so it is never empty |
| Presenter.Render | src/App/App.js:84-124 | the screen has the record's direction and button label; its body is the chosen branch; the weather view shows the derived values, the time stamp and the translated description |
| Presenter.BranchDependsOnStatusOnly | src/App/App.js:87-91 | which body shows depends only on `loading` and `error` |
| Presenter.ToggleButtonAlwaysShown | src/App/App.js:122-124 | every screen has the toggle button, labelled "عربي" in the `ltr` layout and "English" in the `rtl` layout |
| Presenter.FailureHidesDataForever | src/App/App.js:87-91 | after a failed fetch no later screen shows weather data; once loading is over, it shows the error text |
| Presenter.MountShowsSpinner | src/App/App.js:84-88 | on mount the screen is the spinner, `ltr`, with the "عربي" button |
| Presenter.SuccessShowsWeather | src/App/App.js:56-79 | a first fetch that succeeds shows the city, the time stamp, the translated description and the derived values of its payload |
| Presenter.SpinnerWhileFetching | src/App/App.js:58-66 | from any state, the card shows the spinner at every point of a fetch cycle from its start to its `finally` |
| Presenter.FailureShowsError | src/App/App.js:62-63 | a failed fetch shows "Failed to fetch weather data" and keeps the toggle button |
| Presenter.ToggleFromEnglish | src/App/App.js:46-71 | toggling from English gives the Arabic `rtl` screen with the "English" button. The translation language is then "ar", the time stamp is in "ar", and `loading` is off after the new fetch |

## Left out

- The HTTP request (`axios.get`), the API address and its key from the environment: network I/O. The request's result is the `Outcome` parameter.
- Overlapping fetch cycles: rapid toggles can start a second request before the first ends, and the last one to finish wins. This is asynchronous concurrency. The model runs one cycle to completion before the next starts.
- Date formatting by the date library: `dateAndTime` is modelled as the clock reading plus the locale it was formatted in, not as the formatted text.
- Translation tables: `./i18n` is not part of this model. `t` is an arbitrary total function.
- Presenter.CityHeading: a missing `name` is taken to translate to empty text, so it shows "Loading...". What the translation library returns for an undefined key is not part of this model.
- Layout, theme, fonts, icons, the image's alt text and the "Min"/"Max" line text: these are presentation only.
- `src/index.js`: this only mounts the component.
- Transform.ToCelsius: IEEE-754 double arithmetic is not modelled. `kelvin - 273.15` is computed on exact reals, and so is `Math.round`, so inputs where floating-point rounding changes the result are not covered.
- Transform.Description: a `weather[0]` entry without a `description` field (which shows `undefined` in the code, not "N/A") is not modelled. Every entry has both a description and an icon code.
- Transform.TemperatureShown: a `main` object without a temperature field (which yields `NaN` in the code) is not modelled. `main` is either absent or has all three readings.
