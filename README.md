# Property intake client — a Dafny model

This project models the client side of a property-deal intake app. The owner
fills in a property form. The form turns its raw text into a JSON payload and
submits it. The app then shows the deal the server returns: a rank badge, the
deal's place in a four-stage pipeline (submitted, matched, reviewed, closed),
formatted analysis figures, and the matched buyers.

Modules, one per source file, plus one for the JavaScript built-ins they use:

- `JsText` (`JsText.dfy`) covers the built-ins the components call. It models `null`, `Number(s)` on
  integer text, `String(n)`, en-US `toLocaleString()`, `toFixed(1)`,
  `includes` and `replaceAll` with a single character. Numbers are integers.
- `DealPipeline` (`DealPipeline.dfy`): the fixed step list, the `findIndex`
  lookup of the current stage and the highlight rule `i <= currentIndex`.
- `PropertyForm` (`PropertyForm.dfy`): the form record, the one-field update
  of `handleChange`, and the payload built by `handleSubmit`. `Number` is a
  parameter of the payload builder, so every payload property holds for any
  parser; `JsText.IntegerNumber` is the concrete one used in examples. The
  payload builder is a function, so it is deterministic, and submitting leaves
  the form unchanged. The class `FormComponent` holds the component's `form`, `loading` and `error`.
- `App` (`App.dfy`): the deal returned by the server, and the five pieces of
  component state as the pure `AppState` with transition functions. It also
  covers view selection, stage derivation, the rank badge, analysis cards and
  the buyers panel. The class `AppComponent` holds the same five fields, and
  each handler is proved to move them as its transition function says.

`submitProperty` awaits twice: first `fetch` (src/App.jsx:18), then either
`res.text()` (src/App.jsx:24) or `res.json()` (src/App.jsx:27). No state
changes between the two awaits, so the model settles the request in one step.
`handleSubmit` awaits once, on `onSubmit` (src/components/PropertyForm.jsx:42).
Each is split into two methods: a begin step (loading on, error cleared) and a
settle step (the outcome applied, loading off). The network result is a
parameter: `Ok(deal)`, `HttpError(body)` or `Thrown(message)`.

What the code does and does not do:

- No validation step. Numeric text is never checked; only the HTML `required`
  attribute guards the form. `FormComponent.SubmitBegin` takes it as a
  precondition.
- No `deal_id` check on a successful response.
- No rejection of a second submission in the app. Only the form's button is
  disabled while it waits.
- No guard against a late response in `submitProperty` itself.
  `App.LateResponseIsApplied` shows that, on the transition functions alone, a
  deal arriving after "Submit Another" still replaces the form. The rendered
  app never reaches that sequence: the form's button is disabled while a
  request is pending (src/components/PropertyForm.jsx:75), and "Submit
  Another" is shown only in the result view (src/App.jsx:67, 118), which is
  reached only once the request has settled.
- The stage is only ever "submitted" or "matched" (`App.StageStaysDerived`).

## Model

| member | source | states |
|---|---|---|
| `JsText.IntegerNumber` | src/components/PropertyForm.jsx:35-40 | `Number` on the text of an integer input: the empty string is 0; digits are their decimal value; '+' or '-' then digits is that value with the sign; anything else is NaN |
| `JsText.LeadingZerosIgnored` | src/components/PropertyForm.jsx:35-40 | a leading zero, after an optional sign, does not change the number parsed |
| `JsText.TypedNumbers` | src/components/PropertyForm.jsx:35-40 | typed text "007", "+5" and "-007" parse to 7, 5 and -7 |
| `JsText.IntText` | src/App.jsx:92 | `${v}` of an integer is a '-' exactly when it is negative, then the digits of its magnitude, with no leading zero unless it is 0 |
| `JsText.LocaleText` | src/App.jsx:92 | `toLocaleString()` of an integer is a '-' exactly when it is negative, then correctly comma-grouped digits that are `${v}` once the commas are removed |
| `JsText.IntTextRoundTrip` | src/App.jsx:92 | the text `${v}` of every integer parses back to `v` |
| `JsText.FixedOne` | src/App.jsx:107 | `toFixed(1)` of an integer is `${v}` followed by ".0", and what precedes ".0" parses back to the number |
| `JsText.Grouped` | src/App.jsx:92 | en-US grouping: a comma exactly before each group of three digits counted from the right, digits elsewhere, and a non-empty leading group |
| `JsText.GroupedDigits` | src/App.jsx:92 | grouping only inserts commas: without them the text is the number's plain decimal text |
| `JsText.LocaleTextRoundTrip` | src/App.jsx:92 | `toLocaleString()` of any integer, commas removed, parses back to that integer |
| `JsText.Includes` | src/App.jsx:92 | `s.includes(sub)` holds iff `sub` occurs in `s` at some position |
| `JsText.ReplaceChar` | src/App.jsx:91 | `replaceAll` of one character keeps the length and replaces exactly the matching characters |
| `DealPipeline.StepOrder` | src/components/DealPipeline.jsx:4-9 | the steps are submitted, matched, reviewed, closed in that order, with distinct keys |
| `DealPipeline.FindIndex` | src/components/DealPipeline.jsx:11 | `findIndex` gives the first position whose key is the stage, or -1 exactly when no step has that key |
| `DealPipeline.CurrentIndex` | src/components/DealPipeline.jsx:11 | `currentIndex` is the position of the step whose key is the stage, and -1 exactly when the stage is not a step |
| `DealPipeline.Highlights` | src/components/DealPipeline.jsx:15-18 | one colour per step; a step is green exactly when the stage is that step's key or a later step's key |
| `DealPipeline.CurrentIndexOfStep` | src/components/DealPipeline.jsx:4-11 | each step's key is found at that step's own position |
| `DealPipeline.HighlightsArePrefix` | src/components/DealPipeline.jsx:15-18 | the highlighted steps are exactly the first `currentIndex + 1`; a highlighted step implies every earlier one is highlighted |
| `DealPipeline.KnownStageHighlights` | src/components/DealPipeline.jsx:11-18 | for a known stage, its own step and all earlier ones are highlighted and every later one is not |
| `DealPipeline.UnknownAndClosed` | src/components/DealPipeline.jsx:11-18 | an unknown stage highlights nothing; "closed" highlights all four steps |
| `DealPipeline.HighlightsMonotone` | src/components/DealPipeline.jsx:17 | a stage at a later index highlights every step an earlier one does |
| `PropertyForm.Initial` | src/components/PropertyForm.jsx:4-19 | the initial form has every field empty except `property_type`, which is "single_family" |
| `PropertyForm.Set` | src/components/PropertyForm.jsx:23-26 | a field update changes the named field to the new text and leaves every other field as it was |
| `PropertyForm.RequiredFilled` | src/components/PropertyForm.jsx:54-70 | the browser lets the form submit exactly when owner name, address, city, state, ZIP and asking price are all non-empty |
| `PropertyForm.ToPayload` | src/components/PropertyForm.jsx:33-41 | each payload field is its form text normalised by its field's rule: text copied, non-empty numeric text parsed, empty numeric text `null` or 0 |
| `PropertyForm.FieldKinds` | src/components/PropertyForm.jsx:33-41 | every field is exactly one of text, nullable number, or number defaulting to 0 |
| `PropertyForm.EmptyNumbersNormalised` | src/components/PropertyForm.jsx:35-40 | empty bedrooms, bathrooms, sqft or arv is sent as `null`; empty asking_price or repair_cost as 0, whatever `Number` does |
| `PropertyForm.NonEmptyNumbersParsed` | src/components/PropertyForm.jsx:35-40 | non-empty numeric text is sent as `Number(text)`, and a numeric field never carries a string |
| `PropertyForm.ZeroTextIsNotEmpty` | src/components/PropertyForm.jsx:35 | the text "0" in bedrooms is truthy, so it is sent as the number 0 and not as `null` |
| `PropertyForm.TextFieldsCopied` | src/components/PropertyForm.jsx:33-34 | owner, address, city, state, zip, property type and notes are copied unchanged |
| `PropertyForm.ExamplePayload` | src/components/PropertyForm.jsx:33-41 | a form with only the required inputs filled is sent with asking_price 150000, repair_cost 0 and bedrooms `null` |
| `PropertyForm.FormComponent.constructor` | src/components/PropertyForm.jsx:4-21 | the component starts with the initial form, not loading and no error |
| `PropertyForm.FormComponent.HandleChange` | src/components/PropertyForm.jsx:23-26 | `handleChange` replaces the form by its one-field update and leaves loading and error alone |
| `PropertyForm.FormComponent.SubmitBegin` | src/components/PropertyForm.jsx:28-42 | submitting sets loading (the button is disabled), clears the error, leaves the form unchanged and yields the payload of the current form |
| `PropertyForm.FormComponent.SubmitEnd` | src/components/PropertyForm.jsx:45-47 | once `onSubmit` settles, loading is off and the button enabled again; form and error unchanged |
| `App.InitialState` | src/App.jsx:7-11 | the first state shows the Hero, is not loading, has no error and puts the pipeline at its first step |
| `App.Started` | src/App.jsx:43 | the start button sets `showForm`, so the form is shown unless a result is; result, stage, loading and error are kept |
| `App.Submitting` | src/App.jsx:14-15 | a submission starts loading with the error cleared, in the same view with the same result and stage |
| `App.SubmittedAnother` | src/App.jsx:118 | "Submit Another" leads to the form view with no result and keeps stage, loading and error |
| `App.ShowsError` | src/App.jsx:51 | the error line is shown iff the form view is on screen and the error is not empty |
| `App.ShowsBusy` | src/App.jsx:52 | the "Analyzing" line is shown iff the form view is on screen and a submission is pending |
| `App.StageFor` | src/App.jsx:29 | the stage is "matched" iff the rank is truthy, else "submitted"; the pipeline index is 1 or 0 accordingly |
| `App.ErrorMessage` | src/App.jsx:23-31 | the error is the body text or thrown message when non-empty, otherwise "Failed to submit property"; never empty |
| `App.Settled` | src/App.jsx:23-34 | after any outcome loading is off; a deal replaces the result and sets the stage derived from its rank; a failure sets the error and leaves result and stage as they were |
| `App.ViewOf` | src/App.jsx:42-67 | exactly one view is shown: Hero iff no form and no result, form iff form and no result, result iff a result |
| `App.RankBadge` | src/App.jsx:77 | emerald iff rank A, blue iff B, amber iff C, slate for anything else including a missing rank |
| `App.RowOf` | src/App.jsx:101-107 | a buyer row shows the buyer's id, name and email, and "Score " followed by `${score}` and ".0", the middle parsing back to the score |
| `App.BuyersPanelOf` | src/App.jsx:99-113 | the "no buyers" message iff the buyer list is missing or empty; otherwise one row per buyer in server order |
| `App.Label` | src/App.jsx:91 | a label is the key with every underscore turned into a space and every other character kept, same length |
| `App.FormatValue` | src/App.jsx:92 | a number under a "pct" key reads as `${v}` followed by "%"; any other number as "$", a '-' iff negative, and correctly comma-grouped digits that are `${v}` without the commas; other values as `String(v)` |
| `App.AnalysisCards` | src/App.jsx:89-94 | one card per analysis entry in order, with its label and formatted value; a missing `analysis` gives none |
| `App.StartShowsForm` | src/App.jsx:42-46 | the first screen is the Hero, and its start button leads to the form |
| `App.SubmissionLifecycle` | src/App.jsx:13-34 | a submission starts with loading on and the error cleared, and ends with loading off whatever the outcome, with an error exactly when it failed |
| `App.SuccessShowsDeal` | src/App.jsx:27-29 | a received deal is shown in the result view; the pipeline lights "submitted", lights "matched" iff the deal is ranked, and never lights the last two steps |
| `App.FailureKeepsView` | src/App.jsx:23-34 | a failure keeps result, stage and view; from the form view it shows the error line and no busy line |
| `App.SubmitAnotherShowsForm` | src/App.jsx:13-118 | after a deal has been shown, "Submit Another" gives the form view with no busy line, no error line, and the deal's stage kept |
| `App.StageStaysDerived` | src/App.jsx:9-29 | every handler keeps the stage at "submitted" or "matched", so "reviewed" and "closed" are never lit |
| `App.LateResponseIsApplied` | src/App.jsx:13-35 | on the transition functions alone, a deal applied after "Submit Another" still switches the form view to the result view (a sequence the rendered app does not reach) |
| `App.ExampleSuccess` | src/App.jsx:27-29 | a B-ranked deal with no buyers: stage "matched", blue badge, "no buyers" message, cards "mao: $120,000" and "discount pct: 20%" |
| `App.ExampleValues` | src/App.jsx:92 | `mao` 120000 renders as "$120,000" and `discount_pct` 20 as "20%" |
| `App.ExampleLabels` | src/App.jsx:91 | the key "discount_pct" is labelled "discount pct" and "mao" stays "mao" |
| `App.ExampleFailure` | src/App.jsx:23-34 | a non-OK response with body "internal error" ends with that error, not loading, no deal, on the form view |
| `App.AppComponent.constructor` | src/App.jsx:7-11 | the app starts with no form, no result, stage "submitted", not loading and no error |
| `App.AppComponent.HandleStart` | src/App.jsx:43 | the Hero's start sets `showForm` and changes nothing else |
| `App.AppComponent.SubmitBegin` | src/App.jsx:14-15 | the submission sets loading and clears the error, nothing else |
| `App.AppComponent.SubmitSettle` | src/App.jsx:23-34 | the state becomes the settled state for the outcome |
| `App.AppComponent.HandleSubmitAnother` | src/App.jsx:118 | "Submit Another" clears the result and sets `showForm`, nothing else |

## Left out

- The `fetch` call is left out. So are the `VITE_BACKEND_URL` base URL and the `POST /properties` request (src/App.jsx:17-22). This is network I/O; the request's outcome is the `Outcome` parameter of `App.AppComponent.SubmitSettle`.
- Decoding the response with `res.text()` and `res.json()` is left out; a parse failure is a `Thrown` outcome. A body that parses to a non-object (for example `null`) is also left out: the deal is always an object here.
- The interleaving of the two `await`s with other handlers is left out. The begin and settle steps are separate methods, and any handler may run between them.
- Numbers are integers, and unbounded. JavaScript numbers are doubles: integer text above 2^53 is rounded by `Number` (for example `Number("9007199254740993")` is 9007199254740992), while `JsText.IntegerNumber` keeps it exact. Fractional values, `toFixed(1)` rounding and the exponent notation of very large numbers are left out; so is any locale other than en-US. `Number(text)` is a parameter of `PropertyForm.ToPayload`. The concrete `JsText.IntegerNumber` accepts only an optional sign and ASCII digits. It returns NaN where JavaScript also accepts whitespace, decimals, exponents, hex or `Infinity`.
- Analysis values are numbers, strings, booleans or `null`; nested arrays and objects (`String(v)` of those) are left out. `Object.entries` ordering is taken as the sequence given.
- The form's `catch` path (src/components/PropertyForm.jsx:43-44) is left out, because `submitProperty` catches every error itself. For the same reason the form's own `error` is only ever cleared.
- The Hero component is left out: it is static markup and animation that only forwards `onStart`.
- Styling is left out: the Tailwind classes other than the badge colour, the `<style>` block, the `capitalize` CSS on labels and the "Connection Test" link.
