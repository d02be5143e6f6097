# National-park portal: generation gateway and its callers

This project models the part of the national-park portal that talks to the
generative model. It also proves properties of that model.

- **The generation gateway** (`services/geminiService.ts`):
  - the one-time client set-up;
  - the three operations `generateTripPlan`, `summarizePaper` and `getSmartInsight`;
  - their prompt templates and request options;
  - the fallback (mock) trip plan, summary and insight.

  The remote model is the function parameter `remote`. It maps a request to
  `Threw` or to `Returned(text)`, where the text is a `string | undefined`.
  `JSON.parse` is the function parameter `parse`, whose `None` means "threw".
  Each operation is therefore a function of its inputs. "No remote call" is
  stated as "the result does not depend on `remote`".
- **The three callers**, each a class whose fields are the component's state
  variables. `Begin` models the synchronous part of the handler, `Complete`
  models what follows the `await`, and the handler method runs both around the
  gateway. Each method is specified by a pure transition function (`InFlight` /
  `Completed`, `SummaryBegun` / `SummaryCompleted`, `InsightBegun` /
  `InsightCompleted`). The lemmas state what the view renders from those states.
  The three callers are:
  - the trip planner (`loading`, `error`, `plan`, with the day cards it renders);
  - the academic hub (`searchTerm`, `activePaper`, `loadingSummary`, `summary`,
    with the title search over the paper catalogue);
  - the dashboard's smart-warning card (`loadingInsight`, `insight`).

Modules, one file each:

| module | file |
|---|---|
| `Wrappers` | `wrappers.dfy` |
| `JsValues` | `js_values.dfy` |
| `Types` | `types.dfy` |
| `GeminiService` | `gemini_service.dfy` |
| `TripPlanner` | `trip_planner.dfy` |
| `AcademicHub` | `academic_hub.dfy` |
| `Dashboard` | `dashboard.dfy` |

What each module covers:

- `Wrappers`: the `Option` type.
- `JsValues`: JSON values and JavaScript truthiness, `||` on `string | undefined`, property lookup, `includes`, template literals and integer-to-text.
- `Types`: the `AcademicPaper` record.
- `TripPlanner`, `AcademicHub`, `Dashboard`: the three callers described above.

## What the code does not check

The model follows the code, which has none of these checks:

- **Day count.** `generateTripPlan` uses `days` as given (services/geminiService.ts:35, :43). The form fills it with `parseInt` (components/TripPlanner.tsx:75), so it can be `NaN`; `min` and `max` on the input are only hints. The model takes `days` as an integer or `NaN`, and no operation fails on it.
- **Empty text.** `summarizePaper` and `getSmartInsight` return `response.text` unchanged, even when it is empty or undefined (services/geminiService.ts:90, :117). Only the callers substitute their fixed "unavailable" messages (components/AcademicHub.tsx:44, components/Dashboard.tsx:33).
- **Trip plan shape.** `generateTripPlan` returns whatever `JSON.parse` yields, with no check of its keys; a missing or empty text is parsed as `'{}'` (services/geminiService.ts:63).

## Model

| member | source | states |
|---|---|---|
| JsValues.Get | components/TripPlanner.tsx:151 | property access on a parsed value yields something only on objects, namely the last member with that key; the views read properties only of truthy values, never of `null` |
| JsValues.LastMember | services/geminiService.ts:63 | the parsed object's value for a key is absent exactly when no member has that key, and otherwise belongs to the last member with that key, as `JSON.parse` keeps the last duplicate |
| JsValues.Truthy | components/TripPlanner.tsx:142 | JavaScript truthiness of a parsed value, by kind |
| JsValues.FalsyValues | components/TripPlanner.tsx:142 | exactly `null`, `false`, `0` and `""` are falsy; every array and object is truthy |
| JsValues.TruthyText | services/geminiService.ts:63 | a possibly undefined string is truthy exactly when it is defined and non-empty |
| JsValues.Includes | components/AcademicHub.tsx:124 | `includes`: the term occurs at some position of the text |
| JsValues.NumberText | services/geminiService.ts:43 | `NaN` renders as `NaN`; an integer renders as the canonical digits of its magnitude, after a minus sign when negative, and the digits read back as the magnitude |
| JsValues.OrElse | services/geminiService.ts:63 | `or` on a possibly undefined string gives the string when it is a non-empty string, otherwise the fallback; it is empty only when both are |
| JsValues.DecimalText | components/TripPlanner.tsx:165 | the decimal text of an integer is non-empty, all digits, with no leading zero |
| JsValues.DecimalRoundTrip | components/TripPlanner.tsx:165 | reading the decimal text back gives the number |
| JsValues.ConcatIncludesPiece | services/geminiService.ts:42-53 | every interpolated value occurs in the text of a template literal |
| GeminiService.InitClient | services/geminiService.ts:6-12 | the key is the environment value when set and non-empty, else `''`; the client exists unless its constructor throws; the gateway is configured exactly when both hold |
| GeminiService.Configured | services/geminiService.ts:36 | the check each operation opens with: the client exists and the key is non-empty |
| GeminiService.MockTripPlanShape | services/geminiService.ts:18-27 | the fallback plan is a truthy object whose four keys give the fallback texts and a three-element itinerary; the plan summary, each day, the tips, the gear and the mock summary and insight are all non-empty |
| GeminiService.TripPromptText | services/geminiService.ts:42-53 | the trip prompt contains the day count, trip type, destination and interests, and names the keys `summary`, `itinerary`, `tips` and `gear` |
| GeminiService.SummaryPromptText | services/geminiService.ts:77-83 | the summary prompt contains the title and the abstract |
| GeminiService.InsightPromptText | services/geminiService.ts:103-110 | the insight prompt contains the context data and the query |
| GeminiService.TripRequest | services/geminiService.ts:55-61 | the trip request names the shared model, asks for `application/json`, and its prompt contains the destination, day count, trip type and interests |
| GeminiService.SummaryRequest | services/geminiService.ts:85-88 | the summary request names the shared model, sets no response type, and its prompt contains the title and abstract |
| GeminiService.InsightRequest | services/geminiService.ts:112-115 | the insight request names the shared model, sets no response type, and its prompt contains the query and context data |
| GeminiService.TextResult | services/geminiService.ts:90-93 | the shared text policy: the fallback if the call throws, otherwise the response text as it is |
| GeminiService.GenerateTripPlan | services/geminiService.ts:35-69 | the fallback plan when unconfigured or when the call throws; otherwise the parse of the text (or of `'{}'` when the text is empty or missing), and the fallback plan when that parse throws; the result is the mock or some parsed value |
| GeminiService.SummarizePaper | services/geminiService.ts:71-95 | the mock summary when unconfigured or when the call throws; otherwise the returned text exactly, even empty or undefined |
| GeminiService.GetSmartInsight | services/geminiService.ts:97-122 | the mock insight when unconfigured or when the call throws; otherwise the returned text exactly |
| GeminiService.UnconfiguredIgnoresRemote | services/geminiService.ts:36-39 | an unconfigured gateway gives the same result for any remote and any parser, so it makes no call |
| GeminiService.EmptyTripTextGivesEmptyObject | services/geminiService.ts:63 | an empty or missing trip text yields the empty object, which is not the fallback plan |
| GeminiService.ParsedValueReturnedAsIs | services/geminiService.ts:63 | a parsed trip text is returned unchanged, of whatever shape |
| GeminiService.SummaryTextReturnedAsIs | services/geminiService.ts:90 | a configured, successful summary call's text is the result, without substitution |
| GeminiService.InsightTextReturnedAsIs | services/geminiService.ts:117 | a configured, successful insight call's text is the result, without substitution |
| TripPlanner.Completed | components/TripPlanner.tsx:20-27 | resolution stores the result and keeps the error; rejection sets the fixed message and keeps the plan; loading is false on both paths |
| TripPlanner.ConsistentStates | components/TripPlanner.tsx:16-27 | the initial and in-flight states, and every completion of an in-flight state, keep "no plan or error while loading, and no plan beside an error" |
| TripPlanner.ConsistentShowsOneSection | components/TripPlanner.tsx:122-142 | in every such state exactly one of the error banner, placeholder, spinner and plan renders, and which one |
| TripPlanner.Sections | components/TripPlanner.tsx:122-142 | each of the error banner, placeholder, spinner and plan renders exactly under its JSX condition |
| TripPlanner.CycleSections | components/TripPlanner.tsx:128-142 | only the spinner while in flight; afterwards the plan, or the placeholder for a falsy plan, or only the error after a rejection |
| TripPlanner.ButtonLabel | components/TripPlanner.tsx:105-108 | the busy caption exactly when the button is disabled, that is, while loading; the idle caption exactly otherwise |
| TripPlanner.ButtonDisabled | components/TripPlanner.tsx:105 | the button is disabled exactly while loading |
| TripPlanner.FieldOr | components/TripPlanner.tsx:151-155 | a truthy field is shown as is, anything else as the default text, so a non-empty default is never falsy |
| TripPlanner.GearAndTipsShown | components/TripPlanner.tsx:151-155 | missing gear or tips show the defaults; what is shown is always truthy; the fallback plan shows its own gear and tips |
| TripPlanner.GearShown | components/TripPlanner.tsx:151 | the gear line is the plan's own gear whenever it is truthy, otherwise the default, and never falsy |
| TripPlanner.TipsShown | components/TripPlanner.tsx:155 | the tips line is the plan's own tips whenever they are truthy, otherwise the default, and never falsy |
| TripPlanner.Blank | components/TripPlanner.tsx:171 | replacing the pattern keeps the length and turns exactly the five bracket and quote characters into spaces |
| TripPlanner.Excerpt | components/TripPlanner.tsx:171 | the card text is at most 300 characters, contains none of the characters in `"{}[]`, and agrees with the input position by position |
| TripPlanner.ExcerptKeepsCleanText | components/TripPlanner.tsx:171 | a short text without those characters is shown unchanged |
| TripPlanner.DayCardOf | components/TripPlanner.tsx:164-171 | card `i` carries the badge `D` followed by the canonical decimal digits of `i + 1`, which read back as `i + 1`; the heading `第 {i + 1} 天行程`; and a body that is the excerpt plus `...`, at most 303 characters |
| TripPlanner.DayCards | components/TripPlanner.tsx:161-171 | no cards for a missing or null itinerary; one card per element, in order, for an array; a render error for any other value |
| TripPlanner.MockPlanCards | components/TripPlanner.tsx:161-165 | the fallback plan renders three day cards, badged `D1` to `D3` |
| TripPlanner.Planner.constructor | components/TripPlanner.tsx:6-14 | the initial form, not loading, no error, plan `null` |
| TripPlanner.Planner.SetForm | components/TripPlanner.tsx:57-98 | editing the form changes nothing else |
| TripPlanner.Planner.Begin | components/TripPlanner.tsx:17-19 | loading is set, the error cleared and the plan reset, from any state |
| TripPlanner.Planner.Complete | components/TripPlanner.tsx:20-27 | the new state is the completion of the old one, and the consistency invariant is kept |
| TripPlanner.Planner.HandleGenerate | components/TripPlanner.tsx:16-28 | the gateway gets the form's destination, days, type and interests in that order; the plan is its result; loading ends false and the error banner never shows |
| AcademicHub.FilterByTitle | components/AcademicHub.tsx:124 | exactly the papers whose title contains the term are kept, each as often as in the catalogue, and never more papers than the catalogue |
| AcademicHub.FilterKeepsOrder | components/AcademicHub.tsx:124 | the matches are a subsequence of the catalogue, in catalogue order |
| AcademicHub.EmptyTermKeepsAll | components/AcademicHub.tsx:124 | an empty search term lists every paper |
| AcademicHub.FilterAppend | components/AcademicHub.tsx:124 | filtering distributes over concatenation of catalogues |
| AcademicHub.ExactTitleIsFound | components/AcademicHub.tsx:124 | searching for a paper's exact title lists it |
| AcademicHub.SummaryBegun | components/AcademicHub.tsx:40-42 | the chosen paper becomes active, loading starts and the summary is cleared |
| AcademicHub.SummaryCompleted | components/AcademicHub.tsx:44-45 | the summary is the result if it is non-empty, else the fixed message, so it is never empty; loading ends; the active paper is kept |
| AcademicHub.PanelOf | components/AcademicHub.tsx:155-171 | no panel without an active paper; under its title, the indicator while loading, else the summary |
| AcademicHub.SummaryCycle | components/AcademicHub.tsx:155-171 | no panel at first, the indicator while pending, then a non-empty summary under the chosen title |
| AcademicHub.SummaryShown | components/AcademicHub.tsx:43-44 | the summary shown is the mock when unconfigured or when the call throws, the returned text when it is non-empty, and the fixed message otherwise |
| AcademicHub.Hub.Results | components/AcademicHub.tsx:124 | the listed papers are the catalogue papers whose title contains the current term, each as often as in the catalogue, in catalogue order |
| AcademicHub.Hub.constructor | components/AcademicHub.tsx:34-37 | empty search, no active paper, not loading, empty summary, so every paper is listed |
| AcademicHub.Hub.SetSearchTerm | components/AcademicHub.tsx:117 | typing changes only the search term |
| AcademicHub.Hub.Begin | components/AcademicHub.tsx:40-42 | the new state is the begun state for the paper |
| AcademicHub.Hub.Complete | components/AcademicHub.tsx:44-45 | the new state is the completion of the old one with the result |
| AcademicHub.Hub.HandleSummarize | components/AcademicHub.tsx:39-46 | the gateway gets the paper's title and abstract; afterwards the panel shows a non-empty summary under that title |
| Dashboard.InsightBegun | components/Dashboard.tsx:29 | starting sets the loading flag and keeps the previous insight |
| Dashboard.InsightCompleted | components/Dashboard.tsx:33-34 | the insight is the result if it is non-empty, else the fixed message, so it is never empty; loading ends |
| Dashboard.CardCaption | components/Dashboard.tsx:89 | the busy caption exactly while loading, the idle caption otherwise |
| Dashboard.ShowsInsight | components/Dashboard.tsx:95 | the insight panel renders exactly when the insight is non-empty |
| Dashboard.InsightCycle | components/Dashboard.tsx:89-95 | no panel at first; a pending request keeps whatever panel was shown; every completed request shows a panel and the idle caption |
| Dashboard.InsightPromptCarriesInputs | components/Dashboard.tsx:31-32 | the request carries the fixed context and the fixed query, with no JSON mime type |
| Dashboard.InsightShown | components/Dashboard.tsx:32-33 | the insight shown is the mock when unconfigured or when the call throws, the returned text when it is non-empty, and the fixed message otherwise |
| Dashboard.Cockpit.constructor | components/Dashboard.tsx:25-26 | not loading and no insight |
| Dashboard.Cockpit.Begin | components/Dashboard.tsx:29 | the new state is the begun state of the old one |
| Dashboard.Cockpit.Complete | components/Dashboard.tsx:33-34 | the new state is the completion of the old one with the result |
| Dashboard.Cockpit.GenerateInsight | components/Dashboard.tsx:28-35 | the gateway gets the fixed query and context; afterwards the insight panel shows and the caption is idle |

## Left out

- The remote model and its SDK (`GoogleGenAI`, `generateContent`): a foreign network library, modelled only by the parameter `remote` and its two outcomes.
- `JSON.parse` and `JSON.stringify`: foreign parsing. They are the parameters `parse` and `stringify`; only the replace-and-slice step after `stringify` is modelled.
- Reading `process.env.API_KEY`: environment I/O. It is the parameter of `InitClient`.
- The `setTimeout` delays before mock results, and the console warnings and errors: timing and logging change no returned value.
- Concurrency: stale responses overwriting newer ones. The handlers are modelled as one `Begin` followed by its own `Complete`. The dashboard card and the hub buttons stay clickable while a request is pending, and the model does not capture the interleavings this allows.
- AcademicHub.Hub.HandleSummarize: the handler has no `try`, so a rejected gateway promise would leave `loadingSummary` true. The gateway never rejects, so the model has no rejection path for this handler.
- Dashboard.Cockpit.GenerateInsight: the handler has no `try` either (components/Dashboard.tsx:28-35), so a rejection would leave `loadingInsight` true. The gateway never rejects, so the model has no rejection path for this handler.
- TripPlanner.Planner.HandleGenerate: its `catch` branch is reachable only through `Complete(Rejected)`, since the modelled gateway never rejects.
- TripPlanner.Excerpt: lengths and `slice` count Unicode code points, not UTF-16 code units. This differs from JavaScript only for characters outside the Basic Multilingual Plane.
- JsValues.DecimalText: renders integers only. The source's `days` is a double, and the way a template literal renders large, fractional or exponent-form numbers is not modelled.
- JsValues.Get: property lookup on non-null primitives and on arrays yields `undefined`, which holds for the keys the views read but not for prototype properties in general. Lookup on `null` throws in JavaScript; the views read plan fields only under `plan && ...` (components/TripPlanner.tsx:142), so `FieldOr`, `GearShown`, `TipsShown` and `DayCards` require a truthy plan.
- TripPlanner.Sections: React renders a falsy number plan such as `0` (from `JSON.parse("0")`) as the text `0` beside the placeholder; the model only selects which blocks render, not that stray text.
- TripPlanner.FieldOr: a gear or tips value of `true` renders as nothing, and an object-valued `gear`, `tips` or `summary` makes React throw while rendering; the model treats any truthy value as shown. Only the itinerary's `TypeError` is modelled, in `DayCards`.
- The rendering of the plan summary, paper cards, charts and styling: presentational only.
- `components/MapSystem.tsx`, `components/CareerCenter.tsx`, `components/Header.tsx`, `components/Footer.tsx` and `App.tsx`: static catalogues, navigation and charts with no gateway interaction. These files are not part of this model.
