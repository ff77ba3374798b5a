# CampusCon portal logic, modelled in Dafny

CampusCon is a browser portal for campus events. A student picks a university from a fixed
catalog, types a student id, and reaches a dashboard. The dashboard lists upcoming and past
events from a seed list. It can ask a generative-AI service, once, to predict further
events. It opens a detail modal whose Reviews tab asks the same service for a sentiment
summary. This project models the logic layer behind that UI:

- the record shapes and enumerations (`types.dfy`);
- the university catalog and the seed events (`constants.dfy`);
- the three-screen flow of the root component (`app.dfy`);
- the student-id form (`login.dfy`);
- the catalog search (`search.dfy`);
- the dashboard's state and its Upcoming/Past views (`dashboard.dfy`);
- the mapping of predictions to events and the summary fallbacks of the AI service (`gemini.dfy`);
- the detail modal's tabs, extras, stars and summary fetch (`event_modal.dfy`);
- the event card's decorations (`event_card.dfy`).

`wrappers.dfy` holds `Option` and `Call` (a foreign call that either throws or returns a
value). `seqs.dfy` holds JavaScript's `filter`, `join` (with the `split` that undoes it) and
decimal rendering of numbers, with their lemmas.

Components whose state the source updates step by step are classes. `App`, `StudentLogin`,
`UniversitySelector`, `Dashboard` and `EventModal` each have their cells as fields and one
method per handler. Each method states the complete new state. Where a component has an
invariant, a `Valid()` predicate states it and every method keeps it. The decisions the
components render from are pure functions, with lemmas about them.

The AI service is an input, not a call. `hasClient` says whether an API key was configured.
A `Call<Option<string>>` is the outcome of one model request: thrown, or a reply text that
may be absent. A function parameter `parse` stands for everything done to a non-empty reply
text before the mapping. That is `JSON.parse` plus the reading of the parsed array by
`predictions.map`. It either throws or yields typed prediction records. Each `await` splits its
handler into two steps: `BeginPrediction`/`CompletePrediction` on the dashboard, and
`SelectTab`/`ReceiveSummary` in the modal.

## Behaviour worth noting

- The student id is not trimmed before the length check; spaces count. The length is
  JavaScript's `length`, in UTF-16 code units, so a character outside the Basic Multilingual
  Plane counts twice.
- An empty search term matches every university. The results panel is simply not rendered
  for it; the filter does not return an empty list.
- The root view tests `!studentId`, so an empty string counts as "no id". `ScreenOf` uses that
  truthiness. `SessionScreens` shows it never matters in a real session, because the login
  form only hands over non-empty ids (at least three UTF-16 code units).

## Model

| member | source | states |
|---|---|---|
| `Types.CategoriesClosed` | types.ts:1-8 | The category enumeration has exactly six distinct members and every category is one of them |
| `Types.CategoryValuesDistinct` | types.ts:1-8 | Different categories stand for different strings |
| `Types.StatusValuesDistinct` | types.ts:10-14 | The status list holds three members, every status among them, and their string values UPCOMING, PAST and ASSUMED are pairwise distinct |
| `Constants.UniversityCatalog` | constants.ts:3-32 | The catalog has four universities whose ids are `uni_1` to `uni_4`, pairwise distinct |
| `Constants.SeedLayout` | constants.ts:39-144 | Six seed events with distinct ids `evt_u1`..`evt_u3` (all UPCOMING), then `evt_p1`..`evt_p3` (all PAST) |
| `Constants.SeedNotPredicted` | constants.ts:39-144 | Every seed event has `isAiPredicted` present and false, and none is ASSUMED |
| `Constants.SeedRegistrationLinks` | constants.ts:41-79 | A seed event has a registration link exactly when it is UPCOMING |
| `Constants.SeedHistory` | constants.ts:82-143 | Exactly the PAST seed events have galleries and reviews, with 4/3, 2/2 and 2/1 items |
| `Constants.SeedReviewsWellFormed` | constants.ts:98-141 | The six seed reviews have ratings in 1..5 and pairwise distinct ids |
| `AppFlow.ScreenOf` | App.tsx:33-55 | The selector shows iff no university is set; the login form iff a university is set and the id is falsy; the dashboard iff both are set and the id is truthy |
| `AppFlow.InitialScreen` | App.tsx:9-10 | Both cells start null, so the selector is shown and the flow invariant holds |
| `AppFlow.StepPreservesConsistency` | App.tsx:15-30 | A handler invoked from the screen that exposes it keeps "id set implies university set, and the id was accepted" |
| `AppFlow.SessionConsistent` | App.tsx:15-55 | In every session from the initial state, `studentId` set implies `university` set |
| `AppFlow.SessionScreens` | App.tsx:33-45 | In a session the login and dashboard screens are decided by the nullness of the id alone |
| `AppFlow.LogoutResets` | App.tsx:23-26 | Logout clears both cells from any state and returns to the selector |
| `AppFlow.App.constructor` | App.tsx:9-10 | The component starts with both cells null, showing the selector, with the flow invariant holding |
| `AppFlow.App.HandleUniSelect` | App.tsx:15-17 | From the selector: sets the university to the one chosen, leaves the id unchanged, keeps the flow invariant |
| `AppFlow.App.HandleLogin` | App.tsx:19-21 | From the login form, with an id it accepted: stores the id verbatim, leaves the university unchanged, keeps the flow invariant |
| `AppFlow.App.HandleLogout` | App.tsx:23-26 | From the dashboard: clears both cells, keeping the flow invariant |
| `AppFlow.App.HandleBackToSelector` | App.tsx:28-30 | From the login form: clears only the university (no id is held there), keeping the flow invariant |
| `LoginForm.Validate` | components/StudentLogin.tsx:17-22 | A submit goes through exactly when the id is at least three UTF-16 code units long, and then hands over the typed string unchanged |
| `LoginForm.Utf16LengthOfBmp` | components/StudentLogin.tsx:17 | For Basic Multilingual Plane text, `length` is the number of characters |
| `LoginForm.SpacesCount` | components/StudentLogin.tsx:17 | Nothing is trimmed: three spaces pass, a space and a letter do not |
| `LoginForm.SurrogatePairsCount` | components/StudentLogin.tsx:17-22 | Two astral-plane characters (four code units) pass; one does not |
| `LoginForm.StudentLogin.constructor` | components/StudentLogin.tsx:12-13 | The form starts with an empty id and no error shown |
| `LoginForm.StudentLogin.Edit` | components/StudentLogin.tsx:46-49 | Every edit replaces the id with the new value and clears the error |
| `LoginForm.StudentLogin.Submit` | components/StudentLogin.tsx:15-23 | A short id sets the fixed error message and hands nothing over; a long enough id is handed over verbatim; the id is never changed; an error is only ever shown for an id the form rejects |
| `Search.IncludesIff` | components/UniversitySelector.tsx:14 | The substring scan holds exactly when the needle occurs at some position of the name |
| `Search.LowerIdempotent` | components/UniversitySelector.tsx:14 | Lower-casing a lower-cased string changes nothing |
| `Search.LowerOfUpper` | components/UniversitySelector.tsx:14 | Upper-casing and then lower-casing is the same as lower-casing |
| `Search.FilterUniversitiesSpec` | components/UniversitySelector.tsx:13-15 | The result is a subsequence of the catalog in catalog order, holding exactly the universities whose lower-cased name contains the lower-cased term |
| `Search.SameLowerSameResults` | components/UniversitySelector.tsx:13-15 | Two terms with the same lower-cased form select the same universities in the same order |
| `Search.CaseInsensitive` | components/UniversitySelector.tsx:14 | A term, its lower-case form and its upper-case form give the same result |
| `Search.EmptyTermMatchesAll` | components/UniversitySelector.tsx:13-15 | The empty term matches the whole catalog, in order |
| `Search.NoResultsIff` | components/UniversitySelector.tsx:45-66 | "No universities found." shows iff the term is non-empty and no catalog name contains it |
| `Search.EmptyTermHidesResults` | components/UniversitySelector.tsx:45 | For the empty term nothing is shown below the box, although every university matches |
| `Search.UniversitySelector.constructor` | components/UniversitySelector.tsx:11 | The search term starts empty and the panel is hidden |
| `Search.UniversitySelector.SetSearchTerm` | components/UniversitySelector.tsx:41 | The change handler replaces the term |
| `Search.UniversitySelector.Choose` | components/UniversitySelector.tsx:48-51 | Clicking a result passes that exact catalog record, which matches the term |
| `GeminiService.ToAssumedEvents` | services/geminiService.ts:52-63 | The mapping keeps length and order; the i-th event has id `ai_pred_i` and the image seeded with i, status ASSUMED, `isAiPredicted` true, the fixed location and organizer, the i-th prediction's title, description, date and category, and no gallery, video, reviews or registration link |
| `GeminiService.PredictedIdShape` | services/geminiService.ts:53 | Every generated id starts with `ai_pred_` |
| `GeminiService.PredictedIdInjective` | services/geminiService.ts:53 | Different indexes give different ids |
| `GeminiService.AssumedIdsDistinct` | services/geminiService.ts:52-53 | Ids within one batch are pairwise distinct |
| `GeminiService.GenerateAssumedEvents` | services/geminiService.ts:13-68 | No client, a thrown request, an absent or empty reply, or a failed parse yields the empty list; otherwise the parsed predictions, mapped |
| `GeminiService.GeneratedBatchWellFormed` | services/geminiService.ts:46-63 | Whatever the service does, a batch holds only ASSUMED, predicted events with distinct ids `ai_pred_i` |
| `GeminiService.ReviewTextRecoversComments` | services/geminiService.ts:75 | The text sent for summarising is the comments in order joined by line breaks: splitting it gives them back when none holds a line break |
| `GeminiService.SummarizeReviews` | services/geminiService.ts:71-88 | No client or no reviews gives "No AI summary available."; a thrown request gives "AI Summary unavailable."; an absent or empty reply gives "Could not generate summary."; otherwise the reply verbatim; never empty |
| `DashboardView.ViewsPartition` | components/Dashboard.tsx:22-23 | Both views keep the list's order, are disjoint, and together hold every event as often as the list does |
| `DashboardView.ViewsAfterAppend` | components/Dashboard.tsx:22-30 | Appending a batch of ASSUMED events extends the Upcoming view by exactly that batch and leaves the Past view unchanged |
| `DashboardView.SeedViews` | components/Dashboard.tsx:18-23 | On the seed list, Upcoming shows the first three events and Past the last three |
| `DashboardView.WorkingIdsDistinct` | components/Dashboard.tsx:28-29 | A generated batch appended to the seed list keeps every id in the working list distinct |
| `DashboardView.Dashboard.constructor` | components/Dashboard.tsx:16-20 | The dashboard starts on Upcoming with the seed list, nothing open, neither predicting nor predicted |
| `DashboardView.Dashboard.SetTab` | components/Dashboard.tsx:70-78 | Switching tab changes only the tab |
| `DashboardView.Dashboard.SelectEvent` | components/Dashboard.tsx:104-118 | Clicking a rendered card opens it and changes nothing else; the opened event is ASSUMED exactly when it is flagged as predicted |
| `DashboardView.Dashboard.CloseModal` | components/Dashboard.tsx:128-133 | Closing the modal clears the selection and changes nothing else |
| `DashboardView.Dashboard.BeginPrediction` | components/Dashboard.tsx:25-27 | Only an enabled predict button starts a prediction; it raises `predicting`, which disables the button |
| `DashboardView.Dashboard.CompletePrediction` | components/Dashboard.tsx:27-33 | The batch is appended to the seed list, which stays an unchanged prefix; `predicting` drops and `hasPredicted` rises even for an empty batch, hiding the button for good; ids stay distinct |
| `DashboardView.OpenEventExtras` | components/EventModal.tsx:97-124 | For the event the dashboard has open, status and predicted flag agree, so its info tab shows Register exactly when it is UPCOMING and the predicted notice exactly when it is ASSUMED |
| `EventDetail.EmptyStates` | components/EventModal.tsx:128-175 | Empty-state messages appear only for an absent field; a present but empty array shows neither items nor message; the summary block needs a non-empty review list |
| `EventDetail.InfoTabExtras` | components/EventModal.tsx:97-124 | Register and the predicted notice never appear together; Register shows for UPCOMING events and the notice for ASSUMED ones when status and the predicted flag agree |
| `EventDetail.StarsRule` | components/EventModal.tsx:168-170 | Five stars are drawn, star i is filled iff i < rating, and the number filled is the rating clamped to 0..5 |
| `EventDetail.NoFetchUnlessPast` | components/EventModal.tsx:17-21 | The summary effect never fires for an event that is not past |
| `EventDetail.EventModal.constructor` | components/EventModal.tsx:13-15 | The modal opens on the info tab with an empty summary, not loading |
| `EventDetail.EventModal.SelectTab` | components/EventModal.tsx:19-30 | A tab click sets the tab; a summary request goes out, raising the loading flag, exactly when the tab changed to Reviews on a past event with reviews; non-past events never leave the info tab |
| `EventDetail.EventModal.ReceiveSummary` | components/EventModal.tsx:22-27 | An arriving reply stores the service's summary text, which is never empty, and lowers the loading flag |
| `EventCardView.Decorate` | components/EventCard.tsx:11-67 | Badge and dashed border iff ASSUMED; greyscale image and "View Gallery & Reviews" iff PAST; "Details & Register" iff UPCOMING |
| `EventCardView.AffordancesExclusive` | components/EventCard.tsx:57-67 | The two calls-to-action never appear together; an ASSUMED card has neither, only its badge |
| `EventCardView.CardsPerTab` | components/EventCard.tsx:11-67 | No card in the Upcoming view offers the gallery or is greyed; every card in the Past view does both and is not badged |

## Left out

- Rendering: markup, styling classes, icons, the router wrapper, and how image URLs are drawn.
- The AI client: reading the API key from the environment, the prompt strings, the model
  request and `JSON.parse`. Their outcomes are parameters: `hasClient`, a `Call` result and a
  parse function.
- Async ordering is not modelled beyond the two-step split at each `await`. A late summary
  reply that arrives after another request is simply applied (last write wins). The captured
  `events` in the prediction handler is harmless here, because nothing else writes the list.
- `getRandomDate` (random and clock based, unused) and the historical-context prompt text.
- Lower-casing is ASCII-only; JavaScript's full Unicode case mapping is not modelled.
- Logging, and React's re-render and effect-dependency mechanics beyond "the summary effect
  re-runs when the tab changes".
- `GeminiService.GenerateAssumedEvents`: `parse` yields typed records. So a reply array
  whose entries lack `title`, `description` or `date` is not modelled; the source maps such
  entries to events with `undefined` fields. A non-array reply, on which `predictions.map`
  throws (caught and turned into the empty list), is folded into `parse` throwing.
- `GeminiService.Prediction`: `category` is typed as the category enumeration. The source
  casts the model's raw string without checking it, so an out-of-set string would reach the
  card unchanged.
- `Types.Review`: `rating` is an integer. A fractional rating, which the TypeScript number
  type allows, is not modelled.
- `EventDetail.EventModal`: the modal is tied to the one event it was opened on. React reusing
  the component for a different selection is not modelled, since the overlay must be closed
  before another card can be clicked.
