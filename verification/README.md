# Learning roadmap app: verified model of its core rules

This project models in Dafny the deterministic core of a Next.js learning
app. The app asks an AI model for a course roadmap, draws it as a
zig-zag graph of modules and lessons, and offers a tutor chat. The model covers:

- **Roadmap graph layout** (`Layout`). `calculateNodePositions` places module
  `i` at `y = 120 + 250 i` with a ±80 zig-zag. The lessons that fit before
  the next module's slot follow it, each 60 lower with a ±30 zig-zag. Every
  node carries a running `order`. The method mirrors the source's nested
  loops. It is proved equal to a recursive reference layout, and the
  placement, count and order facts are proved about that layout.
- **Connector polylines** (`Connectors`). This is the rule that turns the
  ordered node list into dashed paths, one per module node.
- **Progress percentage** (`Progress`). `Math.round(100 c / t)`, or 0 without
  lessons, is computed in integers as `(200 c + t) / (2 t)`. It is proved
  equal to the real-number `Math.round`.
- **Saved-roadmap lists** (`SavedRoadmaps`). This covers the merge by course
  name on load and the unconditional append after onboarding.
- **Detail selection** (`Selection`). The module and lesson click handlers
  and the close handler.
- **Roadmap context** (`RoadmapContext`). The start-up roadmap choice, the
  default roadmap and `updateProgress`.
- **Roadmap page** (`RoadmapPage`). The mount effect: show the first saved
  roadmap, reuse a saved roadmap that matches the query, or generate one.
  After generation the page deduplicates by `id`. Rendering follows a fixed
  precedence.
- **Onboarding form** (`OnboardingForm`). The three-step machine and its
  Next/Back/Submit guards.
- **Chat endpoint** (`ChatRoute`). It validates the messages, normalises
  their roles and puts the system prompt in front.
- **Chat page** (`LearningInterface`). The message-list transition of
  `handleSendMessage`.
- **Generation endpoint** (`GenerateRoute`). It checks the required fields
  and assembles the prompt with its conditional lines.

`Common` holds `Option`, `Result`, JavaScript truthiness of an optional
string, and substring containment. `RoadmapModel` holds the roadmap
records, the default roadmap, and the shapes a stored roadmap list can
take.

The network, the language model and the browser storage become parameters:

- what `localStorage` holds is a `StoredValue`: missing, unparsable, or a
  parsed list;
- what a `fetch` or the model returns is an explicit argument;
- `JSON.parse` of the model's reply is a function parameter;
- clock readings are string parameters.

Two facts span files.

- The roadmap page never sends `ageGroup` to the generation endpoint.
  That endpoint requires it, so every generation request the page makes is
  answered 400 and the page ends on its error message
  (`RoadmapPage.GenerationAlwaysRejected`).
- The page's id check uses `===` on possibly absent ids. A generated roadmap
  without an id is therefore never saved once any saved roadmap lacks an id
  (`RoadmapPage.IdlessRoadmapNotSaved`).

JavaScript equality is modelled as follows:

- A roadmap field that is absent is `undefined`; a query parameter that is
  missing is `null`.
- Between a roadmap field and a query parameter, `===` holds only when both
  are present and equal.
- Between two roadmap fields, two absent values are equal.

## Model

| member | source | states |
|---|---|---|
| Layout.CenterX | src/components/roadmap/roadmap-display.tsx:109-111 | Column `index` of `count` sharing width `w` is centred at `w (2 index + 1) / (2 count)`. |
| Layout.LessonFitsIffAmongFirstThree | src/components/roadmap/roadmap-display.tsx:132-140 | The bound for a module's lessons is the next module's slot, including for the last module. A lesson passes the space test exactly when its index is below 3. |
| Layout.CalculateNodePositions | src/components/roadmap/roadmap-display.tsx:108-152 | For roadmap `roadmapIndex` of `count` in a container `width` wide, the nested loops produce exactly the reference layout around that column's centre: each module's node followed by the nodes of its lessons that fit. Every node's `order` is its position. |
| Layout.PlaceLessons | src/components/roadmap/roadmap-display.tsx:137-147 | Walking all lessons of a module with the space test appends the first `min(#lessons, 3)` lesson nodes. They are numbered on from the list's length. |
| Layout.OrdersAreIndices | src/components/roadmap/roadmap-display.tsx:118-148 | Every node's `order` equals its position in the list, so the orders are exactly `0..n-1`. |
| Layout.SortedByOrder | src/components/roadmap/roadmap-display.tsx:150-151 | The layout is strictly increasing in `order`, so the final sort leaves it unchanged. |
| Layout.ModulePlacement | src/components/roadmap/roadmap-display.tsx:112-128 | Module `i`'s node carries module `i` and its running order. It sits at `y = 120 + 250 i`, and its `x` is the centre for `i = 0`, centre − 80 for even `i`, and centre + 80 for odd `i`. |
| Layout.LessonPlacement | src/components/roadmap/roadmap-display.tsx:130-147 | A module's block holds `min(#lessons, 3)` lessons. Lesson `k < 3` comes right after its module at `y = moduleY + 80 + 60 k`, with `x` 30 left for even `k` and 30 right for odd `k`, inside the module's slot. |
| Layout.LayoutCount | src/components/roadmap/roadmap-display.tsx:121-148 | The layout has `#modules + Σ min(#lessons, 3)` nodes, at most four per module. |
| Layout.ModulesPrecede | src/components/roadmap/roadmap-display.tsx:121-148 | A module and its shown lessons come before every later module. |
| Connectors.ConnectorPaths | src/components/roadmap/roadmap-display.tsx:231-234 | Nothing is drawn for at most one node; otherwise there is one entry per module node. |
| Connectors.LessonsBetweenSound | src/components/roadmap/roadmap-display.tsx:241-245 | The between-filter keeps only lesson nodes whose order lies strictly between the two bounds. |
| Connectors.ConnectorsJoinConsecutiveModules | src/components/roadmap/roadmap-display.tsx:236-278 | For any node list, a non-last module's polyline starts at it and ends at the next module node. It passes only through lessons ordered strictly between the two. |
| Connectors.ModuleNodesOfLayout | src/components/roadmap/roadmap-display.tsx:234 | The module nodes of the layout are the modules' nodes, in module order. |
| Connectors.ConnectorCount | src/components/roadmap/roadmap-display.tsx:231-234 | On the layout, no path is drawn for at most one node; otherwise there is exactly one entry per module. |
| Connectors.LessonsBetweenModules | src/components/roadmap/roadmap-display.tsx:240-245 | On the layout, the lessons between module `i` and module `i + 1` are exactly module `i`'s shown lessons. |
| Connectors.ConnectorOfModule | src/components/roadmap/roadmap-display.tsx:236-278 | On the layout, module `i`'s path is module `i`, its shown lessons, then module `i + 1`. This holds with or without lessons in between. |
| Connectors.LessonsAfterLastModule | src/components/roadmap/roadmap-display.tsx:280-284 | On the layout, the lessons after the last module are exactly its shown lessons. |
| Connectors.ConnectorOfLastModule | src/components/roadmap/roadmap-display.tsx:279-303 | The last module's path runs through its shown lessons. It is absent when the module has no lessons. |
| Progress.CompletedAtMostTotal | src/components/roadmap/roadmap-display.tsx:72-82 | The completed-lesson count never exceeds the lesson count, because completed lessons are a filter of all lessons. |
| Progress.RoundedPercent | src/components/roadmap/roadmap-display.tsx:84-86 | The integer formula is 0 without lessons. Otherwise it equals `Math.round((c / t) * 100)` computed over the reals and never exceeds 100. No lesson completed gives 0; every lesson completed gives 100. |
| Progress.ProgressPercentage | src/components/roadmap/roadmap-display.tsx:72-86 | A roadmap's progress lies in `0..100`. It is 0 without lessons and the rounded completed percentage otherwise. It is 0 when nothing is completed and 100 when everything is. |
| Selection.HandleModuleSelect | src/components/roadmap/roadmap-display.tsx:155-158 | Clicking a module selects it unless it was already selected, in which case it is deselected. The lesson selection is always cleared. |
| Selection.HandleLessonSelect | src/components/roadmap/roadmap-display.tsx:161-164 | Clicking a lesson selects it unless it was already selected, in which case it is deselected. The module selection is always cleared. |
| Selection.HandleCloseDetails | src/components/roadmap/roadmap-display.tsx:167-170 | Closing leaves neither a module nor a lesson selected. |
| Selection.SelectionStaysExclusive | src/components/roadmap/roadmap-display.tsx:155-170 | Along any sequence of clicks, a module and a lesson are never selected at once. |
| Selection.ReselectClears | src/components/roadmap/roadmap-display.tsx:156-163 | Clicking the selected module or lesson again clears the selection. |
| Selection.DoubleClickRestores | src/components/roadmap/roadmap-display.tsx:155-164 | Clicking the same module, or the same lesson, twice from a cleared panel ends with a cleared panel. |
| SavedRoadmaps.SomeCourseNamed | src/components/roadmap/roadmap-display.tsx:50-52 | The `some` scan is true exactly when some saved roadmap has the course name. |
| SavedRoadmaps.LoadSavedRoadmaps | src/components/roadmap/roadmap-display.tsx:44-66 | If the course is already saved, the stored list is shown unchanged and nothing is written. Otherwise the current roadmap is appended after the saved ones, then shown and written. A missing item is the empty list; an unparsable item shows the current roadmap alone. The current course is always shown. |
| SavedRoadmaps.LoadIsIdempotent | src/components/roadmap/roadmap-display.tsx:44-66 | Loading the list a previous load showed changes nothing and writes nothing. |
| SavedRoadmaps.LoadNeverDuplicates | src/components/roadmap/roadmap-display.tsx:50-61 | After loading, the current course appears as often as before, or once if it was absent. |
| SavedRoadmaps.AddNewRoadmap | src/components/roadmap/roadmap-display.tsx:178-185 | Adding appends: the old list is a prefix, the new roadmap is last, and the length grows by one. The list shown is also the list written to storage. |
| SavedRoadmaps.AddAlwaysCounts | src/components/roadmap/roadmap-display.tsx:178-181 | Adding does not check course names: the new course's count always grows by one. |
| SavedRoadmaps.AddThenLoadIsStable | src/components/roadmap/roadmap-display.tsx:178-185 | A roadmap just added is found by the next load, which then shows the list as is and writes nothing. |
| RoadmapContext.InitialRoadmap | src/context/roadmap-context.tsx:80-99 | Start-up uses the first saved roadmap when storage parses to a non-empty list. It uses the default roadmap when storage is missing, unparsable or an empty list. |
| RoadmapContext.UpdateProgress | src/context/roadmap-context.tsx:101-125 | Without a roadmap nothing happens. Otherwise only `progress` changes, to a value in `0..100`. It is 0 when there are no lessons, and otherwise `Math.round` of 100 times the completed share, taken over the reals. |
| RoadmapContext.UpdateProgressIdempotent | src/context/roadmap-context.tsx:101-125 | Updating the progress twice is the same as updating it once. |
| RoadmapContext.DefaultRoadmapAtZero | src/context/roadmap-context.tsx:39-73 | The default roadmap has one module with three uncompleted lessons. Its computed progress is 0, the progress it already declares. |
| RoadmapPage.FindMatching | src/app/roadmap/page.tsx:44-50 | `find` returns the first saved roadmap whose subject, level and age group equal the query's. It returns none when no saved roadmap matches. |
| RoadmapPage.ChooseSource | src/app/roadmap/page.tsx:18-110 | An unparsable stored list makes the effect throw. With saved roadmaps and no `subject` parameter, the first saved roadmap is shown. Otherwise the first saved roadmap matching the query is reused. When none matches, generation runs for the `id` parameter, or for `""` when it is missing. |
| RoadmapPage.RepeatedCheckIsDead | src/app/roadmap/page.tsx:30-42 | The repeated saved-roadmaps check never changes the decision. |
| RoadmapPage.SomeIdEquals | src/app/roadmap/page.tsx:93-96 | The id scan is true exactly when some saved roadmap has the same, possibly absent, id. |
| RoadmapPage.RunGeneration | src/app/roadmap/page.tsx:60-109 | Loading always ends. A failed onboarding fetch or generation response sets the error and nothing else. Otherwise the new roadmap is shown. It is appended to storage exactly when no saved roadmap has its id. |
| RoadmapPage.MountEffect | src/app/roadmap/page.tsx:18-111 | The effect throws exactly on an unparsable stored list and otherwise ends loading. A first-saved or reused roadmap is shown without an error and nothing is written. A generation settles exactly as `RunGeneration` on the saved list. Storage is written only after a generation, with the shown roadmap appended to the saved list. |
| RoadmapPage.SavedWithoutSubjectSkipsGeneration | src/app/roadmap/page.tsx:30-35 | With saved roadmaps and no `subject` parameter, the first saved roadmap is shown, nothing is generated and nothing is written. |
| RoadmapPage.PageShowsContextRoadmap | src/app/roadmap/page.tsx:30-34 | With saved roadmaps and no `subject` parameter, the page shows the roadmap the shared context starts with (the first saved one), writes nothing and shows no error. |
| RoadmapPage.GenerationAlwaysRejected | src/app/roadmap/page.tsx:71-87 | The generation request never carries `ageGroup`. The endpoint answers 400 without calling the model, and the page ends on its error message with nothing saved. |
| RoadmapPage.IdlessRoadmapNotSaved | src/app/roadmap/page.tsx:93-102 | A generated roadmap without an id is not saved when some saved roadmap also lacks an id. |
| RoadmapPage.Render | src/app/roadmap/page.tsx:118-174 | The page renders loading first, then a non-empty error, then the roadmap, then the fallback. Each view shows the state's own error or roadmap. |
| RoadmapPage.LoadingOnlyUntilSettled | src/app/roadmap/page.tsx:106-129 | The page starts in the loading view and never shows it again once the effect has settled. |
| OnboardingForm.UpdateFormData | src/components/onboarding/onboarding-form.tsx:37-42 | Only the named field takes the new value; the other two are unchanged. |
| OnboardingForm.HandleNext | src/components/onboarding/onboarding-form.tsx:20-22 | Next moves exactly one step forward and keeps the answers. |
| OnboardingForm.HandleBack | src/components/onboarding/onboarding-form.tsx:24-26 | Back moves one step back but never below step 1, and keeps the answers. |
| OnboardingForm.ChoicesAreNonEmpty | src/components/onboarding/onboarding-form.tsx:59-124 | Every offered subject, level and activity is non-empty, so a choice can never clear a guard. |
| OnboardingForm.OfferedActionKeepsInvariant | src/components/onboarding/onboarding-form.tsx:129-150 | Every shown, enabled button and every choice rendered on the current step keeps the form reachable: the step stays in `1..3`, step 2 or later has a subject, and step 3 has a level. |
| OnboardingForm.ReachableAlongActions | src/components/onboarding/onboarding-form.tsx:129-150 | Reachability survives any sequence of offered actions. |
| OnboardingForm.StepStaysInRange | src/components/onboarding/onboarding-form.tsx:13-26 | From the initial form, the step stays in `1..3` whatever is clicked. Submit is enabled only once subject, level and activity are all chosen. |
| OnboardingForm.CompletingTheForm | src/components/onboarding/onboarding-form.tsx:13-150 | Choosing any offered subject, level and activity, with Next between them, reaches step 3 holding exactly those answers, with Submit enabled. |
| ChatRoute.RoleOf | src/app/api/chat/route.tsx:37 | A truthy role is kept. Otherwise the role is `user` exactly when the sender is `user`, and `assistant` otherwise. It is never empty. |
| ChatRoute.Normalize | src/app/api/chat/route.tsx:36-39 | Normalisation keeps the length, the order and every message's content, and gives each its role. |
| ChatRoute.ChatPost | src/app/api/chat/route.tsx:14-69 | A body that cannot be read gives a 500 with its details. A missing or non-array `messages` gives a 400 with the fixed message. Otherwise the model receives the system prompt followed by exactly the normalised messages. A completed call replies with the model's content, or with the empty string when the content is null. A call that throws gives a 500 with the upstream message and the thrown error's message, or `Unknown error`. |
| ChatRoute.NormalizeIdempotent | src/app/api/chat/route.tsx:36-39 | Normalising already-normalised messages changes nothing. |
| ChatRoute.NormalizedRoles | src/app/api/chat/route.tsx:36-39 | A normalised role is `user`, `assistant`, or the message's own truthy role. |
| LearningInterface.TrimEmptyIffBlank | src/components/learning/learning-interface.tsx:28 | `trim()` yields the empty string exactly when the input is all whitespace. |
| LearningInterface.SendMessage | src/components/learning/learning-interface.tsx:25-81 | Blank input changes nothing and sends nothing. Otherwise the user message (id `n + 1`, role `user`) is posted after the prior messages, and the input is cleared. Exactly one tutor message (id `n + 2`, role `assistant`) follows. |
| LearningInterface.ReplyTextCases | src/components/learning/learning-interface.tsx:55-79 | Without an error the tutor says the endpoint's message, or the fallback text when it is missing or empty. An error reply mentions the error and, when present, its details. A thrown error mentions its message. |
| LearningInterface.SendKeepsInvariants | src/components/learning/learning-interface.tsx:31-67 | Sending keeps ids sequential from 1 and roles matching senders, in both the new list and the request. |
| LearningInterface.InitialStateSatisfiesInvariants | src/components/learning/learning-interface.tsx:9-18 | The greeting alone satisfies both invariants. |
| LearningInterface.PostedConversationKeepsRoles | src/components/learning/learning-interface.tsx:44-48 | What the page posts reaches the model in the same order, with the same contents. Each message keeps the role its sender implies. |
| GenerateRoute.GeneratePost | src/app/roadmap/generate/route.ts:9-86 | An unreadable body gives a 500 with the thrown error's message, or `Failed to generate roadmap` for a non-`Error`. A missing or empty subject, level or age group gives a 400 with the fixed message, and the model is not called. Otherwise the model gets the assembled prompt and the response is the reply's outcome. A reply that parses returns the parsed roadmap. A roadmap is returned only when the model replied and its content (or `"{}"`) parsed to it. |
| GenerateRoute.ReplyResponse | src/app/roadmap/generate/route.ts:74-85 | Once the model is called, the outcome is a roadmap exactly when it replied and the reply parsed. A throwing model call or a failing parse gives a 500 with the thrown error's message, or `Failed to generate roadmap` for a non-`Error`. |
| GenerateRoute.PromptParts | src/app/roadmap/generate/route.ts:19-53 | The prompt has 35 lines. The first line is empty and the second is the request line. Then come the preference lines, the fixed format block and the closing instructions. |
| GenerateRoute.PromptHeadNamesFields | src/app/roadmap/generate/route.ts:20 | The request line contains the subject, the level and the age group. |
| GenerateRoute.PromptConditionalLines | src/app/roadmap/generate/route.ts:22-52 | Both learning-method sentences appear exactly when the learning method is truthy. Both interests sentences appear exactly when the interests are truthy. Otherwise those lines are bare indentation. |

## Left out

- Rendering: JSX, CSS classes, icons and the progress bar. The window resize listener is also left out; the container width is a real-valued parameter of `Layout.CalculateNodePositions`.
- Floating point: node `x` coordinates are reals. The progress formula is proved against `Math.round` over the reals, not IEEE doubles. The two can differ: with 23 of 40 lessons completed, `23 / 40 * 100` is `57.49999999999999` in doubles, so the source shows 57 where the model gives 58.
- Stored `null` fields: a stored roadmap field holding JSON `null` is not distinguished from an absent one. In the source, `null === null`, so a stored `"level": null` matches a missing `level` parameter; the model treats it as absent, which never matches.
- Storage: `localStorage` and `JSON.parse`/`JSON.stringify` are modelled as a `StoredValue`: missing, unparsable, or a parsed list. A parsed value that is not a list is not modelled. A failing `setItem` is not modelled either.
- The network and the language model: the OpenAI calls, `fetch`, and the E2B sandbox and interactive-app routes are left out. Their results are parameters.
- The onboarding store (`src/app/api/onboarding/route.ts`) is not part of this model. It holds only randomness and a map.
- Declaration-only, wrapper and layout files are not part of this model: the schemas and types, the interactive panel, the exercise generator, the chat panel, the sidebar, and the layout pages.
- Selection.HandleModuleSelect: `===` on objects is reference equality, modelled as value equality of the module records. Two distinct but equal modules are treated as the same.
- Selection.HandleLessonSelect: the same holds for lessons.
- OnboardingForm.UpdateFormData: the source accepts any field name. The model restricts it to the three fields the form uses.
- LearningInterface.SendMessage: React batches the state updates and the fetch is asynchronous. The model takes one send to completion before the next, so overlapping sends are not modelled.
- ChatRoute.ChatPost: a message element that is `null` makes `map` throw. The model's messages are always records, so that path is not modelled.
- GenerateRoute.GeneratePost: the prompt is modelled as its lines, without the single string the template literal joins them into.
- `handleLearnNewSkill` is left out because it only navigates to onboarding.
- `handleSubmit` only logs and navigates, so submitting leaves the form as it is.
