# nutriflow menu analysis, modelled in Dafny

nutriflow takes a photo of a restaurant menu and turns it into menu items. A
keyword heuristic scores each item for health, and the results are shown as
cards. This project models the parts of that pipeline that hold logic:

- the menu analysis endpoint (`analyze-menu.js`). It checks the request,
  then scores each item by healthy and unhealthy keywords. It picks a
  category, attaches dietary tags and allergy warnings, and keeps every
  field of the original item.
- the analysis run hook (`useMenuAnalysis.js`). It is a small state machine
  over `menuItems`, `isLoading`, `progress` and `error`. The fetch and file
  read outcomes are its inputs. It falls back to a fixed three-item sample
  list on any failure. Its "parser" is a constant list, and so is the model.
- the profile hook (`useUserProfile.js`). It holds one profile record whose
  list fields act as ordered sets under add-if-absent and remove-all. An
  update merges a patch into the record.
- the image optimiser hook (`useImageOptimizer.js`). It checks the MIME type,
  sets progress at fixed checkpoints, and returns the file with its metadata.
- two display components: the loading indicator's message bands, bar width
  and colour, and the result card's badge colour, score-bar colour,
  "Unknown" fallbacks and conditional sections.

Each hook is a class. Its fields are the hook's state fields, and its methods
change them step by step. Each method's postcondition ties the new state to a
specification function, and the lemmas prove properties of those functions.
The endpoint's scoring loops and warning loop are methods proved equal to
the functions. The display components are pure functions.

Modules: `Wrappers` (Option), `Sequences` (a shared ordering predicate),
`Text` (lower-casing, substring test, decimal rendering), `Palette` (colour families), `Menu` (records shared by every
part), `AnalyzeMenu`, `ScoringScenarios` (worked examples of the scorer),
`MenuAnalysis`, `UserProfile`, `ImageOptimizer`, `LoadingIndicator` and
`FoodAnalysisResult`.

## Model

| member | source | states |
|---|---|---|
| Menu.CategoryFor | nutriflow-final/src/pages/api/analyze-menu.js:63-65 | Healthiest exactly when the score is at least 70, Indulgent exactly when it is at most 30, Balanced exactly when it is strictly between |
| AnalyzeMenu.ItemText | nutriflow-final/src/pages/api/analyze-menu.js:40 | the searched text is the lower-cased name, one space and the lower-cased description (empty when missing), character for character, so no upper-case ASCII letter is left |
| AnalyzeMenu.HealthScore | nutriflow-final/src/pages/api/analyze-menu.js:43-61 | the keyword score of a text always lies in 0..100 |
| AnalyzeMenu.CountPresentBound | nutriflow-final/src/pages/api/analyze-menu.js:52-58 | a list of keywords contributes at most one step per keyword |
| AnalyzeMenu.CountPresentIsDistinctCount | nutriflow-final/src/pages/api/analyze-menu.js:52-58 | for a keyword list without duplicates, the number of score steps is the number of distinct keywords occurring in the text, so each keyword counts once however often it occurs |
| AnalyzeMenu.ScoreShape | nutriflow-final/src/pages/api/analyze-menu.js:43-61 | the score is 50 + 5 × (healthy keywords present) − 5 × (unhealthy keywords present), a multiple of 5 in 15..85, so the clamp never changes it |
| AnalyzeMenu.SampleScoreUnreachable | nutriflow-final/src/pages/api/analyze-menu.js:52-61 | no text scores 48, the score of the second fallback item of the analysis hook |
| AnalyzeMenu.ScoreText | nutriflow-final/src/pages/api/analyze-menu.js:43-61 | the two keyword loops followed by the clamp compute exactly the keyword score |
| AnalyzeMenu.DietaryTags | nutriflow-final/src/pages/api/analyze-menu.js:68-77 | never empty; High-Protein, Nutrient-Dense and Low-Carb each appear exactly when their rule fires, in rule order, and nothing else appears beside them; the list is ["Balanced"] exactly when no rule fires (the default of line 107) |
| AnalyzeMenu.Warnings | nutriflow-final/src/pages/api/analyze-menu.js:80-91 | the warning list is never empty; when some allergy of the profile triggers, it is exactly the list of allergy warnings (one per triggering entry, in profile order, by AllergyMatchesInOrder); a profile without an allergy list gets only the default entry |
| AnalyzeMenu.Triggers | nutriflow-final/src/pages/api/analyze-menu.js:83 | the "None" sentinel never triggers, and a triggering allergy is no longer than the text |
| AnalyzeMenu.AllergyMatches | nutriflow-final/src/pages/api/analyze-menu.js:82-86 | there are no more allergy warnings than allergies, and none of them is the default entry |
| AnalyzeMenu.AllergyMatchesExact | nutriflow-final/src/pages/api/analyze-menu.js:81-87 | a warning text is in the list exactly when some allergy other than "None" whose lower-case form occurs in the text yields it; there are no more warnings than allergies |
| AnalyzeMenu.AllergyMatchesInOrder | nutriflow-final/src/pages/api/analyze-menu.js:82-86 | the warnings of a list are those of its first part followed by those of the rest, and a single entry yields its own warning exactly when it triggers: one warning per triggering entry, in profile order |
| AnalyzeMenu.AllergyMatchesCount | nutriflow-final/src/pages/api/analyze-menu.js:82-86 | the number of warnings is the number of entries that trigger, counted with repetition |
| AnalyzeMenu.WarningsDefault | nutriflow-final/src/pages/api/analyze-menu.js:89-91 | the list is the single "No specific warnings for your profile" entry exactly when no allergy triggers |
| AnalyzeMenu.SentinelNeverWarns | nutriflow-final/src/pages/api/analyze-menu.js:81-83 | a missing allergy list and the list ["None"] both give only the default warning, whatever the text |
| AnalyzeMenu.CollectWarnings | nutriflow-final/src/pages/api/analyze-menu.js:80-91 | the loop over the allergies pushes exactly the warning list |
| AnalyzeMenu.Analysis | nutriflow-final/src/pages/api/analyze-menu.js:38-108 | an analysed item keeps the original item whole; its score is the keyword score of the item's text (in 0..100) and its category that score's category; its tags are the dietary tags of the text and its warnings the allergy warnings of the text for the request's allergies, both non-empty; its nutrition record, effect lists and modifications are the fixed placeholders |
| AnalyzeMenu.AnalyzeItem | nutriflow-final/src/pages/api/analyze-menu.js:38-108 | scoring one item step by step gives the analysed item |
| AnalyzeMenu.AnalyzeMenuItems | nutriflow-final/src/pages/api/analyze-menu.js:37-38 | one result per input item, in input order, each keeping its item and analysed against the request's allergies |
| AnalyzeMenu.Handle | nutriflow-final/src/pages/api/analyze-menu.js:3-29 | 405 exactly for a method other than POST; 400 exactly for a POST whose menuItems is missing, not an array or empty; otherwise 200 with the analysed items; each error status carries its message |
| ScoringScenarios.GrilledSaladScenario | nutriflow-final/src/pages/api/analyze-menu.js:40-77 | "Grilled Salad with Lean Chicken" scores 65, is Balanced, is tagged High-Protein then Nutrient-Dense and has no warning |
| ScoringScenarios.DeepFriedScenario | nutriflow-final/src/pages/api/analyze-menu.js:40-65 | "Deep Fried Bacon with Chocolate Sauce" scores 35, so it is Balanced rather than Indulgent |
| ScoringScenarios.PeanutScenario | nutriflow-final/src/pages/api/analyze-menu.js:80-85 | an allergy "Peanuts" against a description "Peanuts" gives the single warning "Contains Peanuts, which you are allergic to" |
| ScoringScenarios.PluralAllergyMissesSingular | nutriflow-final/src/pages/api/analyze-menu.js:83 | the allergy test is a literal substring test: an allergy "Peanuts" gives no warning for "Satay" with "Peanut sauce", while an allergy "Peanut" gives one |
| MenuAnalysis.ParseMenuItems | nutriflow-final/src/hooks/useMenuAnalysis.js:102-128 | the parsed list has three items with ids "1", "2", "3" in order |
| MenuAnalysis.ParseIgnoresText | nutriflow-final/src/hooks/useMenuAnalysis.js:102-105 | the parsed list is the same whatever the recognised text |
| MenuAnalysis.SampleItemsConsistent | nutriflow-final/src/hooks/useMenuAnalysis.js:131-235 | the three fallback items are the three parsed items in order, and each stored category (Balanced, Balanced, Healthiest for 45, 48, 78) is the one its score falls in |
| MenuAnalysis.AnalysisRequestAccepted | nutriflow-final/src/hooks/useMenuAnalysis.js:52-67 | the endpoint answers the request of a run with 200 and three results, one per parsed item in order, none with an allergy warning, since the profile's only allergy is "None" |
| MenuAnalysis.Run | nutriflow-final/src/hooks/useMenuAnalysis.js:20-88 | a run ends not loading and returns the list it stores; it succeeds exactly when the file is read and both replies are ok with a non-null JSON body; the error is set exactly when it fails, and then it is the failure message and the sample list is stored |
| MenuAnalysis.RunInvariants | nutriflow-final/src/hooks/useMenuAnalysis.js:20-88 | every run ends not loading, with progress at its last checkpoint; the checkpoints start at 0 and never decrease; the returned list is the stored list |
| MenuAnalysis.RunSuccess | nutriflow-final/src/hooks/useMenuAnalysis.js:22-81 | a run succeeds exactly when the file is read and both replies are ok with a non-null JSON body; it then passes 0, 20, 50, 90, 100, has no error and stores the results, or the sample list when the reply has none |
| MenuAnalysis.RunFailure | nutriflow-final/src/hooks/useMenuAnalysis.js:82-88 | a failed run stores and returns the sample list with the failure message, and keeps the checkpoints set before the step that threw: 0 for the file read, 20 for a failed text-recognition response, 50 for a `null` text-recognition body or a failed analysis response, 90 for a `null` analysis body |
| MenuAnalysis.MenuAnalyzer.constructor | nutriflow-final/src/hooks/useMenuAnalysis.js:9-12 | no items, not loading, progress 0, no error |
| MenuAnalysis.MenuAnalyzer.Begin | nutriflow-final/src/hooks/useMenuAnalysis.js:22-24 | a run starts loading with progress 0 and the error cleared |
| MenuAnalysis.MenuAnalyzer.Fail | nutriflow-final/src/hooks/useMenuAnalysis.js:82-88 | the failure path sets the error, stops loading, stores and returns the sample list, and leaves progress alone |
| MenuAnalysis.MenuAnalyzer.AnalyzeMenu | nutriflow-final/src/hooks/useMenuAnalysis.js:20-89 | the run, step by step, leaves the state and returns the list that the run function gives for the same step outcomes |
| UserProfile.AddIfAbsent | nutriflow-final/src/hooks/useUserProfile.js:34-41 | the value is present afterwards, the elements are the old ones plus the value, and the old list is kept as a prefix with at most one element added |
| UserProfile.RemoveAll | nutriflow-final/src/hooks/useUserProfile.js:48-53 | the value is absent afterwards, the elements are the old ones other than the value, and the list never grows |
| UserProfile.AddIfAbsentKeepsNoDuplicates | nutriflow-final/src/hooks/useUserProfile.js:34-41 | adding to a duplicate-free list keeps it duplicate-free, and the value is then present |
| UserProfile.AddIfAbsentShape | nutriflow-final/src/hooks/useUserProfile.js:34-41 | an absent value is appended at the end, a present one changes nothing, and adding twice is adding once |
| UserProfile.RemoveAllContents | nutriflow-final/src/hooks/useUserProfile.js:48-53 | removal drops every occurrence of the value and keeps every other value with its multiplicity |
| UserProfile.RemoveAllAppend | nutriflow-final/src/hooks/useUserProfile.js:48-53 | removal distributes over concatenation, so the rest keep their relative order |
| UserProfile.RemoveAllAbsent | nutriflow-final/src/hooks/useUserProfile.js:48-53 | removing an absent value changes nothing |
| UserProfile.RemoveAllIdempotent | nutriflow-final/src/hooks/useUserProfile.js:48-53 | after a removal the value is gone, and a second removal changes nothing |
| UserProfile.RemoveAllKeepsNoDuplicates | nutriflow-final/src/hooks/useUserProfile.js:48-53 | removal never introduces a duplicate |
| UserProfile.AddThenRemove | nutriflow-final/src/hooks/useUserProfile.js:34-53 | adding an absent value and then removing it restores the list |
| UserProfile.Merge | nutriflow-final/src/hooks/useUserProfile.js:22-27 | the empty patch changes nothing, and each of the five keys either keeps its old value or takes the patch's |
| UserProfile.MergeLaws | nutriflow-final/src/hooks/useUserProfile.js:22-27 | an update changes exactly the keys present in the patch: each of the five keys takes the patch's value when the patch has it and keeps its old value otherwise; the empty patch is the identity, the same patch twice is the patch once, and two updates are one update with the later keys winning |
| UserProfile.ProfileStore.constructor | nutriflow-final/src/hooks/useUserProfile.js:9-15 | the initial profile: "Balanced diet", two health goals, "Moderate", no allergies, no medical conditions |
| UserProfile.ProfileStore.UpdateProfile | nutriflow-final/src/hooks/useUserProfile.js:22-27 | the profile becomes the old one merged with the patch |
| UserProfile.ProfileStore.AddDietaryPreference | nutriflow-final/src/hooks/useUserProfile.js:34-41 | only the preferences change, by add-if-absent |
| UserProfile.ProfileStore.RemoveDietaryPreference | nutriflow-final/src/hooks/useUserProfile.js:48-53 | only the preferences change, by removing every occurrence |
| UserProfile.ProfileStore.AddHealthGoal | nutriflow-final/src/hooks/useUserProfile.js:60-67 | only the goals change, by add-if-absent |
| UserProfile.ProfileStore.RemoveHealthGoal | nutriflow-final/src/hooks/useUserProfile.js:74-79 | only the goals change, by removing every occurrence |
| UserProfile.ProfileStore.AddAllergy | nutriflow-final/src/hooks/useUserProfile.js:86-93 | only the allergies change, by add-if-absent |
| UserProfile.ProfileStore.RemoveAllergy | nutriflow-final/src/hooks/useUserProfile.js:100-105 | only the allergies change, by removing every occurrence |
| UserProfile.ProfileStore.SetActivityLevel | nutriflow-final/src/hooks/useUserProfile.js:112-117 | only the activity level changes |
| Text.DecimalRoundTrip | nutriflow-final/src/hooks/useImageOptimizer.js:59 | a whole number rendered in decimal reads back as the same number |
| ImageOptimizer.Dimensions | nutriflow-final/src/hooks/useImageOptimizer.js:59 | the dimensions string is at least three characters long and has exactly one "x", right after the width's digits |
| ImageOptimizer.DimensionsRoundTrip | nutriflow-final/src/hooks/useImageOptimizer.js:59 | the "WxH" string determines the width and the height it was made from |
| ImageOptimizer.Optimized | nutriflow-final/src/hooks/useImageOptimizer.js:57-63 | the result carries the input file unchanged, equal original and optimised sizes equal to the file size, a reduction of 0 and the decoded dimensions |
| ImageOptimizer.OptimizeAsWritten | nutriflow-final/src/hooks/useImageOptimizer.js:18-68 | the call as written: a non-image is rejected with the state untouched; it resolves exactly when the image decodes, and it stays pending, with `isProcessing` still true, exactly when the image is valid and fails to load |
| ImageOptimizer.Optimize | nutriflow-final/src/hooks/useImageOptimizer.js:18-68 | the corrected call: a non-image is rejected with the state untouched; it resolves exactly when the image decodes, it never stays pending, and processing is over after every call on an image |
| ImageOptimizer.InvalidFileUntouched | nutriflow-final/src/hooks/useImageOptimizer.js:19-21 | a missing file or a type not starting with "image/" is rejected with the invalid-type message before any state changes; an image always sets progress 10 and then 30 |
| ImageOptimizer.OptimizeSuccess | nutriflow-final/src/hooks/useImageOptimizer.js:23-63 | a decoded image resolves with the file and its metadata after progress 10, 30, 70, 100, with processing over |
| ImageOptimizer.OptimizeSettles | nutriflow-final/src/hooks/useImageOptimizer.js:26-67 | every call on an image settles with processing over and progress at its last, non-decreasing checkpoint; it resolves exactly when the image decodes |
| ImageOptimizer.AsWrittenHangsOnLoadError | nutriflow-final/src/hooks/useImageOptimizer.js:28-43 | as written, an image that fails to load leaves the call pending and `isProcessing` true |
| ImageOptimizer.CorrectionOnlyTouchesLoadError | nutriflow-final/src/hooks/useImageOptimizer.js:28-38 | the corrected call differs from the call as written exactly on a valid image that fails to load |
| ImageOptimizer.Optimizer.constructor | nutriflow-final/src/hooks/useImageOptimizer.js:9-10 | not processing, progress 0 |
| ImageOptimizer.Optimizer.OptimizeImage | nutriflow-final/src/hooks/useImageOptimizer.js:18-68 | the call, step by step, leaves the state and the outcome that the corrected call function gives |
| LoadingIndicator.Message | nutriflow-final/src/components/ui/LoadingIndicator.jsx:16-28 | the message is one of the operation's messages: the first one below progress 0 and the last one from progress 100 |
| LoadingIndicator.MessageIsBand | nutriflow-final/src/components/ui/LoadingIndicator.jsx:16-28 | the message is the one for the number of thresholds the progress has reached: 30/60/90 for "upload", 25/50/75/95 for any other operation |
| LoadingIndicator.BandMonotone | nutriflow-final/src/components/ui/LoadingIndicator.jsx:16-28 | for a fixed operation, more progress never gives an earlier band |
| LoadingIndicator.BarWidth | nutriflow-final/src/components/ui/LoadingIndicator.jsx:42 | the bar width is at least 5 and at least the progress, and it is one of the two |
| LoadingIndicator.BarColor | nutriflow-final/src/components/ui/LoadingIndicator.jsx:32-34 | blue exactly for "upload", green for every other operation |
| LoadingIndicator.Render | nutriflow-final/src/components/ui/LoadingIndicator.jsx:12-50 | nothing is rendered exactly when the indicator is not visible (invisible by default); otherwise the message is the operation's message for the band the progress (default 0) falls in, for the operation (default "analysis"); the bar is `Math.max(5, progress)` wide, at least 5 and at least the progress and equal to one of them; the percentage is the progress; the bar is blue exactly for "upload" and green otherwise |
| LoadingIndicator.RenderDefaults | nutriflow-final/src/components/ui/LoadingIndicator.jsx:12-13 | with no props nothing renders; made visible alone it shows a green bar 5 wide with the first analysis message |
| FoodAnalysisResult.CategoryColor | nutriflow-final/src/components/ai/FoodAnalysisResult.jsx:12-23 | green exactly for Healthiest, blue exactly for Balanced, orange exactly for Indulgent, gray for anything else |
| FoodAnalysisResult.ScoreBarColor | nutriflow-final/src/components/ai/FoodAnalysisResult.jsx:44-47 | green exactly above 70, blue exactly from 41 to 70, orange exactly at 40 and below |
| FoodAnalysisResult.OrUnknown | nutriflow-final/src/components/ai/FoodAnalysisResult.jsx:57 | an empty value shows as "Unknown", a non-empty one as itself |
| FoodAnalysisResult.Nutrients | nutriflow-final/src/components/ai/FoodAnalysisResult.jsx:54-71 | each of the four cells reads "Unknown" exactly when the nutrition record is missing or that value is empty (or is itself "Unknown"); a non-empty value shows as itself |
| FoodAnalysisResult.Render | nutriflow-final/src/components/ai/FoodAnalysisResult.jsx:25-88 | a click passes the whole item; the badge shows the category in its colour; the bar has the score's colour and width; the description shows exactly when present and non-empty; the tags show exactly when present and non-empty, unchanged; each of the four nutrients reads "Unknown" exactly when the record is missing or its value is empty, and otherwise shows its value |
| FoodAnalysisResult.AnalysedCardIsComplete | nutriflow-final/src/components/ai/FoodAnalysisResult.jsx:54-84 | the card of an item the endpoint analysed shows the endpoint's nutrition values, never "Unknown", shows its tags in order, and has a coloured (not gray) badge |
| FoodAnalysisResult.BarMatchesBadge | nutriflow-final/src/components/ai/FoodAnalysisResult.jsx:12-47 | the bar colour agrees with the badge colour of the score's category except at score 70 and at scores 31 to 40 |
| FoodAnalysisResult.BadgeBarMismatchReachable | nutriflow-final/src/components/ai/FoodAnalysisResult.jsx:44-47 | a score of 70 gets a green badge and a blue bar; a score of 35 gets a blue badge and an orange bar |

## Left out

- The browser and network work is not modelled: `fetch`, `FileReader`, `Image`, `URL.createObjectURL` and `URL.revokeObjectURL`, and the 500 ms wait. Their outcomes are inputs of the hook models: whether the file was read, the recognised text or its absence, the analysis reply, and the decode result.
- `performance.now`, `processingTime`, `console` logging and the unused OpenAI import are not modelled. They do not change any result.
- The endpoint's 500 path is not modelled. Items are typed records here, so scoring cannot throw. In JavaScript it throws for a `null` element of `menuItems`, where `item.name` is read; for a truthy `allergies` that is not an array (a string such as "Peanuts", say), whose `forEach` is not a function; and for an allergy that is not a string, where `allergy.toLowerCase()` is called. A number, string or boolean element does not throw: its `name` is `undefined`, its text is "undefined ", and it is scored like any item. A non-string `name` does not throw either, since the template string converts any value.
- `toLowerCase` is modelled on ASCII letters only. Other letters keep their case.
- Items reach the endpoint as typed records with an optional description. Other JSON shapes of `menuItems` elements are not modelled. Of `userProfile`, only `allergies` is read, as in the code.
- `nutriflow-final/src/pages/api/vision-ocr.js` is not part of this model. The run hook takes its reply as an input.
- `FeedbackForm.jsx`, `SimpleFeedback.jsx` and `pages/index.js` are not part of this model. They are form and page wiring.
- Concurrency is not modelled: overlapping runs and React's batching of state updates. Hook operations are taken one at a time.
- UserProfile.ProfileStore.AddDietaryPreference, AddHealthGoal and AddAllergy: the presence check reads the current profile. The code reads the profile of the last render, which differs only when updates are still pending.
- UserProfile.ProfileStore.UpdateProfile: a patch holds only the five profile keys. A key present with the value `undefined`, and extra keys, are not modelled.
- MenuAnalysis.MenuAnalyzer.AnalyzeMenu: the request bodies are not modelled, including the base64 split of the image data. A reply body is modelled as not JSON, JSON `null`, or any other JSON value, whose `results` (or `text`) is present or missing; a number, string or boolean body has neither, so it is the variant with the field missing. A truthy `results` that is not an array is not modelled.
- The run hook's `parseMenuItems` ignores the recognised text and returns three fixed items, so no menu-text parsing is modelled.
- The run hook has no run identifier. Overlapping runs write into the same state, and that interleaving is not modelled.
- LoadingIndicator.Render: progress is an integer, so `Math.round` of the percentage label is the identity. Non-numeric progress is not modelled.
- The JSX markup, CSS class strings and SVGs are modelled only as the colour family each choice selects.

## Findings

| source | as written | input that shows it | evidently intended | confidence | as-written member | corrected member |
|---|---|---|---|---|---|---|
| nutriflow-final/src/hooks/useImageOptimizer.js:28-38 | the dimensions promise settles only on the image's load event and has no error handler | a file of type "image/png" whose bytes do not decode: the error event fires, the promise never settles, the call never returns and `isProcessing` stays true at progress 30 | a load error rejects the promise, so the existing catch block clears `isProcessing` and rethrows | not executed; high that the hang occurs, medium on the exact error text (the model uses "Failed to load image.") | ImageOptimizer.AsWrittenHangsOnLoadError | ImageOptimizer.OptimizeSettles |
