# fitlog core, modelled in Dafny

fitlog is a gym log that runs in the browser. This project models its client-side core:

- **the workout session store**: newest-first sessions, with add, update and delete, each followed by a write to local storage;
- **the template store**: templates built from a logged workout, imported templates, deletion and lookup by identifier;
- **the toast queue**: notifications appended by `show`, removed by `dismiss` or when their timer fires;
- **the machine-name dictionary**: 98 machines with English and Spanish names, the display lookup `translateMachine` and the case-insensitive reverse search `findEnglishName`;
- **the language store**: the initial language, `setLanguage` and `toggle`, message lookup with fallbacks, machine names and category names in the current language;
- **the category helpers**: `getCategoryLabel` and `getCategoryEmoji`;
- **the demo-data generator** `generateMockData`, with its weekday rule, plan rotation, per-exercise draws and weight adjustments, Cable Crunch rule and final sort, and the statistics of `getMockDataStats`.

The modules follow the source files:

| module | file |
|---|---|
| `Wrappers` | `Option`, for `null` and `undefined` |
| `Types` | the records of `src/lib/types.ts` |
| `IdLists` | the filter-by-id and find-by-id operations the stores share |
| `Storage` | the local-storage load and save both persistent stores share |
| `Workouts` | `src/lib/stores/workouts.svelte.ts` |
| `Templates` | `src/lib/stores/templates.svelte.ts` |
| `Toasts` | `src/lib/stores/toast.svelte.ts` |
| `MachineTranslations` | `src/lib/i18n/machineTranslations.ts` |
| `I18n` | `src/lib/i18n/index.svelte.ts` |
| `Utils` | `src/lib/utils.ts` |
| `MockData` | `src/lib/mockData.ts` |

How the source becomes Dafny:

- **Stores**: each store is a class. Its list is a `seq` field that the methods reassign. Local storage is a second field holding what is stored under the store's key. In a browser, every mutation leaves the stored value equal to the list (`Persisted`).
- **Pure lookups and string functions**: these are functions, with lemmas about them.
- **The generator's loop**: this is a `for` loop in a method, with its invariants.
- **Randomness and identifiers**: `Math.random()` and `crypto.randomUUID()` become the streams `rand(n)` and `uuid(n)`, read in the order the code calls them.
- **Injected values**: the calendar walk is a parameter, a list of days with date, weekday and progress. So are the browser flag and `navigator.language`.

## Model

| member | source | states |
|---|---|---|
| Types.CategoryFromName | src/lib/types.ts:1 | a string read back as a category is the stored name of that category |
| Types.CategoryNameRoundTrip | src/lib/types.ts:1 | every category's stored name reads back as that category, so the eight names are distinct |
| IdLists.RemoveId | src/lib/stores/workouts.svelte.ts:39 | `filter` by id keeps exactly the records with another id, and never adds one |
| IdLists.RemoveIdAppend | src/lib/stores/workouts.svelte.ts:39 | filtering a concatenation filters each part, so kept records stay in their relative order |
| IdLists.RemoveIdAbsent | src/lib/stores/toast.svelte.ts:25 | filtering an id nobody has returns the list unchanged |
| IdLists.RemoveIdIdempotent | src/lib/stores/templates.svelte.ts:43 | filtering twice by the same id equals filtering once |
| IdLists.RemoveIdUnique | src/lib/stores/toast.svelte.ts:21 | when ids are unique, filtering one record's id removes exactly that record and keeps the rest in order |
| IdLists.AppendFreshUnique | src/lib/stores/toast.svelte.ts:17-18 | appending a record with a fresh id keeps ids unique |
| IdLists.FindId | src/lib/stores/templates.svelte.ts:51 | `find` returns a record of the list with the id, or nothing when no record has it |
| IdLists.FindIdFirst | src/lib/stores/templates.svelte.ts:51 | `find` returns the first record with the id, the one no earlier record shares it with |
| IdLists.FindIdPrepend | src/lib/stores/templates.svelte.ts:47-51 | a record put in front is what a lookup of its id finds, whatever older records share its id |
| IdLists.FindIdRemoved | src/lib/stores/templates.svelte.ts:43-51 | after filtering an id out, looking it up finds nothing |
| Storage.Load | src/lib/stores/workouts.svelte.ts:6-10 | outside a browser, or with nothing stored, the store starts empty; otherwise it starts with the stored list (the template store's `loadFromLocalStorage` at src/lib/stores/templates.svelte.ts:7-11 is the same) |
| Storage.Save | src/lib/stores/workouts.svelte.ts:12-15 | in a browser the slot then holds the saved list; elsewhere saving leaves storage unchanged (likewise `saveToLocalStorage` at src/lib/stores/templates.svelte.ts:13-16) |
| Storage.LoadAfterSave | src/lib/stores/workouts.svelte.ts:6-15 | loading after saving gives the saved list in a browser and the empty list elsewhere |
| Workouts.ReplaceSession | src/lib/stores/workouts.svelte.ts:35 | `update`'s map keeps the length, replaces every session with the same id and leaves every other one as it was |
| Workouts.ReplaceAbsent | src/lib/stores/workouts.svelte.ts:35 | updating a session whose id is absent changes nothing and inserts nothing |
| Workouts.ReplaceIdempotent | src/lib/stores/workouts.svelte.ts:35 | updating twice with the same session equals updating once |
| Workouts.ReplaceFinds | src/lib/stores/workouts.svelte.ts:35 | after updating a present id, the first session with that id is the new session |
| Workouts.WorkoutStore.constructor | src/lib/stores/workouts.svelte.ts:18 | the store starts with the loaded list and is persisted |
| Workouts.WorkoutStore.Latest | src/lib/stores/workouts.svelte.ts:24-26 | `latest` is the first session, and is null exactly when the list is empty |
| Workouts.WorkoutStore.Recent | src/lib/stores/workouts.svelte.ts:27-29 | `recent` is the prefix of length min(5, length) |
| Workouts.WorkoutStore.Add | src/lib/stores/workouts.svelte.ts:30-33 | the list becomes the session followed by the old list, with no duplicate check, and storage holds the new list |
| Workouts.WorkoutStore.Update | src/lib/stores/workouts.svelte.ts:34-37 | the list becomes the replaced list, and storage holds it |
| Workouts.WorkoutStore.Delete | src/lib/stores/workouts.svelte.ts:38-41 | the list becomes the filtered list, and storage holds it |
| Templates.ToTemplateExercises | src/lib/stores/templates.svelte.ts:29-35 | one template entry per exercise, in order, copying machine and category and taking weight, sets and reps as the defaults |
| Templates.ToTemplateExercisesAppend | src/lib/stores/templates.svelte.ts:29-35 | converting a concatenation converts each part |
| Templates.TemplatesStore.constructor | src/lib/stores/templates.svelte.ts:19 | the store starts with the loaded list and is persisted |
| Templates.TemplatesStore.GetById | src/lib/stores/templates.svelte.ts:50-52 | `getById` is absent exactly when no template has the id, and otherwise is a template of the list with that id |
| Templates.TemplatesStore.Add | src/lib/stores/templates.svelte.ts:25-41 | the returned template carries the converted exercises, goes in front of the unchanged older list and is saved, and `getById` of its id returns it |
| Templates.TemplatesStore.Delete | src/lib/stores/templates.svelte.ts:42-45 | the list becomes the filtered list and is saved, and `getById` of the id is then absent |
| Templates.TemplatesStore.Import | src/lib/stores/templates.svelte.ts:46-49 | the template goes in front unchanged, with no duplicate check, is saved, and `getById` of its id returns it |
| Toasts.ShowFreshOnce | src/lib/stores/toast.svelte.ts:17-18 | with a fresh id, ids stay unique and removing the new toast's id gives back the queue it was appended to |
| Toasts.ExpireRemovesOnlyOwnToast | src/lib/stores/toast.svelte.ts:20-22 | with unique ids, the timer for a toast removes that toast and no other |
| Toasts.ToastStore.constructor | src/lib/stores/toast.svelte.ts:10 | the queue starts empty |
| Toasts.ToastStore.Show | src/lib/stores/toast.svelte.ts:16-23 | appends exactly one toast with the message and type, defaults `success` and 2500 ms, returns the timer for that id, and keeps ids unique when the id is fresh |
| Toasts.ToastStore.Expire | src/lib/stores/toast.svelte.ts:20-22 | the timer callback removes the toasts with the timer's id |
| Toasts.ToastStore.Dismiss | src/lib/stores/toast.svelte.ts:24-26 | removes the toasts with that id, keeping the others in order |
| MachineTranslations.LowerIdempotent | src/lib/i18n/machineTranslations.ts:137 | lower-casing keeps the length and is idempotent |
| MachineTranslations.Translate | src/lib/i18n/machineTranslations.ts:123-130 | a name that is no key is returned unchanged, and any other result is the `lang` name of an entry with that key |
| MachineTranslations.FindEnglish | src/lib/i18n/machineTranslations.ts:133-143 | in English the input itself; in Spanish an entry's key whose Spanish name equals the input ignoring case, or the input when none does |
| MachineTranslations.TranslateKnownIn | src/lib/i18n/machineTranslations.ts:124-127 | with distinct keys, a key is shown with its own entry's name |
| MachineTranslations.FindEnglishKnownIn | src/lib/i18n/machineTranslations.ts:136-140 | with Spanish names distinct ignoring case, a Spanish name in any case leads to its own entry's key |
| MachineTranslations.TranslateEnglishIn | src/lib/i18n/machineTranslations.ts:123-130 | when every English name is its key, showing any name in English is the identity |
| MachineTranslations.RoundTripIn | src/lib/i18n/machineTranslations.ts:123-143 | in a well-formed dictionary, reading back the shown name of a key gives the key, in both languages |
| MachineTranslations.FindEnglishIgnoresCase | src/lib/i18n/machineTranslations.ts:137 | names that differ only in case find the same key, and are each returned as typed when nothing matches |
| MachineTranslations.TableChecked | src/lib/i18n/machineTranslations.ts:4-120 | the dictionary has 98 entries and each passes the key and Spanish-name position checks |
| MachineTranslations.WellFormedFromChecks | src/lib/i18n/machineTranslations.ts:4-120 | passing both checks makes keys distinct, Spanish names distinct ignoring case and English names equal to keys |
| MachineTranslations.TableWellFormed | src/lib/i18n/machineTranslations.ts:4-120 | the machine dictionary is well formed |
| MachineTranslations.TranslateKnown | src/lib/i18n/machineTranslations.ts:123-130 | a known machine is shown with its entry's name in the chosen language |
| MachineTranslations.TranslateEnglishIdentity | src/lib/i18n/machineTranslations.ts:4-130 | showing any name in English returns it unchanged |
| MachineTranslations.FindEnglishNameKnown | src/lib/i18n/machineTranslations.ts:136-140 | a dictionary Spanish name typed in any case leads back to its key |
| MachineTranslations.SpanishRoundTrip | src/lib/i18n/machineTranslations.ts:6-119 | for every key, reading back its Spanish name gives the key |
| MachineTranslations.MachineRoundTrip | src/lib/i18n/machineTranslations.ts:123-143 | for every known name and either language, reading back the shown name gives the name |
| MachineTranslations.FindEnglishNameIgnoresCase | src/lib/i18n/machineTranslations.ts:137 | on the machine dictionary, Spanish names that differ only in case and match an entry are read back as the same name |
| MachineTranslations.EnglishRoundTrip | src/lib/i18n/machineTranslations.ts:134 | in English the round trip holds for every name, custom ones included |
| MachineTranslations.TranslateAsWritten | src/lib/i18n/machineTranslations.ts:124-129 | the lookup as written returns `undefined` exactly for an inherited property name that is no key |
| MachineTranslations.NotAKey | src/lib/i18n/machineTranslations.ts:4-120 | a name the key tree sends nowhere is no key of the dictionary |
| MachineTranslations.InheritedNameNotKey | src/lib/i18n/machineTranslations.ts:4-120 | no inherited property name of a JavaScript object is a machine key |
| MachineTranslations.AsWrittenLosesInheritedNames | src/lib/i18n/machineTranslations.ts:124-129 | a custom machine named like an inherited property is shown as `undefined` as written, and as its own name by `TranslateMachine` |
| MachineTranslations.AsWrittenAgreesElsewhere | src/lib/i18n/machineTranslations.ts:124-129 | for every other name the code as written and `TranslateMachine` agree |
| MachineTranslations.ConstructorShownAsUndefined | src/lib/i18n/machineTranslations.ts:124-129 | the concrete case: "constructor" is shown as `undefined` as written |
| I18n.InitialLanguage | src/lib/i18n/index.svelte.ts:7-13 | English outside a browser; a stored "en" or "es" wins; otherwise Spanish exactly when the browser language starts with "es" |
| I18n.InitialAfterStore | src/lib/i18n/index.svelte.ts:7-13 | a stored language is chosen at the next start, whatever the browser language |
| I18n.Flip | src/lib/i18n/index.svelte.ts:41 | toggling always changes the language |
| I18n.FlipTwice | src/lib/i18n/index.svelte.ts:40-43 | two toggles restore the language |
| I18n.Translate | src/lib/i18n/index.svelte.ts:45 | the current-language message when non-empty, else the English one when non-empty, else the key |
| I18n.TranslateNonEmpty | src/lib/i18n/index.svelte.ts:44-46 | a non-empty key never gives an empty message, and the result is a catalogue string for the key or the key |
| I18n.TranslateFallback | src/lib/i18n/index.svelte.ts:45 | a message missing in Spanish is looked up as in English |
| I18n.CategoryKey | src/lib/i18n/index.svelte.ts:63-72 | a string has a message key exactly when it is one of the eight category names |
| I18n.CategoryKeys | src/lib/i18n/index.svelte.ts:63-72 | each category's key is its own name, except `back`, whose key is `back_category` |
| I18n.I18nStore.constructor | src/lib/i18n/index.svelte.ts:25 | the store starts in the initial language |
| I18n.I18nStore.IsSpanish | src/lib/i18n/index.svelte.ts:31-33 | `isSpanish` holds exactly when the language is Spanish |
| I18n.I18nStore.SetLanguage | src/lib/i18n/index.svelte.ts:34-39 | the language becomes `l`; in a browser `l` is stored, so the next start chooses `l` |
| I18n.I18nStore.Toggle | src/lib/i18n/index.svelte.ts:40-43 | the language flips, through `setLanguage` |
| I18n.I18nStore.T | src/lib/i18n/index.svelte.ts:44-46 | `t` never returns an empty string for a non-empty key and returns the current-language message when there is one |
| I18n.I18nStore.Machine | src/lib/i18n/index.svelte.ts:47-49 | in English a machine name is shown unchanged; a known machine's shown name reads back to it |
| I18n.I18nStore.CategoryTranslation | src/lib/i18n/index.svelte.ts:74-77 | a category's message through its key, any other string unchanged, never empty for a non-empty input |
| Utils.UpperChar | src/lib/utils.ts:40 | `toUpperCase` of one character: one character except the sharp s, unchanged exactly on characters with no capital, and always a capital |
| Utils.CapitalizeFirst | src/lib/utils.ts:40 | the empty string stays empty; otherwise the capitalised first character followed by the rest unchanged |
| Utils.CapitalizeAscii | src/lib/utils.ts:40 | on ASCII input only the first character changes, to its capital, and the length stays |
| Utils.CapitalizeIdempotent | src/lib/utils.ts:40 | capitalising twice equals capitalising once |
| Utils.CapitalizeLength | src/lib/utils.ts:40 | capitalising keeps the length, except that a leading sharp s adds one character |
| Utils.CategoryLabels | src/lib/utils.ts:39-41 | each of the eight categories is labelled with its capitalised name, e.g. `legs` becomes `Legs` |
| Utils.CategoryLabelShape | src/lib/utils.ts:39-41 | a label keeps the name's length and tail and starts with a capital letter |
| Utils.CategoryEmoji | src/lib/utils.ts:27-37 | the intended icons: an icon exists exactly for the six categories other than cardio and sports |
| Utils.IconsArePictographs | src/lib/utils.ts:28-35 | each intended icon is one pictograph from the emoji blocks, followed at most by the emoji presentation selector |
| Utils.CategoryEmojiAsWritten | src/lib/utils.ts:27-37 | the icon literals as the file holds them: present exactly for the six categories other than cardio and sports |
| Utils.IconsMisencoded | src/lib/utils.ts:28-35 | every literal is its intended emoji's UTF-8 bytes read as Windows-1254 text, 3 to 5 characters long and different from the emoji |
| Utils.EmojiCollisions | src/lib/utils.ts:28-35 | chest and arms share an icon, and they are the only two categories that do |
| MockData.MachinesIndexed | src/lib/mockData.ts:4-17 | the catalogue has twelve machines, each at the position its name leads to |
| MockData.MachineNamesUnique | src/lib/mockData.ts:4-17 | no two catalogue machines share a name |
| MockData.LookupAt | src/lib/mockData.ts:67 | with unique names, `machines.find` by a machine's name finds that machine |
| MockData.CatalogueFacts | src/lib/mockData.ts:4-24 | four plans, every plan machine in the catalogue, unique names, and Cable Crunch in category core |
| MockData.InitialWeights | src/lib/mockData.ts:43-46 | every catalogue machine starts at its start weight, and only catalogue machines have a weight |
| MockData.RandomFeeling | src/lib/mockData.ts:26-35 | a roll below 0.1 is always too hard and a roll of 0.75 or more always too easy |
| MockData.FeelingMonotone | src/lib/mockData.ts:26-35 | at any progress, a larger roll never gives a harder feeling |
| MockData.TooHardShrinks | src/lib/mockData.ts:26-35 | a roll that is too hard later in the period was too hard earlier |
| MockData.WeekdayRule | src/lib/mockData.ts:52-57 | Monday, Wednesday and Friday are workout days, Sunday, Tuesday and Thursday never are, and Saturday is one exactly when the roll exceeds 0.5 |
| MockData.IncreaseWeight | src/lib/mockData.ts:83 | an increase strictly raises the weight, by at most 5 |
| MockData.DecreaseWeight | src/lib/mockData.ts:85 | a decrease is 2.5 less or the start weight, whichever is larger, so never below the start weight |
| MockData.AdjustBounds | src/lib/mockData.ts:82-86 | an adjustment keeps the weight at or above the start weight, only an easy set raises it and only a hard set lowers it |
| MockData.SetsFor | src/lib/mockData.ts:77 | sets are 3 or 4 |
| MockData.RepsFor | src/lib/mockData.ts:78 | reps are 8, 10 or 12 |
| MockData.ExercisesForAppend | src/lib/mockData.ts:66-80 | one more exercise for the plan's next machine extends the exercises built so far |
| MockData.AtLeastUpdate | src/lib/mockData.ts:82-86 | setting one machine's weight to at least its start weight keeps every weight at or above its start |
| MockData.DrawExercise | src/lib/mockData.ts:67-86 | the exercise records the machine's current weight and catalogue category, its feeling, sets and reps come from the first three draws, and the weights after it are the current ones with that machine adjusted by `AdjustWeight` on a fourth draw exactly when the set was too easy or too hard |
| MockData.DrawnIsGood | src/lib/mockData.ts:67-86 | a drawn exercise at weights not below the starts has a catalogue machine and category, a weight at or above the start, 3 or 4 sets and 8, 10 or 12 reps, and leaves the weights at or above the starts |
| MockData.PlanExercises | src/lib/mockData.ts:66-87 | exercise `j` is for plan machine `j`, has the `j`-th identifier of the stream, records the weight left by the exercises before it, takes feeling, sets and reps from its draws and adjusts its machine's weight as `DrawExercise` says; the draws follow each other (three per exercise, four when adjusted) and the final weights are those left by the last exercise |
| MockData.Workout | src/lib/mockData.ts:63-106 | the plan exercises as `PlanExercises` draws them; a Cable Crunch follows exactly when the next draw exceeds 0.6, and it is then category core, 3 sets of 15 reps at the current Cable Crunch weight, with its feeling from the draw after; the session has the day's date and the identifier after the exercises' |
| MockData.WalkDay | src/lib/mockData.ts:52-107 | the day gives a session exactly when the weekday rule holds for the current draw; a day without a session consumes one draw on a Saturday and none on any other day; a session has the day's date, follows the plan in turn and is good |
| MockData.DecidedRespects | src/lib/mockData.ts:52-57 | days each decided by the weekday rule on their own draw respect the fixed workout and rest days |
| MockData.Walk | src/lib/mockData.ts:43-110 | each day is taken exactly when the weekday rule holds for its own draw, every Saturday draws a fresh number that no later day reuses, the weekday rule holds on every day, the sessions are exactly the taken days' dates in order, session n follows plan n mod 4, every weight stays at or above its start, and increasing days give increasing dates |
| MockData.TakenDatesAscending | src/lib/mockData.ts:51-110 | sessions taken from increasing days have increasing dates |
| MockData.Insert | src/lib/mockData.ts:112 | inserting adds exactly the one session to the multiset of sessions |
| MockData.InsertSorted | src/lib/mockData.ts:112 | inserting into a newest-first list keeps it newest first |
| MockData.SortSortsAndPermutes | src/lib/mockData.ts:112 | the sort is newest first and a permutation of its input |
| MockData.SortAscendingReverses | src/lib/mockData.ts:112 | sorting strictly oldest-first sessions reverses them |
| MockData.BeforeTotal | src/lib/mockData.ts:112 | any two distinct date strings are ordered one way or the other |
| MockData.BeforeTransitive | src/lib/mockData.ts:112 | the date order is transitive |
| MockData.BeforeAsymmetric | src/lib/mockData.ts:112 | the date order is asymmetric |
| MockData.SortedCover | src/lib/mockData.ts:51-112 | after the sort, every Monday, Wednesday and Friday of the walk has a session |
| MockData.SortedRotation | src/lib/mockData.ts:60-112 | when the walk's dates increase, counting from the oldest sorted session, session n follows plan n mod 4 |
| MockData.SortedPlans | src/lib/mockData.ts:60-112 | every sorted session follows one of the plans |
| MockData.SortedGood | src/lib/mockData.ts:66-112 | sorting keeps every exercise good |
| MockData.WalkSorted | src/lib/mockData.ts:37-113 | over any catalogue and plans: sessions newest first, every fixed workout day present, each session following a plan with good exercises, plans rotating from the oldest |
| MockData.GenerateMockData | src/lib/mockData.ts:37-113 | the same promises for the source's own catalogue and four plans |
| MockData.SumCountsAll | src/lib/mockData.ts:117 | the reduce counts every exercise of every session exactly once |
| MockData.MockDataStats | src/lib/mockData.ts:115-123 | total workouts is the number of sessions, total exercises the number of all exercises, and the range "No data" or last date " to " first date |
| MockData.DateRangeOrdered | src/lib/mockData.ts:118-120 | for newest-first sessions the range reads from a date not after the other |

## Left out

- `JSON.parse` and `JSON.stringify` are the identity on the stored value. A malformed stored value, which makes `JSON.parse` throw, is not modelled.
- `crypto.randomUUID()`, `new Date()`, `Math.random()`, `setTimeout` and `navigator.language` are parameters. The model states nothing about timing or the distribution of random numbers.
- The calendar walk of `generateMockData` is a parameter: `months`, the date arithmetic, `toISOString` and the computation of `progressPercent` are not part of this model.
- `formatDate` and `getTodayDateString` are not part of this model. They depend on the clock, the time zone and locale formatting.
- `generateId` is only a call to `crypto.randomUUID`, so the stores take the new id as a parameter.
- `toUpperCase` and `toLowerCase` are modelled on Basic Latin and Latin-1 only. Strings are sequences of characters, not UTF-16 code units.
- Svelte's `$state` reactivity is plain mutable fields. The `all` getters read the field directly.
- `src/lib/stores/auth.svelte.ts`, `vite.config.ts` and `src/lib/presetMachines.ts` are not part of this model. They hold network clients, build settings and a static catalogue with no operations.
- The message catalogue `src/lib/i18n/translations.ts` is not part of this model. It is a parameter, one map per language.
- I18n.I18nStore.Machine: uses the corrected own-key lookup. The program's `machine` returns `undefined` for inherited property names such as "constructor", "toString" and "__proto__" (see Findings).
- I18n.I18nStore.CategoryTranslation: this does not model what `getCategoryTranslation` does for an inherited property name such as "constructor". The source looks such a name up and hands a function or an object (for `__proto__`, `Object.prototype`) to `t`, which returns it.
- `localeCompare` in the final sort is code-point order, character by character. Locale collation is not modelled.
- `Array.prototype.sort` is modelled as a stable insertion sort. Engines sort stably, but the order of equal dates is unspecified beyond that.
- Weights are exact `real` numbers, so 2.5 kg steps carry no rounding.
- MockData.Walk picks the next plan before it knows whether the day is a workout day. The source picks it after, and the plan is used only on a workout day, so the result is the same.
- MockData.Workout: the ghost map `starts` of start weights is only a proof device.
- MockData.Walk: of the weights carried from one workout to the next it states only that they stay at or above the start weights; the adjustments themselves are stated per workout by MockData.PlanExercises.
- MockData.GenerateMockData, MockData.Walk and MockData.WalkDay do not state the sessions' identifiers or which numbers each exercise draws. Those are stated once per workout, from the workout's first draw and identifier, by MockData.PlanExercises and MockData.Workout.

## Findings

| source | as written | input that shows it | evidently intended | confidence | as-written member | corrected member |
|---|---|---|---|---|---|---|
| src/lib/i18n/machineTranslations.ts:124-129 | `machineTranslations[englishName]` also finds the properties every object inherits from `Object.prototype`; these are truthy, so `translation[language]` is `undefined` | a custom machine named "constructor" is shown as `undefined` in both languages | a name that is no own key of the dictionary is a custom machine and is shown as it is | high, not executed | MachineTranslations.TranslateMachineAsWritten, MachineTranslations.ConstructorShownAsUndefined | MachineTranslations.TranslateMachine, MachineTranslations.AsWrittenLosesInheritedNames |
| src/lib/utils.ts:28-35 | the icon literals are the emoji's UTF-8 bytes read as Windows-1254 text, with the bytes that code page leaves undefined dropped | `getCategoryEmoji('legs')` returns the four characters U+011F U+0178 U+00A6 U+00B5 instead of U+1F9B5 | each literal is the emoji itself | high, not executed | Utils.CategoryEmojiAsWritten, Utils.IconsMisencoded | Utils.CategoryEmoji, Utils.IconsArePictographs |
