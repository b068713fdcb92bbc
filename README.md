# Concierge console: translation lookup and session state

This project models two parts of a scripted concierge console, a React demo in which five AI agents plan a trip. The agents are lifestyle, access, tech, wellness and concierge.

1. **The translation service** (`src/i18n/index.jsx`).
   - There is one nested string table per locale.
   - The resolver `t` splits a dotted key on `.` and walks the table.
   - If a segment is missing or `null`, or the walk ends on `null`, `t` returns the key itself.
   - The provider keeps the active locale; it starts at `zh` and `toggleLocale` switches between `zh` and `en`.
2. **The page's session state** (`src/pages/Home.jsx`). It consists of:
   - the accepted and pending memories;
   - the per-agent status table;
   - the trip form with its per-agent checklists;
   - the transcript;
   - the view flags.

   On top of it sit:
   - the state updaters `acceptMemory`, `rejectMemory`, `addMessage`, `updateAgentStatus` and `addFormItem`;
   - the status-overview counts;
   - the initial state and the reset run on every locale change;
   - the three scripted flows: trip planning, the voice demo and the proactive alert.

The files are:
- `wrappers.dfy`: `Option`, which stands for JavaScript's `undefined`.
- `jsstring.dfy`: the two string built-ins the core relies on.
  - `split` with a one-character separator, with both round trips against `join`.
  - `replace` with a string pattern (first occurrence only, via `indexOf`).
- `i18n.dfy`: the translation tree and the resolver.
  - `Translate` is the imperative loop of `t`, proved equal to the function `Translation`.
  - `Translation` is in turn characterised by plain path access (`Follow`).
  - It also holds the locale toggle and the `Provider` class that owns the locale.
- `homestate.dfy`: the value-level side of the page.
  - The functional updates the page passes to its setters (`RemoveId`, `AddItem`).
  - The overview counts and the initial memory list.
  - The agent chains of trip planning, with the proof that the firing order does not matter.
- `home.dfy`: the class `Session`.
  - Its fields are the page's state hooks. `formData` is one field, as in the page, and its `{ t, locale }` context value is another.
  - Each updater and each atomic step of the scripted flows (the code between two `await`s) is a method with a narrow `modifies` frame.
  - The flows are methods that run those steps in order.

`acceptMemory` does not check that the memory is pending. It always prepends it to the accepted list, filters the pending list by its id and posts a message (`src/pages/Home.jsx:98-102`). `rejectMemory`'s filter removes every pending entry with the id (`src/pages/Home.jsx:105`). The model does the same in both cases.

## Model

| member | source | states |
|---|---|---|
| JsString.Split | src/i18n/index.jsx:13 | `key.split('.')` returns at least one piece, and no piece contains the separator |
| JsString.JoinSplit | src/i18n/index.jsx:13 | Joining the pieces of any string with the separator gives back that string |
| JsString.SplitJoin | src/i18n/index.jsx:13 | Splitting the join of separator-free pieces gives back exactly those pieces |
| JsString.IndexOf | src/pages/Home.jsx:101 | The position found is an occurrence of the pattern, with none before it; `None` means the pattern occurs nowhere |
| JsString.ReplaceFirst | src/pages/Home.jsx:101 | `template.replace(pat, rep)` with a string pattern: the text before the first occurrence, then `rep`, then the text after it; its properties are `ReplaceFirstReplaces` |
| JsString.ReplaceFirstReplaces | src/pages/Home.jsx:101 | `replace` with a string pattern changes only the first occurrence and keeps the text around it; without an occurrence the template is unchanged |
| I18n.Walk | src/i18n/index.jsx:14-19 | The lookup loop never ends on `null`: a nullish value along the way, or at the end, is a miss |
| I18n.Member | src/i18n/index.jsx:17 | `value[k]`: an own member of a table object, and nothing for a string leaf or a missing member |
| I18n.Table | src/i18n/index.jsx:14 | `translations[locale]`: the active locale's table, or nothing |
| I18n.Translation | src/i18n/index.jsx:12-20 | `t` is total and never returns `null` or `undefined` |
| I18n.Translate | src/i18n/index.jsx:12-20 | The loop with its early `return key` computes exactly `Translation`, and never returns `null` |
| I18n.WalkFollow | src/i18n/index.jsx:14-19 | The walk finds the value that plain path access finds, with a final `null` read as a miss |
| I18n.TranslationCharacterized | src/i18n/index.jsx:12-20 | `t(key)` is the non-null value at the key's path in the active locale's table when one exists, and the key itself otherwise |
| I18n.FollowPrefixMissing | src/i18n/index.jsx:16 | Once a prefix of the path is missing, or is `null` before the end, the whole path is missing |
| I18n.TranslationFallsBack | src/i18n/index.jsx:15-17 | A missing or `null` intermediate value makes `t` return the key unchanged |
| I18n.TranslationReadsActiveLocaleOnly | src/i18n/index.jsx:14 | Tables of other locales do not affect `t` |
| I18n.ToggleLocale | src/i18n/index.jsx:22-24 | The result is `zh` or `en`, and it is `en` exactly when the previous locale was `zh` |
| I18n.ToggleTwice | src/i18n/index.jsx:22-24 | On `zh` and `en`, toggling twice is the identity |
| I18n.Provider.constructor | src/i18n/index.jsx:10 | The provider starts in locale `zh` |
| I18n.Provider.Toggle | src/i18n/index.jsx:22-24 | The locale stays in {zh, en} and always changes |
| I18n.Provider.T | src/i18n/index.jsx:12-20 | `t` bound to the active locale returns the translation under that locale |
| HomeState.AgentIdsComplete | src/pages/Home.jsx:28 | `AGENT_IDS` lists every agent |
| HomeState.InitialMemories | src/pages/Home.jsx:58 | The seed list is renumbered with ids 1..n, which are distinct; every other field is kept |
| HomeState.RemoveId | src/pages/Home.jsx:100 | `filter(m => m.id !== id)` keeps exactly the entries with another id |
| HomeState.RemoveIdConcat | src/pages/Home.jsx:100 | The filter works piecewise over a concatenation, so the survivors keep their order |
| HomeState.RemoveIdNoMatch | src/pages/Home.jsx:105 | Filtering a list without that id changes nothing |
| HomeState.RemoveIdIdempotent | src/pages/Home.jsx:104-106 | Rejecting an id twice equals rejecting it once |
| HomeState.IdleAgents | src/pages/Home.jsx:72 | The initial status table has every agent, each idle with the given log |
| HomeState.CountStatus | src/pages/Home.jsx:209-211 | A status count is at most the number of agents counted |
| HomeState.CountsPartition | src/pages/Home.jsx:209-211 | The done, working and idle counts sum to the number of agents |
| HomeState.AddItem | src/pages/Home.jsx:196 | `addFormItem`'s update appends the item to the one section, creating it if absent; the other sections are unchanged |
| HomeState.Section | src/pages/Home.jsx:196 | `prev.sections[sectionId] \|\| []`: a section's items, empty when it does not exist |
| HomeState.CountChecked | src/pages/Home.jsx:213 | A section has at most as many checked items as items |
| HomeState.CountCheckedAppend | src/pages/Home.jsx:213 | Appending an item adds one to the checked count exactly when the item is checked |
| HomeState.CheckedAtMostLen | src/pages/Home.jsx:212-213 | Completed tasks never exceed total tasks |
| HomeState.AddItemSums | src/pages/Home.jsx:212-213 | Over any list of agents, appending to one section adds one item per occurrence of that section in the list, and one checked item per occurrence when the item is checked |
| HomeState.AddItemTotals | src/pages/Home.jsx:196 | `addFormItem` makes the total task count grow by exactly one, and the completed count grow by one exactly when the item is checked |
| HomeState.TotalTasks | src/pages/Home.jsx:212 | The length of all sections flattened, summed over the five agent ids, which are the only possible keys |
| HomeState.CompletedTasks | src/pages/Home.jsx:213 | The checked items of all sections, never more than the total |
| HomeState.HasTasks | src/pages/Home.jsx:215 | `Object.keys(sections).length > 0` holds exactly when some section exists |
| HomeState.SumLenCovers | src/pages/Home.jsx:212 | A listed section's items are all counted in the total |
| HomeState.SumLenWitness | src/pages/Home.jsx:212 | A positive total comes from some section that exists |
| HomeState.HasTasksIffTotal | src/pages/Home.jsx:212-215 | When sections only exist once they hold an item, `hasTasks` holds exactly when the total is positive |
| HomeState.ProgressPercent | src/pages/Home.jsx:214 | It is 0 for no agents; otherwise it is the nearest whole percentage of done/n, with halves rounded up, and at most 100 |
| HomeState.PercentAtMost100 | src/pages/Home.jsx:214 | The rounded percentage of a share is at most 100 |
| HomeState.PercentOfFive | src/pages/Home.jsx:214 | With five agents the percentage is exactly 20 per done agent: no rounding happens |
| HomeState.StatusOverview | src/pages/Home.jsx:209-215 | The three agent counts sum to 5; completed ≤ total; the percentage is 20 per done agent and at most 100; `hasTasks` holds exactly when some section exists, and then exactly when the total is positive |
| HomeState.PlanningTask | src/pages/Home.jsx:120-122 | Built as the page builds it (a checked checkbox with the default label, then the lifestyle override, then the access override), the item is a checked checkbox whose label is the lifestyle label for lifestyle, the access label for access and the default label for the other three agents |
| HomeState.VoiceMemory | src/pages/Home.jsx:146-153 | The memory the voice demo proposes: the given id, kind `habit`, the translated content, agent `lifestyle`, date `刚刚` under `zh` and `Just now` otherwise, marked new |
| HomeState.AgentChain | src/pages/Home.jsx:118-125 | One agent's chain: the agent ends done (its working entry is overwritten), its section gains its planning item, and every other section is unchanged |
| HomeState.RunChains | src/pages/Home.jsx:116-128 | The chains run one after another in firing order; `PlanningAnyOrder` states what they end in |
| HomeState.AgentIdsIsFiringOrder | src/pages/Home.jsx:116-117 | `AGENT_IDS` is a firing order: the delays `index * 800` plus a jitter below 500 never overlap, so the real schedule is this order, one of those `PlanningAnyOrder` covers |
| HomeState.ChainsCommute | src/pages/Home.jsx:116-126 | Two different agents' chains commute |
| HomeState.StatesCommute | src/pages/Home.jsx:118-125 | Status updates of two different agents commute |
| HomeState.SectionsCommute | src/pages/Home.jsx:124 | Appends to two different sections commute |
| HomeState.PlannedForChainStates | src/pages/Home.jsx:118-125 | Running one more chain on the closed form of the status table gives the closed form with that agent added |
| HomeState.PlannedForChainSections | src/pages/Home.jsx:124 | Running one more chain on the closed form of the checklists gives the closed form with that agent added |
| HomeState.PlannedForChain | src/pages/Home.jsx:116-126 | Running one more chain on the closed form of the board gives the closed form with that agent added |
| HomeState.PlannedForNone | src/pages/Home.jsx:116 | The closed form for no agents is the starting board |
| HomeState.RunChainsDistinct | src/pages/Home.jsx:116-128 | Any sequence of distinct chains ends in the closed form for its set of agents |
| HomeState.PlannedForDone | src/pages/Home.jsx:118-125 | In the closed form each agent that ran is done and has its planning item appended |
| HomeState.PlanningAnyOrder | src/pages/Home.jsx:116-128 | In every firing order, planning ends with each agent done and exactly one more checked checkbox item at the end of its section |
| Home.Session.constructor | src/pages/Home.jsx:58-74 | The initial state: memories numbered 1..n, nothing pending, all agents idle, no sections, one AI greeting, all flags off |
| Home.Session.ResetForLocale | src/pages/Home.jsx:80-93 | After a locale change, the whole state is the initial state of the new locale |
| Home.Session.CurrentOverview | src/pages/Home.jsx:209-215 | In every valid state the overview is defined: the agent counts sum to 5, completed ≤ total, the percentage is at most 100, and `hasTasks` holds exactly when the total is positive |
| Home.Session.AddMessage | src/pages/Home.jsx:193 | Exactly one timestamped entry is appended; earlier messages are unchanged |
| Home.Session.UpdateAgentStatus | src/pages/Home.jsx:194 | Only the named agent's entry changes |
| Home.Session.AddFormItem | src/pages/Home.jsx:195-198 | The item is appended to its section; destination, duration and other sections are unchanged; the total grows by one |
| Home.Session.AcceptMemory | src/pages/Home.jsx:98-102 | The memory is the new head of the accepted list; every pending entry with its id is gone and the rest stay; one system message with the content filled in is appended |
| Home.Session.RejectMemory | src/pages/Home.jsx:104-106 | Exactly the pending entries with the id are gone; nothing else changes |
| Home.Session.BeginPlanning | src/pages/Home.jsx:110-111 | Processing is on, and the confirmation with the destination filled in is posted |
| Home.Session.AnnounceMemoryRead | src/pages/Home.jsx:113-114 | The AI's reading-memory message is posted |
| Home.Session.RunAgentChain | src/pages/Home.jsx:118-125 | One agent's chain updates the board as `AgentChain` says, and touches nothing else of the form |
| Home.Session.RunAgentChains | src/pages/Home.jsx:116-128 | The chains run in firing order give `RunChains` of the starting board |
| Home.Session.StartPlanning | src/pages/Home.jsx:109-130 | Two messages are posted; every agent ends done; every section gains exactly its planning item; processing is off at the end |
| Home.Session.VoiceBegin | src/pages/Home.jsx:133-134 | The guard: the demo starts exactly when it was not listening, and listening is on afterwards |
| Home.Session.VoiceHeard | src/pages/Home.jsx:136-141 | Listening off, the spoken text posted, processing on, lifestyle working |
| Home.Session.VoiceUpdated | src/pages/Home.jsx:143-157 | The diet alert item is added, lifestyle is done, the new lifestyle memory heads the pending list, processing is off, and the answer is posted |
| Home.Session.ProposeVoiceMemory | src/pages/Home.jsx:146-157 | The new lifestyle memory heads the pending list, processing is off, and the answer is posted |
| Home.Session.HandleVoiceDemo | src/pages/Home.jsx:132-157 | While listening, nothing changes; otherwise one alert item for lifestyle, lifestyle done, one new pending memory at the head, and the user's then the AI's message appended |
| Home.Session.PostStatusSummary | src/pages/Home.jsx:168 | The status summary is posted |
| Home.Session.OpenStatusPanel | src/pages/Home.jsx:169 | The overview opens |
| Home.Session.TriggerProactiveAlert | src/pages/Home.jsx:179-183 | The banner is shown, the alert is posted as a system message, and access is rebooking |
| Home.Session.ResolveProactiveAlert | src/pages/Home.jsx:186-188 | The new-flight alert item is added and access is done |
| Home.Session.AlertTimeline | src/pages/Home.jsx:165-176 | The summary and the alert are posted in that order; the overview is closed; the banner is shown; access is done with its new-flight item |
| Home.Session.VoiceScenario | src/pages/Home.jsx:132-176 | The whole voice flow gives lifestyle and access one alert item each, and both end done. One lifestyle memory waits in pending. The transcript gains the spoken text, the answer, the summary and the alert, in order |

## Left out

- Rendering, CSS, icons and the view-only state (`selectedAgentId`, `activeTab`, `waitingAgentId`, `inputMessage`, the scroll refs) are not modelled; they carry no logic.
- `src/pages/Help.jsx` and `src/App.jsx` are not part of this model; one renders a static document and the other is a router table.
- Timers are not modelled: `delay`, `setTimeout`, the `Math.random` jitter and `Promise.all`.
  - Each step between two awaits is one method, and a flow runs its steps in order.
  - The concurrent planning chains are modelled as one chain per agent, in an arbitrary firing order; the order the page's delays produce, `AGENT_IDS` order, is one of them.
  - Callbacks that fire after a reset, or a second flow interleaved with a running one, are not modelled.
- `Date.now()` and `new Date()` are parameters: the new memory's id and every message timestamp.
- The contents of `zh.json` and `en.json` are a parameter of the provider (a tree). The page's list of initial memories, `t('memories.initial')`, is the parameter `seeds`.
- HomeState.InitialMemories: the `|| []` fallback at `src/pages/Home.jsx:58` and `:81` never fires, because `t` returns the key, a non-empty string, on a miss. A locale table without `memories.initial` therefore makes `.map` fail on that string and the page throws. The model takes the seed list as a parameter `seeds: seq<Memory>` and does not model that error path.
- Home.Session: the page's `t` is modelled as `T`, a map from dotted keys to the string leaves it names, falling back to the key. Every key the page reads in the modelled code names a string. Its link to `I18n.Translation` is by that reading and is not proved.
- I18n.Translation: `value[k]` in JavaScript also finds members inherited from `Object.prototype`, so `t('constructor')`, `t('toString')` or `t('demo.hasOwnProperty')` return a function rather than the key; `Member` sees own members only, so the model returns the key there.
- I18n.Translation: a locale value in `Tree` is `null`, a string or a nested object. Arrays, numbers and booleans cannot be represented, so an array value such as the one `t('memories.initial')` yields is outside the tree model. Reading further into a string leaf (`"abc"["0"]` is `"a"`) is modelled as a miss.
- JsString.ReplaceFirstReplaces: the special `$` patterns of the replacement string are not modelled. The replacement texts the page uses are a destination and a memory's content.
- HomeState.ProgressPercent: `Math.round` over floating point is modelled as exact rational rounding on integers, halves up. For five agents the two agree.
- `setLocale` is exported by the provider but is not used by the modelled code, so it is not modelled.
- The `useI18n` guard that throws outside a provider is not modelled; it is React context plumbing.
