# Farm dashboard core, modelled in Dafny

This project models the in-memory logic of a farm-management web dashboard for
Tunisian farmers and proves properties of it. The modelled parts are:

- **Sales store** (`sales_store.dfy`). Five tables: listings, buyer leads, offers,
  broadcast channels and postings.
  - Ids are allocated as one above the table's largest id.
  - New listings and channels are appended; new leads, offers and postings are put first.
  - A broadcast creates one posting per target channel.
  - Demo data is seeded only into an empty store.
- **Application stores** (`app_stores.dfy`).
  - The UI store holds the sidebar flag and the cross-app action bus, a counter plus the last action.
  - The plugin store holds the enabled-module and pinned-module flags.
  - The settings store holds the theme and the language.
- **Mock assistant** (`ai_assistant.dfy`). Threshold rules over sensor metrics:
  module recommendations, at most two alerts, and a per-key average summary.
- **Seller dashboard** (`marketplace_seller.dfy`).
  - The unit labels.
  - The listing filter bar: search, type, city, posting status, target segments and channel.
  - The sorted city and target pickers.
  - The target-segment toggle.
- **Crops marketplace** (`crops_marketplace.dfy`). The search and picker filter over
  the page's fixed listings, and the list of cities.
- **Plant disease page** (`plant_disease.dfy`).
  - The keyword classifier that turns a model label into disease advice.
  - The severity badge colours.
  - The five-entry result history.
- **Logger and translation stub** (`logger.dfy`, `i18n.dfy`). The level gate, and
  `t(key, fallback)`.

Shared modules:
- `lists.dfy`: map, filter, de-duplication, sub-lists.
- `text.dfy`: `toLowerCase`, `trim`, `includes`, string order and sorting.
- `js.dfy`: JavaScript values, truthiness and the members every plain object inherits.
- `wrappers.dfy`: `Option`.
- `demo_text.dfy`: which demo product names and cities contain "fresh", for the seller search on the demo data.

**Stores.** Each store is a class whose fields the actions replace. For the sales
store, every `set(s => ...)` is a pure function on a `Tables` value, and each
method of `SalesStore.Store` is proved to leave the store in exactly the state that
function gives. Timestamps are passed in as `now`. Persisted values are passed to
the constructors.

**Not in the code.** The irrigation page has no field-map editor: no drag,
resize, snapping or coordinates. Its sections are a static list rendered as a
grid (`src/pages/SmartIrrigation.tsx:21-27`, `208-237`). So there is no such
editor in this model.

## Model

| member | source | states |
|---|---|---|
| SalesStore.MaxId | src/hooks/useSalesStore.ts:112 | `Math.max(0, ...ids)` is non-negative, at least every id, and either 0 or one of the ids |
| SalesStore.NextId | src/hooks/useSalesStore.ts:112 | the id given to a new record is at least 1 and above every id already in the table |
| SalesStore.Tables.AddListing | src/hooks/useSalesStore.ts:111-117 | the new listing is appended with the draft's fields, the given timestamp and the id `NextId` (one above the largest listing id, 1 for an empty table); earlier listings keep their order; the other tables are unchanged; unique ids stay unique |
| SalesStore.Tables.RemoveListing | src/hooks/useSalesStore.ts:118-122 | the result is an order-preserving sub-list holding exactly the listings with another id, each as many times as before; the other tables are unchanged; unique ids stay unique |
| SalesStore.FilterKeepsUniqueIds | src/hooks/useSalesStore.ts:119 | dropping records from a table with unique ids leaves unique ids |
| SalesStore.RemoveAbsentIsNoOp | src/hooks/useSalesStore.ts:118-119 | removing an id no listing has leaves the store unchanged |
| SalesStore.Tables.AddLead | src/hooks/useSalesStore.ts:123-129 | the new lead is put first with the id `NextId` (one above the largest lead id, 1 for an empty table), and the old leads follow unchanged; nothing else changes |
| SalesStore.Tables.AddOffer | src/hooks/useSalesStore.ts:130-136 | the new offer is put first with the id `NextId` (one above the largest offer id, 1 for an empty table), and the old offers follow unchanged; nothing else changes |
| SalesStore.Tables.AddChannel | src/hooks/useSalesStore.ts:137-143 | the new channel is appended with the id `NextId` (one above the largest channel id, 1 for an empty table); earlier channels and the other tables are unchanged |
| SalesStore.Tables.ToggleChannel | src/hooks/useSalesStore.ts:144-148 | length, order, ids, timestamps and all fields except `enabled` are kept; `enabled` changes only on the channels with the given id |
| SalesStore.ToggleChannelBack | src/hooks/useSalesStore.ts:144-145 | setting a channel's flag away and back restores every channel |
| SalesStore.BroadcastTargets | src/hooks/useSalesStore.ts:153 | with a non-empty id list, the targets are exactly the channels with a requested id; otherwise exactly the enabled channels; either way in table order, each selected channel as many times as in the table |
| SalesStore.NewPostings | src/hooks/useSalesStore.ts:158-159 | one posting per target, in target order, with consecutive ids above the start id, status posted, the listing id, the target's channel id and the note "Posted to" plus the channel name |
| SalesStore.Tables.Broadcast | src/hooks/useSalesStore.ts:149-163 | an unknown listing or an empty target list changes nothing; otherwise the new postings are put before the old ones, numbered above the previous largest posting id; only postings change; unique ids stay unique |
| SalesStore.BroadcastPostsToTargets | src/hooks/useSalesStore.ts:151-160 | every posting a broadcast adds is posted, refers to the listing, and names a channel of the store that the broadcast selected, for any tables, repeated ids included |
| SalesStore.Tables.SeedDemoData | src/hooks/useSalesStore.ts:186-221 | if any of listings, leads or offers is non-empty, nothing changes; otherwise the result has 5 listings, 3 leads, 4 offers, 4 channels, no postings, and unique ids in every table; the result is then exactly the demo tables `DemoListings`, `DemoLeads`, `DemoOffers`, `DemoChannels` with no postings |
| SalesStore.SeedIdempotent | src/hooks/useSalesStore.ts:187 | seeding twice equals seeding once, whatever the second timestamp |
| SalesStore.SeedReplacesChannels | src/hooks/useSalesStore.ts:187-220 | channels are not in the seeding guard: an otherwise empty store gets the four demo channels, with ids 1 to 4, in place of its own |
| SalesStore.DemoListings | src/hooks/useSalesStore.ts:189-195 | the demo listings carry ids 1 to 5 |
| SalesStore.DemoLeads | src/hooks/useSalesStore.ts:196-200 | the demo leads carry ids 1 to 3 |
| SalesStore.DemoOffers | src/hooks/useSalesStore.ts:201-206 | the demo offers carry ids 1 to 4 |
| SalesStore.DemoChannels | src/hooks/useSalesStore.ts:207-212 | the demo channels carry ids 1 to 4 |
| SalesStore.DemoListingProductsAndCities | src/hooks/useSalesStore.ts:189-195 | the five demo listings, in order, are 1 Fresh Tomatoes in Sousse, 2 Olive Oil (extra virgin) in Tunis, 3 Dairy Milk (fresh) in Nabeul, 4 Durum Wheat in Kairouan, 5 Calves (6-8 months) in Sidi Bouzid |
| SalesStore.DemoOffersMatchListings | src/hooks/useSalesStore.ts:189-205 | each of the four demo offers has the id, product, city and market of the demo listing in the same position |
| SalesStore.Store.constructor | src/hooks/useSalesStore.ts:105-110 | the store starts from the loaded tables |
| SalesStore.Store.AddListing | src/hooks/useSalesStore.ts:111-117 | the new state is `Tables.AddListing` of the old state |
| SalesStore.Store.RemoveListing | src/hooks/useSalesStore.ts:118-122 | the new state is `Tables.RemoveListing` of the old state |
| SalesStore.Store.AddLead | src/hooks/useSalesStore.ts:123-129 | the new state is `Tables.AddLead` of the old state |
| SalesStore.Store.AddOffer | src/hooks/useSalesStore.ts:130-136 | the new state is `Tables.AddOffer` of the old state |
| SalesStore.Store.AddChannel | src/hooks/useSalesStore.ts:137-143 | the new state is `Tables.AddChannel` of the old state |
| SalesStore.Store.ToggleChannel | src/hooks/useSalesStore.ts:144-148 | the new state is `Tables.ToggleChannel` of the old state |
| SalesStore.Store.BroadcastListing | src/hooks/useSalesStore.ts:149-163 | reading and then writing the store yields `Tables.Broadcast` of the old state |
| SalesStore.Store.SeedDemoData | src/hooks/useSalesStore.ts:186-221 | the new state is `Tables.SeedDemoData` of the old state |
| AppStores.UIStore.constructor | src/hooks/useStore.ts:23-31 | the sidebar starts expanded, the counter at 0, with no last action |
| AppStores.UIStore.ToggleSidebar | src/hooks/useStore.ts:25 | the sidebar flag is negated, so toggling twice restores it; the bus invariant is kept |
| AppStores.UIStore.DispatchAction | src/hooks/useStore.ts:28-29 | the counter goes up by exactly one; the last action carries the new counter as id, with the given type and payload; its id is above every earlier action's |
| AppStores.UIStore.ClearAction | src/hooks/useStore.ts:30 | the last action is removed; the counter and the bus invariant are kept |
| AppStores.DispatchedIdsIncrease | src/hooks/useStore.ts:26-29 | in a UI store that keeps the bus invariant, the ids of the dispatched actions strictly increase in dispatch order, and the action on the bus is one of them with the largest id |
| AppStores.DispatchTwice | src/hooks/useStore.ts:28-29 | of two successive dispatches, the second action's id is above the first's |
| AppStores.SetFlag | src/hooks/useStore.ts:35 | the given key gets the given value; every other entry is unchanged; no other key appears |
| AppStores.ToggleFlag | src/hooks/useStore.ts:39 | the given id's truth value is negated, with absent read as false; every other key keeps its presence and truth value |
| AppStores.ToggleTwiceRestoresFlags | src/hooks/useStore.ts:39 | toggling a pin twice restores every truth value, and the whole map when the pin was present |
| AppStores.PluginStore.constructor | src/hooks/useStore.ts:33-36 | no module is explicitly enabled; the pins are the persisted ones |
| AppStores.PluginStore.SetModuleEnabled | src/hooks/useStore.ts:35 | the enabled-module map becomes `SetFlag` of the old one |
| AppStores.PluginStore.TogglePinned | src/hooks/useStore.ts:37-42 | the pin map becomes `ToggleFlag` of the old one |
| AppStores.StoredOr | src/hooks/useStore.ts:57-58 | a non-empty stored value is used, otherwise the default |
| AppStores.SettingsStore.constructor | src/hooks/useStore.ts:56-58 | theme and language start from storage, else "light" and "en" |
| AppStores.SettingsStore.SetTheme | src/hooks/useStore.ts:59-62 | the theme becomes the chosen mode's name |
| AppStores.SettingsStore.SetLang | src/hooks/useStore.ts:63-66 | the language becomes the chosen language's name |
| Assistant.MoistureThreshold | src/lib/aiAssistant.ts:28 | a soil-moisture reading of 25 is low, one of exactly 30 is not |
| Assistant.RecommendModules | src/lib/aiAssistant.ts:27-34 | the result is an order-preserving sub-list of the available modules; the irrigation module is in it iff it is available and some soil-moisture reading is below 30; the livestock module iff it is available and some key contains "livestock"; no other module; a recommended module appears as many times as in the available list |
| Assistant.GenerateAlerts | src/lib/aiAssistant.ts:36-45 | at most two alerts; the irrigation alert appears iff some soil-moisture reading is below 30; the energy alert iff some solar reading is below 50; when both appear, irrigation comes first; each alert appears at most once, so the count is the number of crossed thresholds |
| Assistant.GroupByKey | src/lib/aiAssistant.ts:15-19 | the keys in first-appearance order, each mapped to exactly its readings in reading order |
| Assistant.SummarizeFarmData | src/lib/aiAssistant.ts:14-25 | no metrics gives "No metrics yet."; otherwise one part per distinct key, in first-appearance order, each the average of exactly that key's readings |
| Assistant.GroupingAsWritten | src/lib/aiAssistant.ts:15-19 | the grouping loop throws exactly when some key names an inherited member of a plain object, and it names the first such key |
| Assistant.ConstructorKeyBreaksSummary | src/lib/aiAssistant.ts:17-18 | a single reading under "constructor" makes the grouping throw; one under "soil_moisture" does not |
| MarketplaceSeller.PriceUnitLabel | src/pages/MarketplaceSeller.tsx:17-29 | "per_kg", "per_ton" and "per_liter" are labelled "/kg", "/ton" and "/L"; every other string, "total" included, is labelled " total" |
| MarketplaceSeller.PriceUnitLabelsDistinct | src/pages/MarketplaceSeller.tsx:17-29 | the four price units of the store get four different labels |
| MarketplaceSeller.QtyUnitLabel | src/pages/MarketplaceSeller.tsx:31-44 | the label is one of five unit names; a string is shown as itself exactly when it is one of them; any string other than "kg", "ton", "L", "head" is shown as "unit" |
| MarketplaceSeller.QtyUnitLabelFixesStoreUnits | src/pages/MarketplaceSeller.tsx:31-44 | every quantity unit of the store is shown as its own name, and labelling a label changes nothing |
| MarketplaceSeller.PostedIds | src/pages/MarketplaceSeller.tsx:88 | an id is in the set exactly when some posting refers to it |
| MarketplaceSeller.FilteredListings | src/pages/MarketplaceSeller.tsx:86-106 | the result is an order-preserving sub-list of the listings, holding exactly those that pass every filter, each as many times as in the input |
| MarketplaceSeller.NoFiltersKeepAll | src/pages/MarketplaceSeller.tsx:87-104 | with an empty search, every filter at "all" and no targets selected, every listing is kept |
| MarketplaceSeller.StatusFiltersPartition | src/pages/MarketplaceSeller.tsx:88-94 | whatever the other filters, the "posted" and "not posted" views together hold each listing of the unfiltered-status view exactly once, split by whether a posting refers to it |
| MarketplaceSeller.SameSearchSameListings | src/pages/MarketplaceSeller.tsx:87-90 | two queries with the same trimmed, lower-cased text keep exactly the same listings, whatever the other filters |
| MarketplaceSeller.SearchIgnoresCaseAndBlanks | src/pages/MarketplaceSeller.tsx:87-90 | lower-casing or trimming the query does not change the result |
| MarketplaceSeller.SearchOnly | src/pages/MarketplaceSeller.tsx:87-104 | with every filter but the search box left at its default, a listing is kept exactly when its product or city contains the trimmed, lower-cased query |
| MarketplaceSeller.SeededSearchForFresh | src/pages/MarketplaceSeller.tsx:87-90 | on the demo data, the search "fresh" keeps exactly listings 1 and 3 (the tomatoes and the milk), matching case-insensitively |
| MarketplaceSeller.ChannelFilterWithStoreLeads | src/pages/MarketplaceSeller.tsx:99-103 | when no lead carries a channel, as with every lead the store creates, the channel filter keeps only listings posted to that channel |
| MarketplaceSeller.SortedDistinct | src/pages/MarketplaceSeller.tsx:84 | the result is strictly ascending in string order and holds exactly the input's strings |
| MarketplaceSeller.UniqueCities | src/pages/MarketplaceSeller.tsx:84 | every listing city exactly once, strictly ascending |
| MarketplaceSeller.AllTargets | src/pages/MarketplaceSeller.tsx:85 | a segment is in the result exactly when some listing names it |
| MarketplaceSeller.UniqueTargets | src/pages/MarketplaceSeller.tsx:85 | every target segment named by a listing exactly once, strictly ascending |
| MarketplaceSeller.ToggledSegments | src/pages/MarketplaceSeller.tsx:538-541 | the selection has no duplicates and holds a segment exactly when it was selected before or is the clicked one, but not both; deselecting keeps the remaining segments in their set order |
| Text.TrimRemovesOnlySpaces | src/pages/MarketplaceSeller.tsx:87 | `trim` removes only white space: the input is a blank run, the trimmed text, and another blank run |
| MarketplaceSeller.ToggleSegment | src/pages/MarketplaceSeller.tsx:190-193 | building the set element by element and then deleting or adding gives `ToggledSegments` |
| MarketplaceSeller.ToggleTwiceSameMembers | src/pages/MarketplaceSeller.tsx:190-193 | clicking the same segment twice restores the selected set |
| MarketplaceSeller.SelectThenDeselectRestores | src/pages/MarketplaceSeller.tsx:538-541 | selecting a new segment appends it, and deselecting it again restores the exact previous selection |
| CropsMarketplace.Filtered | src/pages/CropsMarketplace.tsx:45-53 | an order-preserving sub-list holding exactly the listings that match all three pickers, each as many times as in the input; a chosen city or category holds for every result |
| CropsMarketplace.DefaultsShowAll | src/pages/CropsMarketplace.tsx:48-51 | an empty query with both pickers at "all" shows every listing |
| CropsMarketplace.QueryIgnoresCase | src/pages/CropsMarketplace.tsx:46-48 | lower-casing the query does not change the result |
| CropsMarketplace.QueryIsNotTrimmed | src/pages/CropsMarketplace.tsx:46-48 | "Durum Wheat" finds the wheat listing but the same query with surrounding blanks does not |
| CropsMarketplace.Cities | src/pages/CropsMarketplace.tsx:42 | "all" first, then each listing city exactly once |
| CropsMarketplace.CitiesInFirstAppearanceOrder | src/pages/CropsMarketplace.tsx:42 | the cities after "all" appear in the order of their first listing |
| CropsMarketplace.SeedCities | src/pages/CropsMarketplace.tsx:28-42 | the page's own data gives all, Sousse, Tunis, Nabeul, Kairouan |
| PlantDisease.FirstMatch | src/pages/PlantDiseaseDetection.tsx:385-419 | the reference rule table: the result is the advice of the first rule whose keywords the label mentions, and none when no rule matches |
| PlantDisease.FirstMatchAt | src/pages/PlantDiseaseDetection.tsx:385-419 | when rule i is the first whose keywords the label mentions, the table lookup returns rule i's advice |
| PlantDisease.ParseDiseaseInfo | src/pages/PlantDiseaseDetection.tsx:375-429 | a label mentioning "healthy" or "normal" gives the healthy advice; high severity only ever comes from the blight advice, and low severity only from the healthy or the unknown-label advice |
| PlantDisease.ParseIsFirstMatch | src/pages/PlantDiseaseDetection.tsx:375-429 | the if/else chain over the lower-cased label equals "first matching rule wins" over the seven-rule table, with the unknown-label advice otherwise |
| PlantDisease.HealthyTakesPriority | src/pages/PlantDiseaseDetection.tsx:385-389 | a label mentioning "healthy" or "normal" gives a healthy plant with low severity, whatever else it mentions |
| PlantDisease.HighSeverityIffBlightFirst | src/pages/PlantDiseaseDetection.tsx:395-399 | severity is high exactly when no rust or healthy keyword occurs and a blight keyword does |
| PlantDisease.UnmatchedLabel | src/pages/PlantDiseaseDetection.tsx:420-425 | a label matching no rule is reported as "Plant Type: " plus the label as given, with low severity |
| PlantDisease.GetSeverityColor | src/pages/PlantDiseaseDetection.tsx:431-438 | low gets the green classes, medium the yellow and high the red; any other severity gets the gray classes |
| PlantDisease.SeverityColoursDistinct | src/pages/PlantDiseaseDetection.tsx:431-438 | the three severities get three different badge colours |
| PlantDisease.PushHistory | src/pages/PlantDiseaseDetection.tsx:250-253 | the newest result comes first, followed by the previous entries, at most five in all |
| PlantDisease.HistoryStaysBounded | src/pages/PlantDiseaseDetection.tsx:250-253 | however many results arrive, the history holds at most five |
| Logger.LevelOrder | src/lib/logger.ts:3 | the level weights are debug 10, info 20, warn 30, error 40 |
| Logger.ParseLevel | src/lib/logger.ts:4 | exactly the four level names are levels, and each parses back to its own level |
| Logger.CurrentLevel | src/lib/logger.ts:4-5 | an absent or empty environment value means "info"; any other value is used as given |
| Logger.Log | src/lib/logger.ts:8-13 | a console call is made exactly when the gate passes; it goes to `ConsoleMethodFor(level)`: `log` for debug, the same-named method otherwise; the message is the first argument; meta is the second exactly when truthy |
| Logger.ConsoleMethodsDistinct | src/lib/logger.ts:12 | debug messages go to `console.log`, and no two levels share a console method |
| Logger.GateIsThreshold | src/lib/logger.ts:3-9 | for a configured level, a message passes exactly when its weight is at least that level's; debug < info < warn < error |
| Logger.GateMonotone | src/lib/logger.ts:9 | whatever passes at one level passes at every higher level |
| Logger.DefaultSuppressesDebug | src/lib/logger.ts:5-9 | with no configured level, debug messages are suppressed and info messages are written |
| Logger.ErrorAlwaysEmitted | src/lib/logger.ts:9 | error messages are written whatever the configuration |
| Logger.ShorthandsUseOwnLevel | src/lib/logger.ts:14-17 | each shorthand is `log` at its own level |
| I18n.TAsWritten | src/lib/i18n.ts:6-8 | the lookup as written returns an inherited object member exactly for keys outside the dictionary that name a member every plain object inherits |
| I18n.ConstructorKeyIsNotTranslated | src/lib/i18n.ts:2-8 | "constructor" and "toString" yield inherited members, even with a fallback |
| I18n.T | src/lib/i18n.ts:6-8 | a dictionary key gives its entry; otherwise a non-empty fallback; otherwise the key itself; the result is empty only for the empty key |
| I18n.TAgreesWithSource | src/lib/i18n.ts:6-8 | for every key that is not an inherited member name, the corrected lookup returns what the code returns |
| I18n.Examples | src/lib/i18n.ts:2-8 | "cta.getStarted" gives "Get started"; an unknown key gives its fallback, or itself when the fallback is absent or empty |

## Left out

- Browser persistence is not modelled: `load`, `save`, `localStorage` for the sales tables, the pins, the theme and the language. The constructors take the loaded values instead, and a failed JSON parse is not modelled.
- The lead simulation after a broadcast is not modelled. It uses `setTimeout` and `Math.random` (`src/hooks/useSalesStore.ts:164-184`).
- The clock is not modelled: every `new Date().toISOString()` is the parameter `now`.
- Randomness is not modelled: the random alert ids and the soil-moisture simulator.
- Numbers are modelled as mathematical reals and integers, so NaN, infinities and rounding are out.
- Assistant.SummarizeFarmData: returns the averages, not the text. The `toFixed(1)` formatting and the comma join are left out.
- Assistant.SummarizeFarmData: lists keys in first-appearance order. `Object.entries` would list keys that look like array indices (such as "7") first, in numeric order.
- Text.Lower: lower-cases only ASCII and Latin-1 capitals. Full Unicode case mapping is not modelled.
- Text.Less: compares whole characters. JavaScript's `sort` compares UTF-16 code units, which differs only for characters outside the Basic Multilingual Plane.
- AppStores.ToggleFlag: reads an absent pin as false. As written, a pin id that names an inherited `Object.prototype` member reads that member, which is truthy. This is the same prototype lookup as in the findings below, and it is not modelled here.
- SalesStore.NextId: assumes `Math.max` accepts the whole spread id list. The engine's limit on the number of arguments is not modelled.
- The store's inputs are assumed well-typed. For example, requested channel ids are numbers and units are among the declared names; JavaScript performs no such check.
- The seller page's `seedChannels`, `autoPostEnabled` and `setAutoPostEnabled` are not part of this model. The store does not define them.
- The disease page's camera, image loading, canvas, analysis interval and classifier pipeline are not modelled. These are browser APIs and a foreign model library. The confidence (score times 100) is taken as given.
- The network client with retries (`src/lib/api.ts`) is not modelled.
- The chat assistant component and the command palette are not modelled; they are UI routing around asynchronous calls.
- Routing, layout and purely presentational pages and components are not modelled.
- The logger's actual console output is not modelled; `Logger.Log` returns the call it would make.

## Findings

| source | as written | input that shows it | evidently intended | confidence | as-written member | corrected member |
|---|---|---|---|---|---|---|
| src/lib/i18n.ts:7 | the dictionary is a plain object, so a key naming an inherited member reads that member (a function, or the prototype object itself for `__proto__`), and it is returned because it is truthy | `t('constructor')` returns the `Object` constructor instead of a string | an unknown key falls back to the fallback or to the key | not executed | I18n.TAsWritten | I18n.T |
| src/lib/aiAssistant.ts:17-18 | `byKey` is a plain object, so for a key naming an inherited member the default assignment of an empty list keeps that member, and `push` on it throws | one metric with key "constructor" makes `summarizeFarmData` throw a TypeError | every key gets its own list of readings | not executed | Assistant.GroupingAsWritten | Assistant.SummarizeFarmData |
