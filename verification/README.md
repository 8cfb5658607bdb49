# Stimalink marketplace, modelled in Dafny

Stimalink is a demo marketplace for renewable-energy projects. It has three roles:

- A **producer** describes a site: a city and an energy type (solar, wind, hydro or geothermal). The producer gets back an estimate of its potential output, with a confidence tier and a five-point trend series.
- The producer is then matched with **engineers** whose skills fit the energy type, nearest first, and with **suppliers** whose materials fit it.
- Engineers browse the opportunities through a search and two filters. Suppliers have a searchable directory.

The application shell moves between the landing page, a role selector and the page of the chosen role. A pitch dialog pages through three slides.

This project models that decision logic as pure Dafny functions over immutable records, and proves what each operation promises.

| module | file | models |
|---|---|---|
| `SampleData` | sample_data.dfy | record types, enums and the seed catalogs |
| `MockApi` | mock_api.dfy | the estimator, both matchers and the acknowledgements |
| `Ranking` | ranking.dfy | the stable distance sort behind the engineer matcher |
| `CatalogFacts` | catalog_facts.dfy | what each energy type selects from the seed catalogs |
| `EngineerPage` | engineer_page.dfy | opportunity filters and the interest button |
| `SupplierPage` | supplier_page.dfy | the supplier search |
| `ProducerPage` | producer_page.dfy | the city gazetteer, the form and the match buttons |
| `AppContext` | app_context.dfy | the shared role, estimate and opportunity log |
| `MainApp` | main_app.dfy | view and role navigation |
| `PitchModal` | pitch_modal.dfy | the bounded slide counter |
| `JsObject` | js_object.dfy | property lookup on plain object literals, inherited members included |
| `Text`, `Seqs`, `Optional` | text.dfy, seqs.dfy, optional.dfy | substring search, ASCII lower case, decimal ids, order-preserving filter, prefixes |

## Representations

- Outputs in kW and ratings are integers counting tenths (`Tenths`). The source's `toFixed(1)` becomes round-half-up to the nearest tenth.
- Coordinates are `real`. The engineer ranking compares squared planar distances, because the square root the source takes is monotone.
- `Math.random()` becomes a parameter `random` in [0, 1).
- `Date.now()` becomes a parameter `now`. An estimate's id is `"pred-"` followed by the decimal digits of `now`.
- `includes` is substring occurrence at some index (`Text.Contains`).
- `toLowerCase` is ASCII lower case (`Text.Lower`).
- A select box is `All` or `Only(value)`. A missing value (`null`) is `None`.

## Notes on the code

- **Unknown energy types.** The matchers look up `skillMap[type] || []` and `materialMap[type] || []` on plain object literals (`MockApi.TermsOf`, over `JsObject.Get`). The code has no error path for a key without an entry: an absent key yields no terms and so no matches. A key naming a member of `Object.prototype` is different. It yields that member, which is truthy and not an array, so the `.some` that follows throws a TypeError. This happens as soon as some catalog entry has a skill or a material to test (`MockApi.UnmappedTypeHasNoMatches`, `MockApi.ConstructorKeyThrows`). The API only ever looks up the four energy type names, and both maps hold all of them, so from the API the lookup always finds an own entry (`MockApi.TaxonomiesCoverEveryType`).
- **Geothermal suppliers.** A geothermal opportunity gets sup-4, whose "Piping" is a geothermal term (`CatalogFacts.GeothermalSuppliers`). With no relevant supplier at all the result is empty (`MockApi.NoRelevantSupplierNoMatch`).
- **Seed confidence labels.** The labels on the seed opportunities are hand-written and do not follow the estimator's tier rule. For example, pred-1 is solar at 3.8 kW and is labelled High. No tier consistency is claimed for the seed data.
- **Engineer page data source.** The engineer dashboard lists the seed opportunities from `getOpportunities`, not the shared opportunity log that the producer's submissions extend. The two lists are modelled separately, as in the code.

## Model

| member | source | states |
|---|---|---|
| MockApi.Variance | src/api/mockApi.ts:29 | the perturbation lies in [-1, 1) for every random draw in [0, 1) |
| MockApi.RoundHalfUp | src/api/mockApi.ts:30 | the result is the whole number within half a unit of the input, halves rounded up |
| MockApi.PredictedKW | src/api/mockApi.ts:21-30 | the estimate is the nearest tenth to baseline plus perturbation, so it stays within 1.0 kW of the type's baseline (4.5, 10.0, 7.5, 15.0) |
| MockApi.ConfidenceFor | src/api/mockApi.ts:32-34 | High iff above the baseline; Medium iff above 0.7 of it and at most the baseline; Low iff at most 0.7 of it; a value equal to the baseline is Medium |
| MockApi.ConfidenceExamples | src/api/mockApi.ts:32-34 | 4.5 kW solar is Medium, 5.0 is High, 2.0 is Low; 7.0 kW wind is Low and 7.1 is Medium |
| MockApi.SparkPoint | src/api/mockApi.ts:37 | point i is the nearest tenth to predicted × (0.6 + 0.1 i) |
| MockApi.SparkPointMonotone | src/api/mockApi.ts:36-38 | for a non-negative prediction later points are never lower |
| MockApi.Sparkline | src/api/mockApi.ts:36-38 | five points, each the nearest tenth to its fraction of the prediction, ending at the prediction, non-decreasing for non-negative predictions |
| MockApi.GetPrediction | src/api/mockApi.ts:17-51 | id from the timestamp; coordinates, type and location copied; output within 1.0 kW of the baseline and positive; tier High iff above the baseline and Medium otherwise, never Low; trend series of five rising points ending at the output; description kept when non-empty, else "<type> project"; the output, tier and series are exactly `PredictedKW`, `ConfidenceFor` and `Sparkline` of the request's type and draw |
| MockApi.PredictionIdsDistinct | src/api/mockApi.ts:41 | estimates made at different instants carry different ids |
| MockApi.TaxonomiesCoverEveryType | src/api/mockApi.ts:64-71 | both term maps have a non-empty own entry for every energy type, so the lookup of a type's name never reaches an inherited member or the `[]` fallback |
| MockApi.RelevantEngineersCons | src/api/mockApi.ts:73-78 | the relevance filter decides each catalog entry on its own skills, in catalog order |
| MockApi.RelevantSuppliersCons | src/api/mockApi.ts:107-112 | the same, for suppliers and their materials |
| MockApi.MatchEngineers | src/api/mockApi.ts:71-91 | at most four; every match comes from the catalog and has a skill containing a term; nearest first; an omitted relevant engineer means four were kept and none of them is farther; the result is a prefix of the full ranking |
| MockApi.MatchSuppliers | src/api/mockApi.ts:105-113 | at most four; an order-preserving subsequence of the catalog; every match relevant; an omitted relevant supplier means four were kept; a prefix of the relevant suppliers |
| MockApi.MatchEngineersOfFew | src/api/mockApi.ts:79-91 | with at most four relevant engineers the result is their full ranking |
| MockApi.MatchEngineersKeepsAllOfFew | src/api/mockApi.ts:73-91 | with at most four relevant engineers every one of them is returned |
| MockApi.MatchEngineersKeepsCatalogOrderOnTies | src/api/mockApi.ts:79-91 | engineers at equal distance appear in catalog order |
| MockApi.TermsOf | src/api/mockApi.ts:71 | `map[key] \|\| []` on an object literal: an own entry's terms, no terms for an absent key, and a non-array (`None`) exactly for a key without an entry that names a prototype member |
| MockApi.MatchEngineersByKey | src/api/mockApi.ts:71-91 | the engineer matcher from `skillMap[key] \|\| []`: throws "relevantSkills.some is not a function" iff the key reaches a prototype member and some engineer has a skill; otherwise at most four catalog engineers, nearest first, and for an own entry exactly `MatchEngineers` on its terms |
| MockApi.MatchSuppliersByKey | src/api/mockApi.ts:105-113 | the supplier matcher from `materialMap[key] \|\| []`: throws iff the key reaches a prototype member and some supplier has a material; otherwise at most four suppliers in catalog order, and for an own entry exactly `MatchSuppliers` on its terms |
| MockApi.UnmappedTypeHasNoMatches | src/api/mockApi.ts:71-113 | a key without an own entry: unless it names a prototype member, both matchers return no matches rather than an error; a prototype member's name makes a matcher throw iff some catalog entry has a skill (a material) to test |
| MockApi.ConstructorKeyThrows | src/api/mockApi.ts:71-76 | with the seed catalogs, the key "constructor" makes both matchers throw |
| MockApi.NoRelevantSupplierNoMatch | src/api/mockApi.ts:107-113 | a catalog without a relevant supplier yields the empty list, not an error |
| MockApi.NoRelevantEngineerNoMatch | src/api/mockApi.ts:73-91 | a catalog without a relevant engineer yields the empty list |
| MockApi.GetMatchedEngineers | src/api/mockApi.ts:60-92 | at most four seed engineers, each relevant to the opportunity's type, nearest the opportunity first; the lookup by type name succeeds with exactly this list |
| MockApi.GetMatchedSuppliers | src/api/mockApi.ts:95-114 | at most four seed suppliers, in catalog order, each relevant to the opportunity's type; the lookup by type name succeeds with exactly this list |
| MockApi.ExpressInterest | src/api/mockApi.ts:129-133 | always acknowledged with success |
| MockApi.RequestMaterials | src/api/mockApi.ts:136-140 | always acknowledged with success |
| Ranking.Insert | src/api/mockApi.ts:79-90 | inserting into a sorted list keeps it sorted and adds exactly one occurrence |
| Ranking.SortBy | src/api/mockApi.ts:79-90 | the sort yields a sorted permutation of its input |
| Ranking.InsertWithKey | src/api/mockApi.ts:79-90 | an insertion puts the element at the head of its key class and leaves every other class alone |
| Ranking.SortIsStable | src/api/mockApi.ts:79-90 | within each key class the sort keeps the input order |
| Ranking.SqDistance | src/api/mockApi.ts:81-88 | squared distances are non-negative and zero at the target |
| Ranking.SortByDistance | src/api/mockApi.ts:79-90 | the ranking is ordered by distance and is a permutation of its input |
| Ranking.SortByDistanceIsStable | src/api/mockApi.ts:79-90 | engineers at the same distance stay in input order |
| Ranking.PrefixSortedByDistance | src/api/mockApi.ts:91 | cutting a ranking keeps it ranked |
| Ranking.OmittedIsNoNearer | src/api/mockApi.ts:91 | an engineer cut from a ranking is no nearer than the last one kept, and the cut kept its full length |
| Ranking.RankingIsUnique | src/api/mockApi.ts:79-90 | with distinct distances there is only one ranking of a set of engineers |
| Ranking.RankingOfOne | src/api/mockApi.ts:79-90 | one engineer ranks as itself |
| Ranking.RankingOfThree | src/api/mockApi.ts:79-90 | three engineers at distinct distances rank nearest first |
| CatalogFacts.SolarEngineers | src/data/sampleData.ts:107-180 | solar selects eng-1, eng-3 and eng-6, in catalog order |
| CatalogFacts.WindEngineers | src/data/sampleData.ts:107-180 | wind selects eng-2 and eng-6 |
| CatalogFacts.HydroEngineers | src/data/sampleData.ts:107-180 | hydro selects eng-4 |
| CatalogFacts.GeothermalEngineers | src/data/sampleData.ts:107-180 | geothermal selects eng-5 |
| CatalogFacts.SolarSuppliers | src/data/sampleData.ts:182-243 | solar selects sup-1, sup-3 and sup-5 |
| CatalogFacts.WindSuppliers | src/data/sampleData.ts:182-243 | wind selects sup-2 alone: sup-4's "Turbines" is shorter than "Turbine Blades" and "Wind Turbines", so neither fits inside it |
| CatalogFacts.HydroSuppliers | src/data/sampleData.ts:182-243 | hydro selects sup-4 alone; sup-2 is skipped because "Turbine Blades" does not contain "Turbines" |
| CatalogFacts.GeothermalSuppliers | src/data/sampleData.ts:182-243 | geothermal selects sup-4 through "Piping"; sup-6's "Heat Exchangers" and "Geothermal Pumps" do not contain "Heat Pumps" |
| CatalogFacts.TurbineBladesLackTurbines | src/data/sampleData.ts:196 | "Turbine Blades" does not contain "Turbines" |
| CatalogFacts.RelevantEngineersOf6 | src/api/mockApi.ts:73-78 | the relevance filter over a six-entry catalog keeps each entry exactly when it is relevant |
| CatalogFacts.RelevantSuppliersOf6 | src/api/mockApi.ts:107-112 | the same for six suppliers |
| CatalogFacts.SeedIdsUnique | src/data/sampleData.ts:38-243 | ids are unique within each seed catalog |
| CatalogFacts.SeedSparklines | src/data/sampleData.ts:38-105 | every seed trend series has five points, never falls and ends at its output |
| CatalogFacts.SeedCoordinatesValid | src/data/sampleData.ts:38-180 | every seed latitude lies in [-90, 90] and every longitude in [-180, 180] |
| CatalogFacts.NairobiDistances | src/data/sampleData.ts:39-49 | from Nairobi the Nairobi engineer is at distance zero and Garissa is nearer than Mombasa |
| CatalogFacts.SolarOpportunityMatches | src/data/sampleData.ts:39-49 | a solar opportunity gets sup-1, sup-3 and sup-5; at Nairobi (pred-1) its engineers rank eng-1, eng-6, eng-3 |
| CatalogFacts.WindOpportunityMatches | src/api/mockApi.ts:60-114 | a wind opportunity gets both wind engineers, in some order, and sup-2 |
| CatalogFacts.HydroOpportunityMatches | src/api/mockApi.ts:60-114 | a hydro opportunity gets eng-4 and sup-4, wherever it is |
| CatalogFacts.GeothermalOpportunityMatches | src/api/mockApi.ts:60-114 | a geothermal opportunity gets eng-5 and sup-4, wherever it is |
| CatalogFacts.WindOpportunityPicksWindEngineer | src/api/mockApi.ts:64-91 | a wind opportunity offered a "Wind Energy" engineer and a "Solar Installation" engineer is matched with the wind engineer alone, wherever they are |
| EngineerPage.FilterOpportunities | src/pages/Engineer.tsx:41-60 | an order-preserving subsequence, never longer than the input; an opportunity is kept, as often as it occurs, iff it passes every active criterion: search in location or description ignoring case, equal energy type, equal tier |
| EngineerPage.FilterOpportunitiesIsOneFilter | src/pages/Engineer.tsx:41-60 | the three staged filters equal one filter by the conjunction of the criteria |
| EngineerPage.NoCriterionShowsAll | src/pages/Engineer.tsx:42-57 | an empty search with both selects on all shows the list unchanged |
| EngineerPage.SearchIgnoresCase | src/pages/Engineer.tsx:44-49 | search terms equal up to case select the same opportunities |
| EngineerPage.SearchByLocationFinds | src/pages/Engineer.tsx:44-57 | searching an opportunity's own location in any case, with its type and tier selected, finds it |
| EngineerPage.HandleExpressInterest | src/pages/Engineer.tsx:62-73 | nothing is sent iff nothing is selected; otherwise the selected id with user "engineer-demo", acknowledged |
| SupplierPage.FilterSuppliers | src/pages/Supplier.tsx:36-48 | an empty search shows the directory unchanged; otherwise an order-preserving subsequence, never longer than the directory, keeping exactly the suppliers whose name, region or some material contains the term ignoring case |
| SupplierPage.SearchIgnoresCase | src/pages/Supplier.tsx:39-45 | search terms equal up to case select the same suppliers |
| SupplierPage.SearchByMaterialFinds | src/pages/Supplier.tsx:43 | searching for one of a supplier's materials, in any case, finds it |
| ProducerPage.ResolveCoords | src/pages/Producer.tsx:41-57 | always a valid coordinate pair: a gazetteer entry or the centre of the United States |
| ProducerPage.ResolveIgnoresCase | src/pages/Producer.tsx:56 | names equal up to case resolve to the same point |
| ProducerPage.ResolveKnownAndUnknown | src/pages/Producer.tsx:41-57 | a listed city resolves to its entry; a name no city matches resolves to (39.8283, -98.5795) |
| ProducerPage.DenverExamples | src/pages/Producer.tsx:46-57 | "Denver" resolves to Denver; " denver" resolves to the default, as nothing is trimmed |
| ProducerPage.AsWrittenCoords | src/pages/Producer.tsx:41-61 | the lookup as written loses the coordinates exactly when the lower-cased name is a member of `Object.prototype`, that is "constructor" or "__proto__" |
| JsObject.LowerCasedKeyReachesMember | src/pages/Producer.tsx:56 | a lower-cased key names a member of `Object.prototype` iff it is "constructor" or "__proto__" |
| ProducerPage.AsWrittenLosesConstructor | src/pages/Producer.tsx:56-61 | for "Constructor" the written lookup yields undefined coordinates where the default was meant |
| ProducerPage.AsWrittenAgreesElsewhere | src/pages/Producer.tsx:56-57 | on every other name the written lookup agrees with the corrected one |
| ProducerPage.OnSubmit | src/pages/Producer.tsx:50-79 | matches hidden; the new estimate is exactly `getPrediction` of the request built from the form at the resolved point, so it carries that point and the form's type and location; it becomes current and is prepended to the opportunities; the role is unchanged |
| ProducerPage.HandleFindMatches | src/pages/Producer.tsx:81-101 | no change without a current estimate; otherwise matches shown, and only the requested list replaced, by exactly `getMatchedEngineers` or `getMatchedSuppliers` of the current estimate: at most four relevant entries, engineers nearest first |
| ProducerPage.SubmitThenFindEngineers | src/pages/Producer.tsx:50-95 | after a submission, finding engineers lists exactly the engineer matches for the submitted type at the resolved location: relevant engineers, at most four, nearest first |
| ProducerPage.HandleExpressInterest | src/pages/Producer.tsx:103-112 | the current estimate's id, or the empty id without one, paired with the chosen counterpart, acknowledged |
| ProducerPage.InterestAfterSubmitNamesEstimate | src/pages/Producer.tsx:68-105 | after a submission the interest names the submitted estimate |
| AppContext.Initial | src/contexts/AppContext.tsx:18-20 | no role, no estimate, no opportunities |
| AppContext.AddOpportunity | src/contexts/AppContext.tsx:22-24 | one longer; the new opportunity first and the earlier ones after it in order; nothing else changes |
| AppContext.SetUserRole | src/contexts/AppContext.tsx:18 | replaces the role only |
| AppContext.SetCurrentPrediction | src/contexts/AppContext.tsx:19 | replaces the estimate only |
| AppContext.UseApp | src/contexts/AppContext.tsx:42-47 | succeeds iff a provider is present, with its state; otherwise fails with "useApp must be used within AppProvider" |
| AppContext.AddAllPrependsReversed | src/contexts/AppContext.tsx:22-24 | a series of additions leaves the added opportunities newest first in front of the earlier ones |
| AppContext.LatestOpportunityFirst | src/contexts/AppContext.tsx:18-24 | from the initial state the list is exactly the additions, the latest first |
| MainApp.InitialShell | src/pages/MainApp.tsx:15-17 | the shell starts on the landing page with no role and the pitch closed |
| MainApp.StartDemo | src/pages/MainApp.tsx:19-21 | goes to the role selector, nothing else changes |
| MainApp.SelectRole | src/pages/MainApp.tsx:23-26 | records the role and shows its page together; the estimate and opportunities stay |
| MainApp.BackToRoles | src/pages/MainApp.tsx:28-31 | clears the role and shows the selector |
| MainApp.BackToLanding | src/pages/MainApp.tsx:33-36 | clears the role and shows the landing page |
| MainApp.RolePages | src/pages/MainApp.tsx:81-83 | a role's page renders iff the app view is shown with that role |
| MainApp.Step | src/pages/MainApp.tsx:19-62 | a button not on screen changes nothing; no press touches the estimate or the opportunities; a role card on the selector records the role and shows its page; Change Role and Back to Home clear the role; View Pitch and the dialog's close only open and close the pitch |
| MainApp.StepKeepsConsistent | src/pages/MainApp.tsx:19-62 | every press keeps "app view iff a role is chosen" |
| MainApp.RunKeepsConsistent | src/pages/MainApp.tsx:19-62 | so does every series of presses |
| MainApp.OneRolePageOnAppView | src/pages/MainApp.tsx:38-87 | after any presses from the start, the app view renders exactly one role page and the other views none |
| MainApp.SwitchingRoleKeepsData | src/pages/MainApp.tsx:23-31 | Change Role and a new role keep the estimate and the opportunity list |
| PitchModal.NextSlide | src/components/PitchModal.tsx:85-89 | one slide on before the last, unchanged on it; stays on the deck |
| PitchModal.PrevSlide | src/components/PitchModal.tsx:91-95 | one slide back after the first, unchanged on it; stays on the deck |
| PitchModal.PrevDisabled | src/components/PitchModal.tsx:122 | Previous is disabled exactly where pressing it would change nothing |
| PitchModal.ShowsNext | src/components/PitchModal.tsx:127-136 | Next is offered exactly where it moves; elsewhere the button is Close |
| PitchModal.Title | src/components/PitchModal.tsx:11-80 | every slide on the deck has one of the three titles |
| PitchModal.StartsOnDeck | src/components/PitchModal.tsx:83-95 | when the dialog is first mounted its slide index is 0, titled "The Problem", with Previous disabled; every press series from there stays on the deck |
| PitchModal.RunStaysOnDeck | src/components/PitchModal.tsx:83-95 | from a slide on the deck, any presses stay on it |
| PitchModal.NextPressesStopAtLast | src/components/PitchModal.tsx:85-89 | k presses of Next from slide i reach min(i + k, 2) |
| PitchModal.PreviousPressesStopAtFirst | src/components/PitchModal.tsx:91-95 | k presses of Previous from slide i reach max(i - k, 0) |
| Text.ContainsIgnoreCaseUpToCase | src/pages/Engineer.tsx:46-47 | the case-insensitive test sees only the lower-cased strings |
| Text.LowerIdempotent | src/pages/Producer.tsx:56 | lower-casing twice is lower-casing once |
| Text.DecimalString | src/api/mockApi.ts:41 | the id suffix is non-empty, all digits, and reads back as the timestamp |
| Text.DecimalStringInjective | src/api/mockApi.ts:41 | different timestamps give different digit strings |
| Seqs.Filter | src/api/mockApi.ts:73-78 | an order-preserving subsequence holding every passing element as often as it occurs and nothing else |
| Seqs.FilterFilter | src/pages/Engineer.tsx:42-57 | two filters in a row are one filter by the conjunction |
| Seqs.FilterOfPrefix | src/api/mockApi.ts:91 | filtering a prefix gives a prefix of the filtered whole |
| Seqs.Take | src/api/mockApi.ts:91 | slice(0, n) is a prefix of at most n elements, the whole list when shorter |

## Left out

- Timing and I/O: the simulated network delays, the async/Promise wrapping, and console logging in the API. Every call is a synchronous pure function.
- `Math.random()` and `Date.now()`: these are parameters.
- Loading flags, toasts, the clipboard copy in the supplier contact button, and the quote button's toast.
- The form library's validation. The pitch dialog's open flag is modelled, but not what the dialog draws.
- The capacity field: it is carried in the request and never used.
- Presentation components (MapView, MatchList, PredictionCard, Landing, RoleSelector): markup over the modelled data.
- Binary floating point. Outputs are exact tenths and coordinates are exact reals. Where a binary double sits just off a half, `toFixed` may round it the other way; that is not modelled.
- The estimator's `basePotential[request.energyType]` is modelled for the four energy types only. The TypeScript type of `energyType` admits no other value; a prototype member's name there would make `toFixed` throw or give "NaN".
- ProducerPage.OnSubmit: uses the corrected lookup (`ResolveCoords`). For a location that lower-cases to "constructor" or "__proto__", the source's estimate has undefined coordinates (see "## Findings"). `ProducerPage.SubmitThenFindEngineers` and `ProducerPage.InterestAfterSubmitNamesEstimate` inherit this.
- PitchModal.StartsOnDeck: covers the dialog's first mount only. The dialog stays mounted while the app view is shown, and only its open flag changes. Closing and reopening it therefore keeps the slide it was on, so after Close on the last slide it reopens on "Roadmap & Vision". Leaving the app view unmounts the dialog, so the next role page starts it at slide 0 again. The model has no reset on open, and nothing claims one.
- MockApi.SparkPoint: rounds halves up, where `toFixed` rounds them away from zero. The two differ only for negative predictions, and the estimator never produces one.
- Text.Lower: ASCII letters only, where `toLowerCase` also folds other Unicode letters.
- The opportunity and engineer selection clicks: they only set which record the page highlights. `EngineerPage.HandleExpressInterest` takes the selection as its argument.
- `getOpportunities`, `getEngineers` and `getSuppliers` return copies of the seed catalogs (`MockApi.GetOpportunities` and the others). They have no contract beyond that identity.

## Findings

| source | as written | input that shows it | evidently intended | confidence | as-written member | corrected member |
|---|---|---|---|---|---|---|
| src/pages/Producer.tsx:41-61 | `cityCoords` is a plain object literal. `cityCoords[cityKey] \|\| default` therefore also finds the members every object inherits. Such a member is truthy, so the default is skipped, and indexing it with 0 and 1 gives undefined coordinates. | location "Constructor" (lower-cased to "constructor"), or "__proto__" | an unknown location falls back to the default coordinates (39.8283, -98.5795) | medium, not executed | ProducerPage.AsWrittenLosesConstructor | ProducerPage.ResolveCoords |
