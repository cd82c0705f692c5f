# gbeduflow frontend core in Dafny

This project models the logic of the gbeduflow web frontend, a platform where
university students rate Afrobeats artists ("vibe checks") and artists and
promoters buy campus campaigns, reports and placements. It covers:

- **The artist store** (`stores/artistStore.ts`). It is a class with three
  sequence fields: artists, vibe checks and clusters. It has the replace,
  append and merge-update mutators. `getTopArtists` sorts the stored array in
  place (a stable sort by descending AEHI score) before it slices. The two
  filter queries are also modelled.
- **The five form wizards**: artist onboarding, vibe check, boosted challenge,
  deep-dive report and featured placement. Each is a class holding its step,
  its form data and its submitting flag. The methods are the component's
  handlers and button clicks. The pure price, reach and validity
  calculations are functions, with lemmas about them.
- **The dashboard and the university picker**: the search filters, the
  mock-data seeding of an empty store, the rank badges and the dropdown
  state.
- **The three charts**: score tiers and their labels and colours, trend
  direction, cluster colour and icon priority, keyword and country
  truncation, hot-campus and total-check figures.

Shared helpers live in module `Common` (common.dfy):
- `Option`;
- `trim` and ASCII `toLowerCase`;
- substring search;
- an order-preserving `Filter`;
- integer sums over a sequence.

Scores are `real`. Prices, counts, ratings and durations are `int`. Ids and
timestamps, which the source draws from `Date.now()` and `new Date()`, are
parameters of the methods that build records.

## Model

| member | source | states |
|---|---|---|
| Common.TrimNonEmptyIff | gbeduflow-frontend/src/components/forms/ArtistOnboardingForm.tsx:78 | `s.trim() !== ''` holds exactly when `s` has a character that is not white space |
| Common.ContainsIff | gbeduflow-frontend/src/components/auth/UniversitySelector.tsx:45-47 | `includes` holds exactly when the term occurs at some position |
| Common.FilterExact | gbeduflow-frontend/src/stores/artistStore.ts:126 | `filter` keeps the order and keeps every element that passes exactly as many times as it occurs, and drops the rest |
| Common.FilterAppend | gbeduflow-frontend/src/stores/artistStore.ts:131 | filtering a concatenation is concatenating the filtered parts |
| ArtistStore.MergeFieldwise | gbeduflow-frontend/src/stores/artistStore.ts:85 | after `{ ...artist, ...updates }`, each field holds the update's value where the update has the key, and the old value elsewhere |
| ArtistStore.FieldsDetermineArtist | gbeduflow-frontend/src/stores/artistStore.ts:3-15 | two artists that agree on every field are the same record |
| ArtistStore.CombinePatchesFieldwise | gbeduflow-frontend/src/stores/artistStore.ts:82-88 | the spread of two updates takes the second update's value where it has the key, and the first update's value otherwise |
| ArtistStore.MergeTwice | gbeduflow-frontend/src/stores/artistStore.ts:82-88 | two updates applied in turn equal one update with their combination |
| ArtistStore.MergeEmpty | gbeduflow-frontend/src/stores/artistStore.ts:85 | an update with no keys changes nothing |
| ArtistStore.UpdateWhere | gbeduflow-frontend/src/stores/artistStore.ts:84-86 | same length; every artist with the id is merged with the update; every other artist stays in place unchanged |
| ArtistStore.UpdateUnknownIdIsNoop | gbeduflow-frontend/src/stores/artistStore.ts:82-88 | an id that no artist carries leaves the collection unchanged |
| ArtistStore.UpdateWhereEmptyPatch | gbeduflow-frontend/src/stores/artistStore.ts:82-88 | an empty update leaves the collection unchanged |
| ArtistStore.InsertByScore | gbeduflow-frontend/src/stores/artistStore.ts:120 | inserting one artist adds exactly that artist to the multiset |
| ArtistStore.SortByScore | gbeduflow-frontend/src/stores/artistStore.ts:120 | the sort is a permutation of its input |
| ArtistStore.InsertKeepsOrder | gbeduflow-frontend/src/stores/artistStore.ts:120 | inserting into a score-ordered list keeps it score-ordered |
| ArtistStore.InsertWithScore | gbeduflow-frontend/src/stores/artistStore.ts:120 | the inserted artist comes before all the others of its own score |
| ArtistStore.SortWithScore | gbeduflow-frontend/src/stores/artistStore.ts:120 | artists with equal scores keep their relative order (stability) |
| ArtistStore.SortIsOrdered | gbeduflow-frontend/src/stores/artistStore.ts:120 | the sort's result has non-increasing AEHI scores |
| ArtistStore.SortByScoreCorrect | gbeduflow-frontend/src/stores/artistStore.ts:119-120 | the sort is a permutation, in non-increasing score order, and keeps equal scores in their earlier order |
| ArtistStore.WithScoreHead | gbeduflow-frontend/src/stores/artistStore.ts:120 | the equal-score run of a list is its head's contribution followed by the run of its tail |
| ArtistStore.HeadScoreBounded | gbeduflow-frontend/src/stores/artistStore.ts:120 | in two lists with the same equal-score runs, where the second is ordered, the first list's head scores no higher than the second list's head |
| ArtistStore.StableOrderUnique | gbeduflow-frontend/src/stores/artistStore.ts:120 | two score-ordered lists with the same equal-score runs are equal, so there is one stable sort |
| ArtistStore.SortByScoreIsTheStableSort | gbeduflow-frontend/src/stores/artistStore.ts:120 | any ordered rearrangement that keeps equal scores in their order is the model's sort |
| ArtistStore.SortIdempotent | gbeduflow-frontend/src/stores/artistStore.ts:117-122 | sorting twice equals sorting once, so repeated `getTopArtists` calls agree |
| ArtistStore.SortKeepsOrderedList | gbeduflow-frontend/src/stores/artistStore.ts:120 | a list already in score order is left as it is |
| ArtistStore.TopArtistsSlice | gbeduflow-frontend/src/stores/artistStore.ts:121 | every limit returns a prefix of the sorted list: a limit of at least `n` returns all of it, 0 returns nothing, and a negative limit `-k` leaves out exactly the last `min(k, n)` artists, as `slice` counts a negative end from the back |
| ArtistStore.TopArtistsCorrect | gbeduflow-frontend/src/stores/artistStore.ts:117-122 | for a limit of at least 0, the result has `min(limit, n)` artists in score order, drawn from the stored ones, and none of them scores below an artist left out |
| ArtistStore.ArtistsByUniversity | gbeduflow-frontend/src/stores/artistStore.ts:124-127 | in stored order, exactly the artists whose university equals `u`; an artist with no university never matches |
| ArtistStore.VibeChecksByArtist | gbeduflow-frontend/src/stores/artistStore.ts:129-132 | in insertion order, exactly the vibe checks of that artist |
| ArtistStore.VibeChecksOfUnknownArtist | gbeduflow-frontend/src/stores/artistStore.ts:129-132 | an artist with no vibe checks gets an empty list |
| ArtistStore.VibeChecksInInsertionOrder | gbeduflow-frontend/src/stores/artistStore.ts:94-98 | an appended vibe check comes last among its artist's checks |
| ArtistStore.Store.constructor | gbeduflow-frontend/src/stores/artistStore.ts:63-66 | all three collections start empty |
| ArtistStore.Store.SetArtists | gbeduflow-frontend/src/stores/artistStore.ts:72-74 | replaces the artists and touches nothing else |
| ArtistStore.Store.AddArtist | gbeduflow-frontend/src/stores/artistStore.ts:76-80 | appends at the end: the length grows by one, earlier artists are unchanged, there is no duplicate check, and the other collections stay as they were |
| ArtistStore.Store.UpdateArtist | gbeduflow-frontend/src/stores/artistStore.ts:82-88 | the new artists are `UpdateWhere` of the old ones; the length is kept; an unknown id is a no-op; the other collections stay as they were |
| ArtistStore.Store.SetVibeChecks | gbeduflow-frontend/src/stores/artistStore.ts:90-92 | replaces the vibe checks and touches nothing else |
| ArtistStore.Store.AddVibeCheck | gbeduflow-frontend/src/stores/artistStore.ts:94-98 | appends at the end without checking the rating or the artist |
| ArtistStore.Store.SetClusters | gbeduflow-frontend/src/stores/artistStore.ts:100-102 | replaces the clusters and touches nothing else |
| ArtistStore.Store.GetTopArtists | gbeduflow-frontend/src/stores/artistStore.ts:117-122 | the stored artists become their stable sort (a permutation in score order); the result is a prefix of the new state |
| ArtistStore.Store.GetArtistsByUniversity | gbeduflow-frontend/src/stores/artistStore.ts:124-127 | the university filter over the current artists, in stored order |
| ArtistStore.Store.GetVibeChecksByArtist | gbeduflow-frontend/src/stores/artistStore.ts:129-132 | the artist filter over the current vibe checks, in insertion order |
| Dashboard.FilterByName | gbeduflow-frontend/src/pages/Dashboard.tsx:79-81 | the top artists whose lower-cased name contains the lower-cased term, in order, each exactly as often as listed |
| Dashboard.EmptySearchKeepsAll | gbeduflow-frontend/src/pages/Dashboard.tsx:79-81 | an empty search keeps every top artist |
| Dashboard.FilteredAtMostTen | gbeduflow-frontend/src/pages/Dashboard.tsx:78-81 | the grid shows at most ten artists |
| Dashboard.FilteredArtists | gbeduflow-frontend/src/pages/Dashboard.tsx:78-81 | a render sorts the store in place and shows the name filter of its first ten, at most ten artists |
| Dashboard.SeedMockArtists | gbeduflow-frontend/src/pages/Dashboard.tsx:72-75 | the demonstration artists are loaded only into an empty store; a non-empty store is left alone |
| Dashboard.MockArtistsOrdered | gbeduflow-frontend/src/pages/Dashboard.tsx:19-70 | the demonstration artists are listed in non-increasing score order |
| Dashboard.MockArtistsRanked | gbeduflow-frontend/src/pages/Dashboard.tsx:19-78 | once the effect has seeded the empty store, the next render's top ten are the demonstration artists in their listed order (the very first render, before the effect, sees the empty store) |
| Dashboard.RankBadges | gbeduflow-frontend/src/pages/Dashboard.tsx:219 | one badge per shown artist, numbered consecutively from 1 to n |
| Dashboard.EmptyStateIffNoBadges | gbeduflow-frontend/src/pages/Dashboard.tsx:274 | "No artists found" shows exactly when no rank badge does |
| Dashboard.TierCorrect | gbeduflow-frontend/src/pages/Dashboard.tsx:93-105 | scores from 90 are tier 3, from 70 at least tier 2, from 50 at least tier 1; the text and background classes are the tier's entries, and a higher score never gets a lower tier |
| Dashboard.ColorAndBackgroundAgree | gbeduflow-frontend/src/pages/Dashboard.tsx:93-105 | two scores get the same text class exactly when they get the same background class, exactly when their tiers are equal |
| UniversitySelector.Search | gbeduflow-frontend/src/components/auth/UniversitySelector.tsx:44-48 | the universities whose name, location or country contains the term (case-insensitive), in list order, each kept as often as listed |
| UniversitySelector.EmptyTermKeepsAll | gbeduflow-frontend/src/components/auth/UniversitySelector.tsx:44-48 | an empty term keeps the whole list |
| UniversitySelector.EmptyTermListsFifteen | gbeduflow-frontend/src/components/auth/UniversitySelector.tsx:18-34 | an empty term lists all fifteen universities |
| UniversitySelector.SearchIgnoresCase | gbeduflow-frontend/src/components/auth/UniversitySelector.tsx:44-48 | lower-casing the term first gives the same result |
| UniversitySelector.UniversityIdsDistinct | gbeduflow-frontend/src/components/auth/UniversitySelector.tsx:18-34 | the fifteen university ids are pairwise distinct |
| UniversitySelector.Selector.constructor | gbeduflow-frontend/src/components/auth/UniversitySelector.tsx:41-42 | starts closed, with an empty search, over the fixed list |
| UniversitySelector.Selector.Toggle | gbeduflow-frontend/src/components/auth/UniversitySelector.tsx:59 | flips the open state and keeps the search |
| UniversitySelector.Selector.SetSearchTerm | gbeduflow-frontend/src/components/auth/UniversitySelector.tsx:41-48 | sets the search and keeps the open state |
| UniversitySelector.Selector.HandleSelect | gbeduflow-frontend/src/components/auth/UniversitySelector.tsx:50-54 | hands the chosen university on, closes the dropdown and clears the search, so every university is listed again |
| AEHIScore.Tier | gbeduflow-frontend/src/components/charts/AEHIScore.tsx:32-46 | the score's tier at the thresholds 90, 70, 50 and 30 is between 0 and 4 |
| AEHIScore.LabelFollowsTier | gbeduflow-frontend/src/components/charts/AEHIScore.tsx:40-46 | the label is Fire, Hot, Warm, Cool or Cold by tier, and a higher score never gets a lower tier |
| AEHIScore.ColorAndLabelAgree | gbeduflow-frontend/src/components/charts/AEHIScore.tsx:32-46 | two scores get the same colour exactly when they get the same label, exactly when their tiers are equal |
| AEHIScore.TrendDirection | gbeduflow-frontend/src/components/charts/AEHIScore.tsx:48-70 | with a previous score, the icon and text are up exactly when the score rose, down exactly when it fell, and flat (a zero difference) exactly when it is equal |
| AEHIScore.IconAndColorAgree | gbeduflow-frontend/src/components/charts/AEHIScore.tsx:48-70 | the text colour is the colour of the icon shown, and muted when there is no icon |
| AEHIScore.NoPreviousNoTrend | gbeduflow-frontend/src/components/charts/AEHIScore.tsx:133 | an absent or zero previous score gives no icon, no text and no trend row |
| LDSHeatmap.Tier | gbeduflow-frontend/src/components/charts/LDSHeatmap.tsx:25-31 | the tier is the highest floor (90, 70, 50, 30) that the score reaches |
| LDSHeatmap.ColorFollowsTier | gbeduflow-frontend/src/components/charts/LDSHeatmap.tsx:25-31 | the colour class is the tier's class, and the floors are inclusive lower bounds |
| LDSHeatmap.TierMonotone | gbeduflow-frontend/src/components/charts/LDSHeatmap.tsx:25-31 | a higher score never maps to a lower tier |
| LDSHeatmap.ColorDeterminesTier | gbeduflow-frontend/src/components/charts/LDSHeatmap.tsx:25-31 | two scores get the same colour exactly when their tiers are equal |
| LDSHeatmap.HotCampusCount | gbeduflow-frontend/src/components/charts/LDSHeatmap.tsx:139 | the hot count never exceeds the number of campuses |
| LDSHeatmap.HotCampusCountCorrect | gbeduflow-frontend/src/components/charts/LDSHeatmap.tsx:139 | the count equals the number of campuses exactly when all are hot; hot means tier 3 or above; no hot campus gives 0 |
| LDSHeatmap.HotCampusCountAppend | gbeduflow-frontend/src/components/charts/LDSHeatmap.tsx:139 | one more campus raises the count by one exactly when that campus is hot |
| LDSHeatmap.TotalChecksAppend | gbeduflow-frontend/src/components/charts/LDSHeatmap.tsx:145 | the total of a concatenation is the sum of the totals |
| LDSHeatmap.TotalChecksSplit | gbeduflow-frontend/src/components/charts/LDSHeatmap.tsx:139-145 | the total is the hot campuses' checks plus the other campuses' checks |
| LDSHeatmap.TotalChecksNonNegative | gbeduflow-frontend/src/components/charts/LDSHeatmap.tsx:145 | the total is never negative when no count is |
| AEIClusters.ClusterColorCorrect | gbeduflow-frontend/src/components/charts/AEIClusters.tsx:28-37 | every name gets one of the five classes; an unknown name is drawn like "blue"; the pink class belongs to "pink" alone |
| AEIClusters.FirstMatch | gbeduflow-frontend/src/components/charts/AEIClusters.tsx:39-46 | the position of the first keyword that occurs, with no earlier keyword occurring |
| AEIClusters.ClusterIconIsFirstMatch | gbeduflow-frontend/src/components/charts/AEIClusters.tsx:39-46 | the icon is the icon of the first keyword in priority order that occurs in the lower-cased name, and 🎶 when none occurs |
| AEIClusters.AfricanWins | gbeduflow-frontend/src/components/charts/AEIClusters.tsx:40-41 | a name mentioning "african" in any case gets 🌍, whatever else follows it |
| AEIClusters.Shown | gbeduflow-frontend/src/components/charts/AEIClusters.tsx:94-113 | `slice(0, n)` is a prefix of length `min(n, length)` |
| AEIClusters.Hidden | gbeduflow-frontend/src/components/charts/AEIClusters.tsx:102-114 | a "+N more" count exists exactly when there are more than `n` items |
| AEIClusters.ShownAndHiddenCoverAll | gbeduflow-frontend/src/components/charts/AEIClusters.tsx:94-114 | shown plus hidden equals the total; when something is hidden, exactly `n` are shown and N is positive |
| AEIClusters.KeywordRow | gbeduflow-frontend/src/components/charts/AEIClusters.tsx:94-106 | at most five keywords; with more than five, the first five followed by "+(length − 5) more" |
| AEIClusters.CountriesLineCorrect | gbeduflow-frontend/src/components/charts/AEIClusters.tsx:113-114 | "Top: " and up to three countries joined by ", ", with " +(length − 3) more" exactly when there are more than three |
| AEIClusters.TotalArtistsCorrect | gbeduflow-frontend/src/components/charts/AEIClusters.tsx:166 | the artist total is additive over clusters and never negative when no count is |
| BoostedChallengeForm.ToggleFlips | gbeduflow-frontend/src/components/forms/BoostedChallengeForm.tsx:49-56 | the campus's membership flips, no other id's membership changes, and an unselected campus is appended at the end |
| BoostedChallengeForm.ToggleTwice | gbeduflow-frontend/src/components/forms/BoostedChallengeForm.tsx:49-56 | toggling an unselected campus twice restores the selection |
| BoostedChallengeForm.ToggleNoDuplicates | gbeduflow-frontend/src/components/forms/BoostedChallengeForm.tsx:49-56 | a selection without duplicates stays without duplicates |
| Common.Find | gbeduflow-frontend/src/components/forms/BoostedChallengeForm.tsx:58-70 | `find` (on the campus table here and on the placement types in `FeaturedPlacementForm.tsx:68-70`) gives the first element with that id (no element before it has the id), or nothing exactly when no element has it |
| BoostedChallengeForm.AtMostOnce | gbeduflow-frontend/src/components/forms/BoostedChallengeForm.tsx:58-63 | in a selection without duplicates, one id contributes at most its own amount |
| BoostedChallengeForm.EmptyCatalogSum | gbeduflow-frontend/src/components/forms/BoostedChallengeForm.tsx:58-63 | with no campus known, every id adds 0 |
| BoostedChallengeForm.SelectionBound | gbeduflow-frontend/src/components/forms/BoostedChallengeForm.tsx:58-70 | a selection without duplicates sums to no more than the whole catalogue |
| BoostedChallengeForm.OthersBound | gbeduflow-frontend/src/components/forms/BoostedChallengeForm.tsx:58-70 | the ids other than the first campus's sum to no more than the rest of the catalogue |
| BoostedChallengeForm.CatalogPrices | gbeduflow-frontend/src/components/forms/BoostedChallengeForm.tsx:36-43 | every campus costs at least 2500, and the six cost 20800 together |
| BoostedChallengeForm.CatalogReach | gbeduflow-frontend/src/components/forms/BoostedChallengeForm.tsx:36-43 | every campus has at least 12000 students, and the six have 187000 together |
| BoostedChallengeForm.CostAndReachBounds | gbeduflow-frontend/src/components/forms/BoostedChallengeForm.tsx:58-70 | without duplicates, the cost is in [0, 20800] and the reach in [0, 187000] |
| BoostedChallengeForm.MeasureNonNegative | gbeduflow-frontend/src/components/forms/BoostedChallengeForm.tsx:58-70 | with non-negative campus figures, the sum is never negative; unknown ids add 0 |
| BoostedChallengeForm.KnownCampusPrice | gbeduflow-frontend/src/components/forms/BoostedChallengeForm.tsx:36-43 | a listed campus adds at least 2500 |
| BoostedChallengeForm.NonEmptySelectionCost | gbeduflow-frontend/src/components/forms/BoostedChallengeForm.tsx:58-63 | a non-empty selection of listed campuses costs at least 2500 |
| BoostedChallengeForm.CostIgnoresDetails | gbeduflow-frontend/src/components/forms/BoostedChallengeForm.tsx:45-70 | a `handleInputChange` on the details step sets only its own field, never the budget, the audience or the selection, so it never changes the cost or the reach |
| BoostedChallengeForm.CanProceedCorrect | gbeduflow-frontend/src/components/forms/BoostedChallengeForm.tsx:292-303 | step 1 needs a title and a description that are more than white space; step 2 at least one campus; step 3 always; no other step |
| BoostedChallengeForm.Wizard.constructor | gbeduflow-frontend/src/components/forms/BoostedChallengeForm.tsx:25-34 | starts at step 1 with the initial form |
| BoostedChallengeForm.Wizard.ChangeDetails | gbeduflow-frontend/src/components/forms/BoostedChallengeForm.tsx:45-47 | sets one field of the form |
| BoostedChallengeForm.Wizard.ToggleCampus | gbeduflow-frontend/src/components/forms/BoostedChallengeForm.tsx:49-56 | the selection becomes its toggle, and nothing else changes |
| BoostedChallengeForm.Wizard.Next | gbeduflow-frontend/src/components/forms/BoostedChallengeForm.tsx:354-366 | a no-op while the step cannot proceed; advances below step 3; at step 3, emits the campaign with the computed cost and reach, with the cost in [2500, 20800] |
| BoostedChallengeForm.Wizard.Back | gbeduflow-frontend/src/components/forms/BoostedChallengeForm.tsx:348 | goes back one step, or cancels at step 1 |
| DeepDiveReportForm.PriceOf | gbeduflow-frontend/src/components/forms/DeepDiveReportForm.tsx:74-86 | the price of the first option with the id, and 0 when there is none |
| DeepDiveReportForm.TablePrices | gbeduflow-frontend/src/components/forms/DeepDiveReportForm.tsx:28-68 | the price of each of the four report types and four time ranges |
| DeepDiveReportForm.DefaultCost | gbeduflow-frontend/src/components/forms/DeepDiveReportForm.tsx:17-26 | the initial comprehensive, 90-day configuration costs 50000 |
| DeepDiveReportForm.OfferedReportTypePrice | gbeduflow-frontend/src/components/forms/DeepDiveReportForm.tsx:28-61 | an offered report type costs 25000 to 50000 |
| DeepDiveReportForm.OfferedTimeRangePrice | gbeduflow-frontend/src/components/forms/DeepDiveReportForm.tsx:62-67 | an offered time range adds 0 to 20000, and 30d and 90d add nothing |
| DeepDiveReportForm.OfferedCostRange | gbeduflow-frontend/src/components/forms/DeepDiveReportForm.tsx:28-86 | over the offered options the cost lies in [25000, 70000], and both ends are reached |
| DeepDiveReportForm.UnknownOptionCostsNothing | gbeduflow-frontend/src/components/forms/DeepDiveReportForm.tsx:82-86 | a report type or time range that is not in its table adds 0 |
| DeepDiveReportForm.ChangeTouchesOneField | gbeduflow-frontend/src/components/forms/DeepDiveReportForm.tsx:70-72 | a change sets its own field and leaves the other seven as they were |
| DeepDiveReportForm.OnlyTypeAndRangeCost | gbeduflow-frontend/src/components/forms/DeepDiveReportForm.tsx:82-86 | the artist, the checkboxes, the format and the delivery method never change the price |
| DeepDiveReportForm.CanProceedCorrect | gbeduflow-frontend/src/components/forms/DeepDiveReportForm.tsx:391-404 | step 1 needs an artist id that is more than white space; step 2 a report type; step 3 a time range; step 4 always; no other step |
| DeepDiveReportForm.Wizard.constructor | gbeduflow-frontend/src/components/forms/DeepDiveReportForm.tsx:16-26 | starts at step 1 with the initial form |
| DeepDiveReportForm.Wizard.HandleInputChange | gbeduflow-frontend/src/components/forms/DeepDiveReportForm.tsx:70-72 | applies the change to the form and keeps the step |
| DeepDiveReportForm.Wizard.Next | gbeduflow-frontend/src/components/forms/DeepDiveReportForm.tsx:456-466 | a no-op while the step cannot proceed; advances below step 4; at step 4, emits the order priced by `TotalCost`, in [25000, 70000] |
| DeepDiveReportForm.Wizard.Back | gbeduflow-frontend/src/components/forms/DeepDiveReportForm.tsx:450 | goes back one step, or cancels at step 1 |
| FeaturedPlacementForm.TypePrices | gbeduflow-frontend/src/components/forms/FeaturedPlacementForm.tsx:29-62 | each of the four type ids finds its own table entry |
| FeaturedPlacementForm.CostCorrect | gbeduflow-frontend/src/components/forms/FeaturedPlacementForm.tsx:449 | the cost is the type's daily price (15000, 25000, 20000 or 30000) times the duration |
| FeaturedPlacementForm.UnknownTypeCostsNothing | gbeduflow-frontend/src/components/forms/FeaturedPlacementForm.tsx:449 | an unknown type costs 0 |
| FeaturedPlacementForm.OfferedCostRange | gbeduflow-frontend/src/components/forms/FeaturedPlacementForm.tsx:29-62 | over the offered types and durations {3, 7, 14, 30}, the cost lies in [45000, 900000], and both ends are reached |
| FeaturedPlacementForm.CostMonotoneInDuration | gbeduflow-frontend/src/components/forms/FeaturedPlacementForm.tsx:292 | a longer duration never costs less |
| FeaturedPlacementForm.DigitPrefix | gbeduflow-frontend/src/components/forms/FeaturedPlacementForm.tsx:280 | the longest leading run of decimal digits |
| FeaturedPlacementForm.ParseInt | gbeduflow-frontend/src/components/forms/FeaturedPlacementForm.tsx:280 | `parseInt` gives a number only when the text holds a digit; the value it gives is stated by the lemmas below |
| FeaturedPlacementForm.Unsigned | gbeduflow-frontend/src/components/forms/FeaturedPlacementForm.tsx:280 | dropping a leading sign leaves a suffix of the text |
| FeaturedPlacementForm.DigitsOfDecimal | gbeduflow-frontend/src/components/forms/FeaturedPlacementForm.tsx:280 | reading back a number's decimal digits gives the number |
| FeaturedPlacementForm.DigitPrefixAll | gbeduflow-frontend/src/components/forms/FeaturedPlacementForm.tsx:280 | a run made only of digits is its own digit prefix |
| FeaturedPlacementForm.ParseIntOfDigits | gbeduflow-frontend/src/components/forms/FeaturedPlacementForm.tsx:280 | a non-empty run of digits parses to its value |
| FeaturedPlacementForm.ParseBudgetOfDecimal | gbeduflow-frontend/src/components/forms/FeaturedPlacementForm.tsx:280 | a typed non-negative number comes back as that number |
| FeaturedPlacementForm.ParseBudgetNoDigits | gbeduflow-frontend/src/components/forms/FeaturedPlacementForm.tsx:280 | text without digits becomes 0 |
| FeaturedPlacementForm.ParseIntSkipsSpace | gbeduflow-frontend/src/components/forms/FeaturedPlacementForm.tsx:280 | leading white space never changes what `parseInt` reads |
| FeaturedPlacementForm.ParseIntOfNumber | gbeduflow-frontend/src/components/forms/FeaturedPlacementForm.tsx:280 | white space, digits and then text not starting with a digit read as the digits' value, which becomes the budget; the trailing text is ignored |
| FeaturedPlacementForm.ParseIntOfSignedNumber | gbeduflow-frontend/src/components/forms/FeaturedPlacementForm.tsx:280 | the same after one `-` or `+`: a minus gives the negated value, also as the budget |
| FeaturedPlacementForm.ParseIntNoNumber | gbeduflow-frontend/src/components/forms/FeaturedPlacementForm.tsx:280 | white space and an optional sign followed by no digit (such as `"abc5"`) give NaN, so the budget is 0; with the two lemmas above this covers every text |
| FeaturedPlacementForm.ChangeTouchesOneField | gbeduflow-frontend/src/components/forms/FeaturedPlacementForm.tsx:64-66 | a change sets its own field, with the budget parsed, and leaves the others as they were |
| FeaturedPlacementForm.BudgetNeverPriced | gbeduflow-frontend/src/components/forms/FeaturedPlacementForm.tsx:280-292 | no change other than type or duration, the budget included, alters the cost |
| FeaturedPlacementForm.CanProceedCorrect | gbeduflow-frontend/src/components/forms/FeaturedPlacementForm.tsx:377-390 | step 1 needs a type; step 2 a title and a description that are more than white space; step 3 a positive duration; step 4 always; no other step |
| FeaturedPlacementForm.Wizard.constructor | gbeduflow-frontend/src/components/forms/FeaturedPlacementForm.tsx:16-27 | starts at step 1 with the initial form |
| FeaturedPlacementForm.Wizard.HandleInputChange | gbeduflow-frontend/src/components/forms/FeaturedPlacementForm.tsx:64-66 | applies the change to the form and keeps the step |
| FeaturedPlacementForm.Wizard.Next | gbeduflow-frontend/src/components/forms/FeaturedPlacementForm.tsx:442-453 | a no-op while the step cannot proceed; advances below step 4; at step 4, emits the placement with the cost shown at review, in [45000, 900000] |
| FeaturedPlacementForm.Wizard.Back | gbeduflow-frontend/src/components/forms/FeaturedPlacementForm.tsx:436 | goes back one step, or cancels at step 1 |
| ArtistOnboardingForm.IsStepValidCorrect | gbeduflow-frontend/src/components/forms/ArtistOnboardingForm.tsx:75-87 | step 1 needs a name that is more than white space; step 2 a YouTube or TikTok link that is (Instagram alone is not enough); step 3 both; no other step |
| ArtistOnboardingForm.ValidityIgnoresInstagramAndBio | gbeduflow-frontend/src/components/forms/ArtistOnboardingForm.tsx:75-87 | the Instagram link and the bio never affect validity |
| ArtistOnboardingForm.NewArtistCorrect | gbeduflow-frontend/src/components/forms/ArtistOnboardingForm.tsx:47-58 | the new artist copies the name and the three links, has all scores 0 and no university, carries the two separate clock readings as its creation and update times, and does not depend on the bio |
| ArtistOnboardingForm.NewArtistInNoUniversity | gbeduflow-frontend/src/components/forms/ArtistOnboardingForm.tsx:47-60 | adding an onboarded artist changes no university's artist list |
| ArtistOnboardingForm.ChangeTouchesOneField | gbeduflow-frontend/src/components/forms/ArtistOnboardingForm.tsx:24-26 | a change sets its own field and leaves the other four as they were |
| ArtistOnboardingForm.Wizard.constructor | gbeduflow-frontend/src/components/forms/ArtistOnboardingForm.tsx:13-21 | starts at step 1 with an empty form, not submitting |
| ArtistOnboardingForm.Wizard.HandleInputChange | gbeduflow-frontend/src/components/forms/ArtistOnboardingForm.tsx:24-26 | applies the change to the form and keeps the step |
| ArtistOnboardingForm.Wizard.HandleNext | gbeduflow-frontend/src/components/forms/ArtistOnboardingForm.tsx:28-32 | moves forward only below step 3, so the step stays in [1, 3] |
| ArtistOnboardingForm.Wizard.HandleBack | gbeduflow-frontend/src/components/forms/ArtistOnboardingForm.tsx:34-38 | moves back only above step 1, so the step stays in [1, 3] |
| ArtistOnboardingForm.Wizard.ClickNext | gbeduflow-frontend/src/components/forms/ArtistOnboardingForm.tsx:280-286 | the Next button advances exactly when the step is below 3 and valid |
| ArtistOnboardingForm.Wizard.HandleSubmit | gbeduflow-frontend/src/components/forms/ArtistOnboardingForm.tsx:40-67 | the artist passed to `addArtist` is the one handed to `onComplete`; it is appended to the store; the submitting flag ends false; the form is kept |
| ArtistOnboardingForm.Wizard.ClickSubmit | gbeduflow-frontend/src/components/forms/ArtistOnboardingForm.tsx:288-292 | submits exactly when at step 3, valid and not already submitting, so every stored artist has a real name and a YouTube or TikTok link |
| VibeCheckForm.OptionalTextCorrect | gbeduflow-frontend/src/components/forms/VibeCheckForm.tsx:39-40 | comment and video link are absent exactly when all white space; when present they are trimmed; trimming again changes nothing |
| VibeCheckForm.TrimIdempotent | gbeduflow-frontend/src/components/forms/VibeCheckForm.tsx:39-40 | trimming twice equals trimming once |
| VibeCheckForm.UniversityOfCorrect | gbeduflow-frontend/src/components/forms/VibeCheckForm.tsx:41 | the stored university is never empty; it is "Unknown" exactly when the user's is absent, empty or "Unknown" |
| VibeCheckForm.RatingTextCorrect | gbeduflow-frontend/src/components/forms/VibeCheckForm.tsx:60-69 | ratings 1 to 5 have five distinct labels, none equal to the prompt; every other value shows "Rate this artist" |
| VibeCheckForm.RatingColorMonotone | gbeduflow-frontend/src/components/forms/VibeCheckForm.tsx:71-75 | red up to 2 (0 included), yellow at 3, accent above; a higher rating never gets a colder colour |
| VibeCheckForm.FilledStars | gbeduflow-frontend/src/components/forms/VibeCheckForm.tsx:107-110 | at most `n` of the first `n` stars are filled |
| VibeCheckForm.FilledStarsIsRating | gbeduflow-frontend/src/components/forms/VibeCheckForm.tsx:107-110 | a rating of 0 to n fills exactly that many stars |
| VibeCheckForm.FilledStarsAll | gbeduflow-frontend/src/components/forms/VibeCheckForm.tsx:107-110 | a rating of at least n fills all n stars |
| VibeCheckForm.Form.constructor | gbeduflow-frontend/src/components/forms/VibeCheckForm.tsx:17-20 | starts unrated, with empty texts, not submitting |
| VibeCheckForm.Form.ClickStar | gbeduflow-frontend/src/components/forms/VibeCheckForm.tsx:99-103 | the rating becomes the star clicked, in 1 to 5, and lights that many stars |
| VibeCheckForm.Form.SetComment | gbeduflow-frontend/src/components/forms/VibeCheckForm.tsx:129 | sets the comment only |
| VibeCheckForm.Form.SetVideoUrl | gbeduflow-frontend/src/components/forms/VibeCheckForm.tsx:145 | sets the video link only |
| VibeCheckForm.Form.HandleSubmit | gbeduflow-frontend/src/components/forms/VibeCheckForm.tsx:24-58 | no user or no rating: nothing changes; otherwise appends the record built from the artist, the user and the trimmed texts, with a rating in 1 to 5, then resets the form |
| VibeCheckForm.Form.ClickSubmit | gbeduflow-frontend/src/components/forms/VibeCheckForm.tsx:155-157 | the button is disabled with no rating or while submitting, and then nothing changes; otherwise a signed-in user's `NewVibeCheck` of the old form is appended and returned and the rating, comment and link are reset |

## Left out

- Zustand's `create`/`set` machinery and React's hooks and rendering are left out. Store and form state are plain fields, and each handler runs as one atomic step.
- The store's `setSelectedArtist`, `setLoading` and `setError` only set display flags that no modelled operation reads.
- `Common.Lower` lowercases ASCII letters only. `Common.IsSpace` knows the common white-space characters, not every Unicode one that `trim` removes.
- Scores are exact reals. Floating-point rounding, NaN and `toFixed`/`toLocaleString` formatting are not modelled, and neither are the `Math.round` averages, which are NaN on empty data.
- `getScoreIntensity` and the ring geometry of the AEHI chart are display arithmetic, so they are left out.
- The mock delays (`setTimeout`) are not modelled. In the model, `isSubmitting` is true only inside the submit method and false again when it returns.
- The `try`/`catch` error paths are not modelled, because nothing inside them can throw in the model.
- `Date.now()` ids and ISO timestamps are parameters, not computed values. Where the source reads the clock twice (the onboarding artist's `createdAt` and `updatedAt`), the model takes two parameters, so it promises nothing about how the two times compare.
- `FeaturedPlacementForm.ParseInt`: decimal digits with an optional sign only. Hexadecimal (`0x`), other radixes and precision loss beyond 2^53 are not modelled.
- `AEIClusters.ClusterColor`: keys inherited from `Object.prototype` (such as `"constructor"`) are not modelled as lookups.
- The user record comes from an authentication store that is not part of this model. It is an optional parameter holding an id and an optional university.
- `ArtistStore.TopArtistsCorrect`: stated for limits of at least 0. A negative limit follows JavaScript's `slice` (it counts from the end), which `ArtistStore.TopArtistsSlice` states.
- `getTopArtists`'s default limit of 10 is not modelled as a default: every caller in the model passes its limit, as the dashboard does.
- `setArtists` keeps the caller's array itself, and `getTopArtists` sorts that array in place, so the source also reorders the caller's array (the dashboard's local `mockArtists`). The model's sequences are values, so this aliasing is not captured; the only caller never reads its array again.
- The `{data.length}` figures of the heatmap (campuses) and the cluster chart (clusters) are the length of the input sequence, `|data|`; they have no member of their own.
- Wizard handlers whose controls render only at one step carry that step as a precondition. Examples are `BoostedChallengeForm.Wizard.ChangeDetails` and `ToggleCampus`. Likewise, a selection made by a button passes an id from its table.
- The vibe-check form's comment and video link are stored trimmed. The onboarding links are stored as typed, empty included, as the source does.
- The store performs no validation and rejects no duplicate ids; it raises no not-found or conflict errors, and it breaks no ties by creation time. The code does none of this, so the model does not either.
