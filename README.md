# Meaningful Tracker: the log analytics layer in Dafny

Meaningful Tracker is a journal in which a user logs activities. Each log
entry records:

- a title and a description;
- a mood: excited, happy, neutral, tired, frustrated or sad;
- a work type: work, learning, personal, health, social or leisure;
- an energy level and a meaning level, each from 1 to 5;
- a date.

This project models the client-side layer that turns the list of entries
into what the user sees:

- the searchable, filterable and sortable list on the logs page and in the
  log list;
- the rule-based insights;
- the weekly summary card;
- the keyword extraction and word cloud;
- the work-type pie and the mood line chart;
- the day-grouped timeline;
- the energy/meaning matrix and its scatter chart;
- the in-memory log store and the mock user store;
- the entry form and the login/register page;
- the translation lookup and the option tables.

Each file is one module and follows one source file:

- `Types`: `lib/types.ts`
- `Constants`: `lib/constants.ts`
- `Utils`: `lib/utils.ts`
- `LogList`: `components/log/log-list.tsx`
- `LogsPage`: `app/logs/page.tsx`
- `Insights`: `components/dashboard/ai-insights.tsx`
- `Summary`: `components/dashboard/summary-stats.tsx`
- `WordCloud`: `components/dashboard/word-cloud.tsx`
- `WorkTypeChart`: `components/dashboard/work-type-chart.tsx`
- `MoodChart`: `components/dashboard/mood-chart.tsx`
- `Timeline`: `components/log/timeline-view.tsx`
- `MatrixView`: `components/log/matrix-view.tsx`
- `EnergyMeaningMatrix`: `components/dashboard/energy-meaning-matrix.tsx`
- `LogStore`: `hooks/useLogStore.ts`
- `MockUser`: `hooks/useMockUser.ts`
- `LogForm`: `components/log/log-form.tsx`
- `LoginPage`: `app/login/page.tsx`
- `LanguageContext`: `contexts/language-context.tsx`

Five modules hold the shared vocabulary:

- `Wrappers`: `Option`.
- `Seqs`: `Array.prototype.filter`, with an order witness.
- `StableSort`: `Array.prototype.sort` with an integer comparator. It is a stable insertion sort, proved to be the only stable sort.
- `Counting`: the `Record<string, number>` counters the components fill. A counter is an insertion-ordered list of key/count pairs.
- `Text`: `toLowerCase`, `includes`, the `[^\w\s]` removal, `split(/\s+/)` and `split("@")[0]`.

How the source's state is modelled:

- **Stores and components that change state** become classes. This covers the log store, the mock user store, the logs page, the matrix view, the word cloud, the entry form, the login page and the language provider. Each class keeps its state in fields and says what each method changes.
- **Loops that fill dictionaries** become methods with loop invariants, each proved equal to a specification function. This covers the insight counters, the weekday mood lists, `getWordFrequency` and the timeline's `groupedLogs`.
- **Everything else** is functions and lemmas.

Dates, the clock and the day of the week:

- Dates are millisecond timestamps.
- "Now" is a parameter.
- The local day of the week (`getDay`) is a function parameter.
- The UTC day of the timestamp stands for the ISO day string, since two timestamps give the same string exactly when they give the same day.

Where a description of the program and its code differ, the model follows the code:

- **The insight generator does not guarantee three insights.** It appends a single general insight when fewer than three rules fired. `Insights.InsightsShape` states the real shape: one to four insights, and the general one last only when at most two rules fired.
- **No ordering rule exists for unparseable dates.** Every date is a number here, so none is modelled.

## Model

| member | source | states |
|---|---|---|
| `Types.ParseMood` | src/lib/types.ts:1 | a string parses to a mood exactly when it is one of the six mood literals, and then to the mood with that literal |
| `Types.ParseWorkType` | src/lib/types.ts:3 | a string parses to a work type exactly when it is one of the six work-type literals |
| `Types.ParseLanguage` | src/lib/types.ts:46 | a string parses to a language exactly when it is "en" or "vi" |
| `Types.NamesRoundTrip` | src/lib/types.ts:1-46 | parsing inverts naming for moods, work types and languages |
| `Types.MoodsOf` | src/lib/types.ts:9-21 | the moods of the entries, one per entry, in entry order |
| `Types.WorkTypesOf` | src/lib/types.ts:9-21 | the work types of the entries, one per entry, in entry order |
| `Types.FindById` | src/hooks/useLogStore.ts:40-42 | `find` gives nothing exactly when no entry has the id; otherwise it gives an entry with that id, and no earlier entry has the id |
| `Types.WithoutId` | src/hooks/useLogStore.ts:35-39 | `logs.filter(log => log.id !== id)`; specified by `Types.WithoutIdSpec` |
| `Types.WithoutIdSpec` | src/hooks/useLogStore.ts:35-39 | filtering out an id keeps exactly the entries with another id, each as often as before; nothing is then found under the id; with no such entry the list is unchanged |
| `Constants.MoodValues` | src/lib/constants.ts:3-10 | the values of the mood table, in table order |
| `Constants.WorkTypeValues` | src/lib/constants.ts:12-19 | the values of the work-type table, in table order |
| `Constants.MoodsTable` | src/lib/constants.ts:3-10 | the mood table lists excited, happy, neutral, tired, frustrated, sad, each once; every mood is listed; each label is "mood." + the literal; each emoji is the mood's own |
| `Constants.WorkTypesTable` | src/lib/constants.ts:12-19 | the work-type table lists work, learning, personal, health, social, leisure, each once; every type is listed; each label is "workType." + the literal |
| `Constants.LevelTables` | src/lib/constants.ts:21-35 | both level tables hold the values 1 to 5 ascending, labelled "energyLevel." / "meaningLevel." + the value |
| `Utils.FindMoodOption` | src/lib/utils.ts:19-21 | `MOODS.find` gives a table row with the given literal, or nothing when no row has it |
| `Utils.FindWorkTypeOption` | src/lib/utils.ts:23-25 | `WORK_TYPES.find` gives a table row with the given literal, or nothing when no row has it |
| `Utils.MoodNameInjective` | src/lib/types.ts:1 | distinct moods have distinct literals |
| `Utils.WorkTypeNameInjective` | src/lib/types.ts:3 | distinct work types have distinct literals |
| `Utils.MoodEmoji` | src/lib/utils.ts:19-21 | `getMoodEmoji`; specified by `Utils.MoodLookupsOfKnownValues` and `Utils.LookupsOfUnknownValues` |
| `Utils.WorkTypeEmoji` | src/lib/utils.ts:23-25 | `getWorkTypeEmoji`; specified by `Utils.WorkTypeLookupsOfKnownValues` and `Utils.LookupsOfUnknownValues` |
| `Utils.ColorByMood` | src/lib/utils.ts:27-38 | `getColorByMood`; specified by `Utils.MoodLookupsOfKnownValues` and `Utils.LookupsOfUnknownValues` |
| `Utils.ColorByWorkType` | src/lib/utils.ts:40-51 | `getColorByWorkType`; specified by `Utils.WorkTypeLookupsOfKnownValues` and `Utils.LookupsOfUnknownValues` |
| `Utils.MoodLookupsOfKnownValues` | src/lib/utils.ts:19-38 | for a mood literal, `getMoodEmoji` gives the table emoji and `getColorByMood` the table colour, which is not the fallback |
| `Utils.WorkTypeLookupsOfKnownValues` | src/lib/utils.ts:23-51 | for a work-type literal, `getWorkTypeEmoji` gives the table emoji and `getColorByWorkType` the table colour, which is not the fallback |
| `Utils.LookupsOfUnknownValues` | src/lib/utils.ts:19-51 | for any other string each of the four lookups gives its fixed fallback; the emoji fallbacks are the neutral and the work emoji, as for "neutral" and "work" |
| `Utils.GetRelativeTime` | src/lib/utils.ts:53-72 | with d the whole seconds elapsed: "just now" iff d < 60 (negative d included); minutes iff 60 <= d < 3600, hours iff d < 86400, days iff d < 604800, each with the count floor(d / unit); the date fallback otherwise |
| `Utils.Phrase` | src/lib/utils.ts:58-68 | "just now" for the first bucket; "n unit ago" with an "s" exactly when n > 1, n written as its decimal digits; no relative text for the date fallback |
| `Utils.RelativeTimeBounds` | src/lib/utils.ts:60-68 | a shown count is 1-59 minutes, 1-23 hours or 1-6 days |
| `Utils.KeepKeywords` | src/lib/utils.ts:149 | the keyword filter is the in-order filter of the tokens longer than two characters that are not common words |
| `Utils.KeepKeywordsCounts` | src/lib/utils.ts:149 | a word occurs among the kept tokens as often as among the tokens if it is a keyword, and not at all otherwise |
| `Utils.ExtractKeywords` | src/lib/utils.ts:74-152 | `extractKeywords`; specified by `Utils.KeywordsAreSurvivingTokens`, `Utils.KeywordsWellFormed` and `Utils.KeywordsExamples` |
| `Utils.KeywordsAreSurvivingTokens` | src/lib/utils.ts:145-151 | the keywords of a non-empty text are the in-order filter of its cleaned whitespace-separated tokens by the keyword rule; each keyword occurs as often as the token; the keywords sit at increasing positions of the token list |
| `Utils.TokenChars` | src/lib/utils.ts:145-148 | every character of a token of the cleaned text is one of a-z, 0-9 or _ |
| `Utils.KeywordsWellFormed` | src/lib/utils.ts:145-149 | every keyword is longer than two characters, is not a common word, and is drawn from [a-z0-9_] |
| `Utils.KeywordsExamples` | src/lib/utils.ts:74-75 | `extractKeywords("")` is empty, and so is the result for the text "the a an" |
| `Utils.CountWords` | src/lib/utils.ts:159-161 | bumping a counter that already counts some words, once per further word, leaves the counter of all of them |
| `Utils.GetWordFrequency` | src/lib/utils.ts:154-165 | the nested loops leave the counter that counts every keyword of every text, text after text |
| `Utils.WordFrequencySpec` | src/lib/utils.ts:154-165 | each word's count is its number of occurrences among all keywords; the counts add up to the number of keywords; keys are distinct; no texts give an empty counter |
| `Utils.ToWords` | src/lib/utils.ts:171 | one `{ text, value }` per entry, in order |
| `Utils.GetTopWords` | src/lib/utils.ts:167-172 | `getTopWords`; specified by `Utils.TopWordsRanked`, `Utils.TopWordsDistinct`, `Utils.TopWordsComplete` and `Utils.TopWordsTieOrder` |
| `Utils.TopWordsRanked` | src/lib/utils.ts:167-172 | `getTopWords` gives min(limit, number of entries) words by non-increasing value, each an entry of the counter |
| `Utils.TopWordsDistinct` | src/lib/utils.ts:167-172 | with distinct counter keys the top words have distinct texts |
| `Utils.TopWordsComplete` | src/lib/utils.ts:167-172 | an entry counting more than a taken word is itself taken |
| `Utils.TopWordsTieOrder` | src/lib/utils.ts:154-172 | of the top words of a keyword list, equally frequent ones come in the order their first occurrences have in the list |
| `LogList.EmptySearchMatchesAll` | src/components/log/log-list.tsx:21-23 | the empty search term matches every entry |
| `LogList.FilteredLogs` | src/components/log/log-list.tsx:18-39 | `filteredLogs`; specified by `LogList.FilteredLogsMembers`, `LogList.FilteredLogsSorted` and `LogList.FilteredLogsStable` |
| `LogList.FilteredLogsMembers` | src/components/log/log-list.tsx:19-28 | an entry is listed iff it is in the input and matches the search (title or description, case-insensitive), the mood filter and the type filter, as often as in the input; the list is no longer than the input |
| `LogList.NoFilterIsPermutation` | src/components/log/log-list.tsx:19-39 | with no search and both filters at "all" the list is a permutation of the input |
| `LogList.FilteredLogsSorted` | src/components/log/log-list.tsx:29-39 | the list is non-decreasing by date, energy or meaning when the order is "asc", non-increasing otherwise |
| `LogList.KeyClassOfSortKey` | src/components/log/log-list.tsx:29-39 | the entries with equal sort key are exactly those with equal value of the chosen field, in both directions |
| `LogList.FilteredLogsStable` | src/components/log/log-list.tsx:29-39 | entries with equal value of the sort field keep their input order, in both directions |
| `LogList.SearchStage` | src/app/logs/page.tsx:89-95 | the search stage, skipped for an empty term, keeps exactly the search matches |
| `LogList.MoodStage` | src/app/logs/page.tsx:97-100 | the mood stage, skipped for "all", then keeps exactly the search matches of that mood |
| `LogList.TypeStage` | src/app/logs/page.tsx:102-105 | the type stage, skipped for "all", leaves exactly the entries the log list selects |
| `LogList.MeaningDescendingExample` | src/app/logs/page.tsx:115-117 | sorting an entry of meaning 5 and one of meaning 2 by meaning, descending, keeps the meaning-5 entry first |
| `LogsPage.LogsPage.constructor` | src/app/logs/page.tsx:35-45 | the page starts with no entries, no search, both filters at "all", sorted by date descending, nothing pending deletion |
| `LogsPage.LogsPage.ApplyFilters` | src/app/logs/page.tsx:84-121 | the staged filters and the in-place sort of a copy leave `filteredLogs` equal to the log list's result, and `logs` unchanged |
| `LogsPage.LogsPage.HandleDeleteLog` | src/app/logs/page.tsx:123-126 | the id is pending and the dialog is open |
| `LogsPage.LogsPage.ConfirmDelete` | src/app/logs/page.tsx:128-142 | with no pending id, or the empty id, nothing changes; a successful delete removes exactly the entries with that id, in order; a failed one keeps the entries; either way the page is no longer deleting, the dialog is closed and no id is pending |
| `Insights.PositiveCount` | src/components/dashboard/ai-insights.tsx:77-81 | the number of excited moods plus the number of happy moods, at most the number of moods |
| `Insights.AtLeastOne` | src/components/dashboard/ai-insights.tsx:78-81 | `length \|\| 1` is positive and is the length when that is positive |
| `Insights.MoodRule` | src/components/dashboard/ai-insights.tsx:32-36 | the mood rule gives at most one insight, a dominant-mood one |
| `Insights.WorkTypeRule` | src/components/dashboard/ai-insights.tsx:44-50 | the work-type rule gives at most one insight, a dominant-work-type one |
| `Insights.CorrelationRule` | src/components/dashboard/ai-insights.tsx:58-62 | the correlation rule gives at most one insight, positive or negative |
| `Insights.WeekendRule` | src/components/dashboard/ai-insights.tsx:83-85 | the weekend rule gives at most one insight, the weekend one |
| `Insights.CountMoods` | src/components/dashboard/ai-insights.tsx:26-29 | the loop leaves the counter of the entries' moods |
| `Insights.CountWorkTypes` | src/components/dashboard/ai-insights.tsx:39-42 | the loop leaves the counter of the entries' work types |
| `Insights.GroupMoodsByDay` | src/components/dashboard/ai-insights.tsx:65-71 | the loop leaves, for every day of the week, the moods of that day's entries in entry order |
| `Insights.GroupsGiveWeekLists` | src/components/dashboard/ai-insights.tsx:74-75 | days 0 and 6 give the weekend moods, days 1-5 the weekday moods |
| `Insights.CompareWeekendMoods` | src/components/dashboard/ai-insights.tsx:74-83 | the real-number comparison of positive shares decides the weekend condition |
| `Insights.CheckMoodPattern` | src/components/dashboard/ai-insights.tsx:26-36 | the mood check pushes exactly what the mood rule gives |
| `Insights.CheckWorkTypePattern` | src/components/dashboard/ai-insights.tsx:39-50 | the work-type check pushes exactly what the work-type rule gives |
| `Insights.CheckFirstPatterns` | src/components/dashboard/ai-insights.tsx:23-62 | the first three checks push the mood rule, then the work-type rule, then the correlation rule |
| `Insights.CheckTimePattern` | src/components/dashboard/ai-insights.tsx:64-86 | the time-pattern check pushes exactly the weekend rule's insight for the weekend and weekday mood lists |
| `Insights.GetInsights` | src/components/dashboard/ai-insights.tsx:17-93 | the insights the effect sets; specified by `Insights.InsightsMembers`, `Insights.InsightsShape` and the four `...Iff` lemmas |
| `Insights.ComputeInsights` | src/components/dashboard/ai-insights.tsx:17-93 | the effect sets exactly the insights `GetInsights` names |
| `Insights.HalfThreshold` | src/components/dashboard/ai-insights.tsx:34 | c / n > 0.5 iff 2c > n |
| `Insights.TwoFifthsThreshold` | src/components/dashboard/ai-insights.tsx:46 | c / n > 0.4 iff 5c > 2n |
| `Insights.UnitThresholds` | src/components/dashboard/ai-insights.tsx:53-62 | S / n > 1 iff S > n, and S / n < -1 iff S < -n |
| `Insights.FractionComparison` | src/components/dashboard/ai-insights.tsx:77-83 | p / a > q / d + 0.3 iff 10pd > (10q + 3d)a |
| `Insights.WeekendComparison` | src/components/dashboard/ai-insights.tsx:77-83 | the integer weekend condition is the source's comparison of positive shares with at least two weekend entries |
| `Insights.InsightsMembers` | src/components/dashboard/ai-insights.tsx:23-90 | from three entries on, an insight is shown iff a rule gave it, or it is the general one and fewer than three rules fired |
| `Insights.MoodRuleIff` | src/components/dashboard/ai-insights.tsx:32-36 | the mood rule names m iff m is the first-encountered most frequent mood and 2 * its count > total |
| `Insights.WorkTypeRuleIff` | src/components/dashboard/ai-insights.tsx:44-50 | the work-type rule names w iff w is the first-encountered most frequent type and 5 * its count > 2 * total |
| `Insights.FewLogsInsight` | src/components/dashboard/ai-insights.tsx:18-21 | with fewer than three entries the insights are exactly "not enough data" |
| `Insights.DominantMoodIff` | src/components/dashboard/ai-insights.tsx:26-36 | the dominant-mood insight for m is shown iff m is the first-encountered most frequent mood and covers more than half of the entries |
| `Insights.DominantWorkTypeIff` | src/components/dashboard/ai-insights.tsx:39-50 | the dominant-work-type insight for w is shown iff w is the first-encountered most frequent type and covers more than two fifths of the entries |
| `Insights.CorrelationIff` | src/components/dashboard/ai-insights.tsx:53-62 | with S the sum of (energy - 3) * (meaning - 3): positive iff S > n, negative iff S < -n, never both |
| `Insights.WeekendIff` | src/components/dashboard/ai-insights.tsx:65-85 | the weekend insight is shown iff there are at least two weekend entries and their positive share exceeds the weekday share by more than 0.3 |
| `Insights.InsightsShape` | src/components/dashboard/ai-insights.tsx:87-92 | from three entries on: one to four insights, no "not enough data", in the order mood, work type, correlation, weekend, general; the general one is last and present iff fewer than three rules fired |
| `Insights.FourHappyOfFive` | src/components/dashboard/ai-insights.tsx:34 | five entries, four of them happy, show the dominant-mood insight for happy |
| `Insights.AllFivesArePositive` | src/components/dashboard/ai-insights.tsx:58 | three or more entries all at energy 5 and meaning 5 show the positive-correlation insight |
| `Summary.RecentLogs` | src/components/dashboard/summary-stats.tsx:12-14 | `recentLogs`; specified by `Summary.RecentLogsSpec` |
| `Summary.RecentLogsSpec` | src/components/dashboard/summary-stats.tsx:12-14 | the window keeps exactly the entries dated at most 604800000 ms before now, as often as before and in order |
| `Summary.SumBounds` | src/components/dashboard/summary-stats.tsx:18-22 | a sum of n levels lies between n and 5n |
| `Summary.Average` | src/components/dashboard/summary-stats.tsx:17-23 | 0 for no entries; otherwise the value that times the count gives the sum |
| `Summary.AveragesSpec` | src/components/dashboard/summary-stats.tsx:17-23 | both averages are 0 for an empty window and lie in [1, 5] otherwise |
| `Summary.MostCommonMoodSpec` | src/components/dashboard/summary-stats.tsx:26-42 | neutral for an empty window, otherwise the first-encountered most frequent mood |
| `Summary.MostCommonWorkTypeSpec` | src/components/dashboard/summary-stats.tsx:34-43 | work for an empty window, otherwise the first-encountered most frequent work type |
| `Summary.HighestMeaningLogSpec` | src/components/dashboard/summary-stats.tsx:46 | absent iff the window is empty; otherwise the first entry of the window whose meaning no entry exceeds |
| `Summary.RecommendationIff` | src/components/dashboard/summary-stats.tsx:105-107 | "keep it up" iff the average meaning is above 3.5, that is 2 * sum > 7 * count |
| `Summary.Summarize` | src/components/dashboard/summary-stats.tsx:11-46 | the statistics of the summary card; specified by `Summary.SummarizeSpec`, `Summary.AveragesSpec` and the three `...Spec` lemmas of the most common mood, work type and highest-meaning entry |
| `Summary.SummarizeSpec` | src/components/dashboard/summary-stats.tsx:11-46 | all statistics come from one window: its size, zero averages, neutral, work, no entry and the focus advice when it is empty, averages in [1, 5] and an entry of the window otherwise |
| `WordCloud.Descriptions` | src/components/dashboard/word-cloud.tsx:22 | every entry's description, in entry order |
| `WordCloud.TopWordsCounted` | src/components/dashboard/word-cloud.tsx:25-28 | every shown word occurs among the keywords, with its number of occurrences as value |
| `WordCloud.TopWordsCover` | src/components/dashboard/word-cloud.tsx:25-28 | a keyword occurring more often than a shown word is shown |
| `WordCloud.CloudWords` | src/components/dashboard/word-cloud.tsx:18-31 | the words of the cloud; specified by `WordCloud.CloudWordsSpec` |
| `WordCloud.CloudWordsSpec` | src/components/dashboard/word-cloud.tsx:18-31 | at most 30 words, by non-increasing value, distinct texts, each counted exactly, none more frequent left out, equally frequent ones in first-seen order |
| `WordCloud.MaxValue` | src/components/dashboard/word-cloud.tsx:44 | `Math.max` of the values bounds every value and is one of them |
| `WordCloud.ColorIndex` | src/components/dashboard/word-cloud.tsx:43-49 | `getColor`'s index; specified by `WordCloud.ColorIndexSpec` |
| `WordCloud.ColorIndexSpec` | src/components/dashboard/word-cloud.tsx:43-49 | for 0 <= value <= max the index floor(4 * value / max) picks one of the five colours, the last one iff value = max |
| `WordCloud.RenderItems` | src/components/dashboard/word-cloud.tsx:60-71 | each word's text with the colour of its value, in order |
| `WordCloud.Render` | src/components/dashboard/word-cloud.tsx:58-75 | the "no data" message iff there are no words; otherwise one item per word, in order |
| `WordCloud.ItemColors` | src/components/dashboard/word-cloud.tsx:43-49 | values in (0, max] all get a colour, the last one exactly at the maximum |
| `WordCloud.RenderColors` | src/components/dashboard/word-cloud.tsx:43-75 | positive values all get a colour, the last one exactly for the words of maximal value |
| `WordCloud.CloudColors` | src/components/dashboard/word-cloud.tsx:18-75 | every word of the effect gets a colour, the most frequent words the last one |
| `WordCloud.WordCloud.constructor` | src/components/dashboard/word-cloud.tsx:16 | no words at first |
| `WordCloud.WordCloud.OnLogsChanged` | src/components/dashboard/word-cloud.tsx:18-31 | no entries leave the words unchanged; otherwise the words are the top 30 of the descriptions' keyword counts |
| `WorkTypeChart.WorkTypeCountsSpec` | src/components/dashboard/work-type-chart.tsx:13-19 | each work type is counted as often as entries of that type occur, and is a key iff it occurs |
| `WorkTypeChart.AllSlices` | src/components/dashboard/work-type-chart.tsx:22-25 | one slice per table row, in table order, with the row's label and emoji and the type's count |
| `WorkTypeChart.FilterShownSum` | src/components/dashboard/work-type-chart.tsx:26 | dropping the zero slices keeps the total |
| `WorkTypeChart.ChartDataSum` | src/components/dashboard/work-type-chart.tsx:13-26 | the slice values add up to the number of entries |
| `WorkTypeChart.ChartDataMembers` | src/components/dashboard/work-type-chart.tsx:22-26 | a type's slice is drawn iff the type occurs; every drawn value is positive |
| `WorkTypeChart.ChartDataOrder` | src/components/dashboard/work-type-chart.tsx:22-26 | the slices keep table order and no type has two |
| `WorkTypeChart.LabelsDistinct` | src/lib/constants.ts:12-19 | the work-type labels are distinct |
| `MoodChart.SortedLogsSpec` | src/components/dashboard/mood-chart.tsx:13 | the sorted copy is a permutation of the entries, non-decreasing by date, entries of equal date in input order |
| `MoodChart.MoodToValue` | src/components/dashboard/mood-chart.tsx:16-23 | `moodToValue`; specified by `MoodChart.MoodValueRoundTrip` |
| `MoodChart.MoodValueRoundTrip` | src/components/dashboard/mood-chart.tsx:16-68 | each mood is drawn at a height in 0..5 whose label is its own literal; distinct moods get distinct heights; each label parses back to a mood drawn at that height |
| `MoodChart.Points` | src/components/dashboard/mood-chart.tsx:25-30 | one point per entry, in order |
| `MoodChart.ChartDataSpec` | src/components/dashboard/mood-chart.tsx:13-30 | one point per entry in date order, with the entry's title, mood and the mood's height |
| `Timeline.DayGroupIsFilter` | src/components/log/timeline-view.tsx:23-29 | a day's group is the filter of the entries by that day |
| `Timeline.DayKeysSpec` | src/components/log/timeline-view.tsx:22-29 | the group keys are distinct and are exactly the days of the entries |
| `Timeline.EmptyGroup` | src/components/log/timeline-view.tsx:25-27 | a day that is not a key has no entries |
| `Timeline.GroupByDay` | src/components/log/timeline-view.tsx:22-29 | the loop leaves one group per day of an entry, keyed by that day, holding that day's entries in input order |
| `Timeline.GroupMembership` | src/components/log/timeline-view.tsx:23-29 | an entry is in the group of its own day and of no other, as often as in the input |
| `Timeline.GroupOrder` | src/components/log/timeline-view.tsx:28 | a group keeps input order |
| `Timeline.GroupSizesSum` | src/components/log/timeline-view.tsx:22-29 | the group sizes add up to the number of entries |
| `Timeline.SortedDatesSpec` | src/components/log/timeline-view.tsx:32 | the days are exactly the group keys, each once, newest first |
| `MatrixView.Items` | src/components/log/matrix-view.tsx:26-33 | one item per entry, in order, with x the energy, y the meaning, and the id, title, mood and date copied |
| `MatrixView.Positions` | src/components/log/matrix-view.tsx:97-98 | left offset = 20 * energy, top offset = 100 - 20 * meaning |
| `MatrixView.ItemsInSquare` | src/components/log/matrix-view.tsx:97-98 | every item lies with left in [20, 100] and top in [0, 80] |
| `MatrixView.PositionsMonotone` | src/components/log/matrix-view.tsx:97-98 | more energy is further right and more meaning higher up, both directions |
| `MatrixView.SafeTranslate` | src/components/log/matrix-view.tsx:46-54 | the fallback iff the translation is the key itself, the translation otherwise |
| `MatrixView.MatrixView.constructor` | src/components/log/matrix-view.tsx:20-22 | no items, no selection, dialog closed |
| `MatrixView.MatrixView.SyncItems` | src/components/log/matrix-view.tsx:24-35 | the items are those of the current entries |
| `MatrixView.MatrixView.HandleItemClick` | src/components/log/matrix-view.tsx:37-43 | when an entry has the id, the first such entry is selected and the dialog opens; otherwise nothing changes |
| `EnergyMeaningMatrix.ChartData` | src/components/dashboard/energy-meaning-matrix.tsx:13-21 | one point per entry, in order |
| `EnergyMeaningMatrix.ChartDataSpec` | src/components/dashboard/energy-meaning-matrix.tsx:13-46 | x is the energy, y the meaning, z is 1, title and mood copied, the emoji is the mood's; x and y lie strictly inside the axis domain [0, 6] |
| `LogStore.NewLog` | src/hooks/useLogStore.ts:19-25 | `newLog`; specified by `LogStore.NewLogFields` |
| `LogStore.NewLogFields` | src/hooks/useLogStore.ts:19-25 | a new entry carries every supplied field and the given id, created and updated at now |
| `LogStore.Merge` | src/hooks/useLogStore.ts:31 | `{ ...log, ...updatedLog, updatedAt }`; specified by `LogStore.MergeLaws` and `LogStore.UpdateAll` |
| `LogStore.MergeLaws` | src/hooks/useLogStore.ts:31 | the empty patch only stamps updatedAt; merging the same patch twice is merging it once; the patch's own updatedAt never wins |
| `LogStore.UpdateAll` | src/hooks/useLogStore.ts:29-33 | same length and order; entries with the id are merged with the patch and stamped, the others unchanged |
| `LogStore.UpdateAbsent` | src/hooks/useLogStore.ts:30-32 | an update of an id no entry has changes nothing |
| `LogStore.UpdateKeepsOthers` | src/hooks/useLogStore.ts:28-33 | an update that does not set the id leaves other ids' entries, and what is found under another id, unchanged |
| `LogStore.LogStore.constructor` | src/hooks/useLogStore.ts:17 | the store starts empty |
| `LogStore.LogStore.AddLog` | src/hooks/useLogStore.ts:18-27 | the new entry is prepended; the old entries follow, unchanged and in order |
| `LogStore.LogStore.UpdateLog` | src/hooks/useLogStore.ts:28-34 | the entries become their update by the patch |
| `LogStore.LogStore.DeleteLog` | src/hooks/useLogStore.ts:35-39 | exactly the entries with the id are removed, order kept, and the id is no longer found |
| `LogStore.LogStore.GetLog` | src/hooks/useLogStore.ts:40-42 | nothing iff no entry has the id; otherwise the first entry with it; the store is unchanged |
| `LogStore.DeleteThenGet` | src/hooks/useLogStore.ts:35-42 | looking up an id right after deleting it finds nothing |
| `MockUser.NameFromEmailSpec` | src/hooks/useMockUser.ts:26 | the name is what precedes the first '@', or the whole address when it has none |
| `MockUser.NameFromEmailExample` | src/hooks/useMockUser.ts:26 | "ann@example.com" gives the name "ann" |
| `MockUser.MockUserStore.constructor` | src/hooks/useMockUser.ts:17-18 | no user and not authenticated |
| `MockUser.MockUserStore.Login` | src/hooks/useMockUser.ts:19-32 | the user has the given id, the name before '@' and the email; authenticated |
| `MockUser.MockUserStore.Register` | src/hooks/useMockUser.ts:33-45 | the user has the given id, name and email; authenticated |
| `MockUser.MockUserStore.Logout` | src/hooks/useMockUser.ts:46-48 | no user and not authenticated |
| `LogForm.Issues` | src/components/log/log-form.tsx:20-32 | the fields `formSchema` rejects; specified by `LogForm.IssuesSpec` |
| `LogForm.IssuesSpec` | src/components/log/log-form.tsx:20-32 | a field is rejected iff it breaks its rule: title under 3 characters, description under 10, mood or work type not listed, a level outside [1, 5]; the date never |
| `LogForm.Validate` | src/components/log/log-form.tsx:20-32 | accepted iff there are no issues, with every value carried over; rejected with the issues otherwise |
| `LogForm.FractionalLevelAccepted` | src/components/log/log-form.tsx:29-30 | a level of 2.5 passes: whole numbers are not required |
| `LogForm.DefaultValues` | src/components/log/log-form.tsx:46-54 | `defaultValues`; specified by `LogForm.DefaultsSpec` |
| `LogForm.DefaultsSpec` | src/components/log/log-form.tsx:46-54 | no initial data gives "", "", neutral, work, 3, 3 and today; with partial initial data each field is the given value when present (and non-empty for the strings), else its default; an entry's fields come back as the defaults; defaults can only fail on title or description |
| `LogForm.LogFormState.constructor` | src/components/log/log-form.tsx:44 | not submitting at first |
| `LogForm.LogFormState.OnSubmit` | src/components/log/log-form.tsx:61-80 | update with the id iff a non-empty id is present, create otherwise; ends not submitting |
| `LoginPage.SchemaRules` | src/app/login/page.tsx:20-29 | a password is rejected iff under 6 characters in both forms, a register name iff under 2, an email iff not valid; a form passes iff none is rejected |
| `LoginPage.LoginErrorText` | src/app/login/page.tsx:65-69 | a message naming invalid credentials gives the friendly text; otherwise the message, or the default when it is empty |
| `LoginPage.RegisterErrorText` | src/app/login/page.tsx:95-101 | "Email address" and "invalid" first give the format text; then "User already registered" gives the already-registered text; otherwise the message, or the default when it is empty |
| `LoginPage.ErrorTextsNonEmpty` | src/app/login/page.tsx:65-101 | every error text is non-empty and is the message or one of the fixed texts |
| `LoginPage.AlertVariant` | src/app/login/page.tsx:123-126 | no alert iff there is no error text; the default variant iff the text contains "successful", destructive otherwise |
| `LoginPage.RegisteredTextVariant` | src/app/login/page.tsx:87 | the registration notice is shown as a success |
| `LoginPage.DestructiveWithout` | src/app/login/page.tsx:125 | a text lacking a letter of "successful" is shown as an error |
| `LoginPage.InvalidCredentialsVariant` | src/app/login/page.tsx:66 | the friendly sign-in failure is shown as an error |
| `LoginPage.LoginFailedVariant` | src/app/login/page.tsx:68 | the default sign-in failure is shown as an error |
| `LoginPage.RegistrationFailedVariant` | src/app/login/page.tsx:89 | the default sign-up failure is shown as an error |
| `LoginPage.AlreadyRegisteredVariant` | src/app/login/page.tsx:98 | the already-registered text is shown as an error |
| `LoginPage.LoginPage.constructor` | src/app/login/page.tsx:34-36 | not loading, no error, the login tab |
| `LoginPage.LoginPage.OnLogin` | src/app/login/page.tsx:55-73 | ends not loading; no error after a sign-in, the mapped error after a failure |
| `LoginPage.LoginPage.OnRegister` | src/app/login/page.tsx:75-105 | ends not loading; a response with a user switches to the login tab with the notice; one without gives the failure text; an error gives its mapped text, tab unchanged |
| `LanguageContext.Translate` | src/contexts/language-context.tsx:450-460 | a present, non-empty entry, and the key itself otherwise |
| `LanguageContext.TranslateFallsBack` | src/contexts/language-context.tsx:455 | the key comes back iff it is missing, its entry is empty, or the entry is the key; any other result is the entry |
| `LanguageContext.ConstantLabelsTranslated` | src/contexts/language-context.tsx:191-219 | every mood, work-type, energy and meaning label key of the tables has an English text other than the key |
| `LanguageContext.LanguageProvider.constructor` | src/contexts/language-context.tsx:437 | the language is "en" |
| `LanguageContext.LanguageProvider.Mount` | src/contexts/language-context.tsx:439-448 | a saved "en" or "vi" is adopted, anything else leaves the language; the saved value is then the language |
| `LanguageContext.LanguageProvider.SetLanguage` | src/contexts/language-context.tsx:446-448 | the language changes and is persisted |
| `LanguageContext.LanguageProvider.T` | src/contexts/language-context.tsx:450-460 | the current table's present, non-empty entry; the key when there is no table, the entry is missing or it is empty |
| `Counting.CountAll` | src/components/dashboard/summary-stats.tsx:26-40 | the `reduce` and `forEach` counters that add one per element; specified by `Counting.CountAllSpec` |
| `Counting.CountAllSpec` | src/components/dashboard/summary-stats.tsx:26-40 | a counter holds each element's exact number of occurrences, only elements that occur, distinct keys in first-occurrence order, counts summing to the length |
| `Counting.Top` | src/components/dashboard/summary-stats.tsx:42-43 | the first entry after sorting by descending count is absent iff the counter is empty, and is an entry of it |
| `Counting.TopIsFirstMode` | src/components/dashboard/summary-stats.tsx:42-43 | that entry is the first-encountered most frequent element, with its count |
| `Counting.FirstModeUnique` | src/components/dashboard/ai-insights.tsx:32 | there is only one first-encountered most frequent element |
| `Counting.TopIff` | src/components/dashboard/ai-insights.tsx:32-46 | a threshold on the top entry is the threshold on the first-encountered mode |
| `StableSort.SortBy` | src/app/logs/page.tsx:108-118 | the sort keeps length and elements |
| `StableSort.SortByIsStableSort` | src/app/logs/page.tsx:108-118 | the result is sorted by the key, and elements of equal key keep their input order |
| `StableSort.StableSortIsSortBy` | src/app/logs/page.tsx:108-118 | every stable sort of a sequence by a key is this one |
| `StableSort.TiesKeepInputOrder` | src/lib/utils.ts:169 | two elements the sort puts in order with equal keys come from input positions in that same order |
| `StableSort.HeadIsFirstMinimal` | src/components/dashboard/summary-stats.tsx:46 | the head of the sort is the first element of minimal key |
| `Seqs.Filter` | src/components/log/log-list.tsx:19-28 | `filter` keeps exactly the passing elements, each as often as before, and is no longer than its input |
| `Seqs.FilterIndices` | src/components/log/log-list.tsx:19-28 | the kept elements appear at strictly increasing positions of the input |
| `Text.Lower` | src/lib/utils.ts:146 | `toLowerCase` keeps the length and maps each character |
| `Text.ContainsIffOccurs` | src/components/log/log-list.tsx:22-23 | `includes` holds iff the term occurs at some position |
| `Text.KeepWordAndSpace` | src/lib/utils.ts:147 | removing `[^\w\s]` is the in-order filter of the word and white-space characters |
| `Text.SplitWsFields` | src/lib/utils.ts:148 | `split(/\s+/)` gives pieces without white space whose concatenation is the text without its white space |
| `Text.SplitWsRuns` | src/lib/utils.ts:148 | `split(/\s+/)` cuts the text at maximal runs of white space: fields without white space, non-empty white-space separators, only the first and last field possibly empty, fields and separators in turn making up the text |
| `Text.SplitWsUnique` | src/lib/utils.ts:148 | any such cut of the text at maximal white-space runs has exactly the fields `split(/\s+/)` gives |
| `Text.Before` | src/hooks/useMockUser.ts:26 | `split("@")[0]` is the longest prefix without '@', all of the text when it has none |
| `Text.NatToString` | src/lib/utils.ts:62 | the decimal text of a count is non-empty, all digits, denotes the count, and has no leading zero except "0" |

## Left out

- **Date handling**: date parsing, `toISOString`, `toLocaleDateString`, `formatDate` and `getDay` are not modelled. Dates are numbers, the local day of the week is a parameter, and locale date strings are not produced.
- **Unparseable dates**: they would give a `NaN` comparator in the sorts. They cannot occur in the model.
- **Floating point**: `/` on numbers is exact real or integer arithmetic here. IEEE rounding at a threshold boundary is not captured. This affects the insight ratios, the averages, the 3.5 recommendation and `getColor`'s index.
- **Presentation**: `getFontSize` pixel sizes, `toFixed`, recharts and framer-motion rendering, and the class-name strings beyond `getColor` are display values and are not modelled.
- **Unicode text**: `toLowerCase` maps only A-Z. Non-ASCII letters, case mapping and UTF-16 lengths are not modelled.
- **Counter keys and `Object.prototype` names**: `getWordFrequency` and the counters are insertion-ordered lists. JavaScript lists integer-like keys first and lets "constructor" and other `Object.prototype` names collide. Those tokens are not modelled. The same names also escape the fallbacks of object lookups: `moodColors[mood]` and `workTypeColors[workType]` in `getColorByMood` and `getColorByWorkType`, and `translationObj[key] || key` in `t`, give an inherited member for "constructor" and the like. `Utils.LookupsOfUnknownValues`, `LanguageContext.Translate` and `LanguageContext.LanguageProvider.T` treat such strings as absent keys. The typed callers never pass them.
- **Field spellings**: `LogEntry` spells its fields `work_type`, `energy_level`, `meaning_level`, `created_at` and `updated_at` (src/lib/types.ts:9-21). Some components read camelCase names the type does not have: `workType`, `energyLevel` and `meaningLevel` in the log list, the summary card, the work-type chart and the energy/meaning scatter chart, and `createdAt`/`updatedAt` in the log store. On an entry with snake_case fields the program reads `undefined` there: the averages and the level sorts become `NaN`, and the work-type counters get an `"undefined"` key. The store's `updatedAt` stamp also misses `updated_at`, so a patch's `updated_at` survives. The model reads the one field of each kind everywhere, so `Summary`, `LogList`, `WorkTypeChart`, `EnergyMeaningMatrix` and `LogStore.MergeLaws` describe the program as if the spellings agreed.
- **Store access**: the dashboard components and the log list read `logs` from the store hook. The model takes the entries as a parameter.
- **Identifiers and clock**: `generateId` (`Math.random`) and `new Date()` are parameters.
- **Timers**: the `setTimeout` delays are not modelled.
- **Persistence**: zustand `persist`, localStorage beyond the saved language, and the backend (`getLogs`, `createLog`, `updateLog`, `deleteLog`, `signIn`, `signUp`) are left out. Backend results are parameters of the methods that receive them.
- **Routing**: `router.push` is not modelled.
- **Email validation**: the zod `email()` check is a boolean parameter.
- **Schema input coercion**: the entry form's `z.coerce.number` receives an exact number. A `NaN` from a non-numeric input is not modelled.
- **Translation tables**: the tables are a parameter of the language provider. Only the English mood, work-type and level texts are written out. The insight texts and their `{mood}` replacement are not produced; insights are values.
- **In-place sort**: the logs page sorts its copied array in place. The model sorts a sequence. Aliasing is impossible there because the array is a fresh copy.
- **Undefined patch fields**: a field set to `undefined` in an update is treated as absent, not as overwriting the entry's field.
- `Utils.Phrase`: gives no text for the `formatDate` fallback, because date formatting is not modelled.
- `LoginPage.AlertVariant`: the variant of the email-format error text is not proved. Its text contains no "successful", but the proof that the long literal lacks it was too costly.
