# Competitive hiring intelligence — a verified model of the analysis core

This project models the deterministic core of a hiring-intelligence
dashboard. The dashboard collects job listings from the companies on a
watchlist and turns them into insights and recommendations. The model
covers that pipeline and the small state machines beside it.

- **Processing** (`processor.dfy`, `skills.dfy`, `salary.dfy`,
  `aggregator.dfy`). Listings become per-company tallies of titles,
  locations and skills, a 30-day posting series and salary records. Skill
  keywords are searched for between `\b` word boundaries, ignoring case,
  as the source's regular expression does, so "C++" and "C#" are found
  only where a word character follows them. Salary texts are parsed as
  the source's regular expression reads them, with the "K" and thousands
  rule, so a plain second number of four or more digits keeps only its
  first three. The corrected readings of both are modelled beside them
  (see "## Findings"). The tallies are then widened
  into zero-filled cross-company tables, a skill heatmap and a velocity
  series.
- **Analysis** (`trends.dfy`, `skill_patterns.dfy`, `market_shifts.dfy`,
  `industry.dfy`). Threshold rules read the processed record:
  - half-split hiring surges and declines, leadership and technology
    hiring, remote work and geographic expansion;
  - emerging, competitive and company-unique skills;
  - category focus, divergent strategies and geographic shifts;
  - per-industry leaders, top skills, specialised skills and hubs.
- **Recommendations** (`recommendations.dfy`, `strategic.dfy`). The
  insights are grouped by type and fixed rules pick the recommendations,
  with fixed priorities and truncated lists.
- **Resume matching** (`resume.dfy`). Job skills are split into exact,
  partial and missing matches and scored with positional weights. The
  matches are bucketed by quality, the jobs are sorted by match, and the
  opportunity score is the mean of the top three.
- **Talent tables** (`talent.dfy`). Roles are classified first match
  wins. The model covers the education and experience tables, the
  tech-hub experience shift, the clamped remote-work adjustment, the city
  tables and the skill-prevalence lookup.
- **Notifications** (`notifier.dfy`). The e-mail configuration is an
  object. Its methods set the preferences, send mail and alerts, and
  stamp the last send time. Functions decide whether a digest is due and
  what it lists.
- **Achievements and watchlist** (`achievements.dfy`). A session object
  holds the achievements, the watchlist and the action count. Its methods
  record progress, unlock at most one level per update, compute the
  recruitment score and append companies without duplicates.
- **Percentage change** (`percent.dfy`) with its zero-baseline guard.

Shared pieces:

- `assoc.dfy` models Python's insertion-ordered dicts as association
  lists.
- `sorting.dfy` models the descending sort, as a sorted permutation, and
  the "first maximum" that Python's stable sort puts first.
- `common.dfy` holds sequence helpers.
- `insights.dfy` holds the insight and recommendation records.

Functions and loops follow the source:

- Code that builds lists and dicts in loops is written as methods with
  loop invariants. Each method is proved equal to a specification
  function.
- The properties are proved about those functions as lemmas.
- Every analysis states its "reported exactly when" rule in both
  directions.

Conventions:

- Dates are integer day numbers and times are seconds; "today" and "now"
  are parameters.
- Floats are exact reals.
- A Python catch-all `except` becomes an explicit condition. The cases
  covered are a missing key, an empty series and a malformed listing.
  Each returns the documented empty value. The failure of the market-shift
  analysis on a company named after a row label is not covered (see
  "## Left out").

## Model

| member | source | states |
|---|---|---|
| SkillExtractor.CommonSkillsDistinct | data_processor.py:154-167 | the fixed keyword list has 71 entries and no repeats |
| SkillExtractor.BoundaryAgreesOnWordKeywords | data_processor.py:171 | for a keyword that starts and ends with a word character, the `\b`-delimited case-insensitive match and the whole-token match agree at every position |
| SkillExtractor.TrailingSymbolNeedsWordAfter | data_processor.py:171 | as written, a keyword ending in a non-word character ("C++", "C#") matches only where a word character follows it |
| SkillExtractor.CPlusPlusAtEndMissed | data_processor.py:171 | a text ending in "C++" (no other '+') has no `\b` match of "C++", although it mentions "C++" as a token |
| SkillExtractor.Mentioned | data_processor.py:169-174 | corrected reading: a keyword is reported exactly when it is in the list and the text mentions it as a whole token, case-insensitively; a list without repeats gives a result without repeats |
| SkillExtractor.MentionedIsSubsequence | data_processor.py:169-174 | corrected reading: the reported keywords keep the order of the keyword list |
| SkillExtractor.Found | data_processor.py:169-174 | a keyword is reported exactly when it is in the list and `\b<kw>\b` matches the text, case-insensitively; a list without repeats gives a result without repeats |
| SkillExtractor.FoundIsSubsequence | data_processor.py:169-174 | the reported keywords keep the order of the keyword list |
| SkillExtractor.MentionsAgreesOnWordKeyword | data_processor.py:171 | for a keyword that starts and ends with a word character, `\b<kw>\b` matches exactly when the keyword occurs as a whole token |
| SkillExtractor.FoundAgreesOnWordKeywords | data_processor.py:169-174 | over keywords that start and end with word characters, the source's extraction and the whole-token one give the same list |
| SkillExtractor.Search | data_processor.py:171 | the search succeeds exactly when `\b<kw>\b` matches the text, case-insensitively |
| SkillExtractor.MentionedSkills | data_processor.py:169-174 | the loop over the keywords appends exactly the ones `\b<kw>\b` finds, in list order |
| SkillExtractor.ExtractSkills | data_processor.py:142-174 | the result holds exactly the keywords of the fixed list that `\b<kw>\b` finds in the text, without repeats, in list order |
| SalaryParser.LongestNumberPrefix | data_processor.py:188 | the length of the longest prefix that is a number (`\d{1,3}(,\d{3})*` or `\d+`), and no longer prefix is one |
| SalaryParser.SecondNumberEnd | data_processor.py:188 | the second group ends after its start and within the text, under either reading of the group |
| SalaryParser.MatchAt | data_processor.py:188 | a match at `i` starts with a currency symbol, and its first group is a whole number run that the next character does not extend |
| SalaryParser.FirstMatch | data_processor.py:189 | a match found by the search has ordered, in-range group bounds |
| SalaryParser.FirstMatchLeftmost | data_processor.py:189 | the search returns the match at the leftmost position where one starts: no position before it matches |
| SalaryParser.FirstMatchComplete | data_processor.py:189 | if a match starts anywhere at or after `i`, the search finds one |
| SalaryParser.SalaryRangeShape | data_processor.py:186-208 | a parsed range needs a currency symbol in the text, and both values are non-negative |
| SalaryParser.NoCurrencyNoRange | data_processor.py:205 | a text without a currency symbol gives no range, i.e. (None, None) |
| SalaryParser.NoKInPlainRange | data_processor.py:199 | a range of two plain numbers has no "K" in its text |
| SalaryParser.RangeOfMatch | data_processor.py:191-203 | the range is the two group values without commas, rescaled by the "K"/1000 rule |
| SalaryParser.MatchOfRange | data_processor.py:188-189 | on `$x - $y` or `$xK - $yK` the search matches at 0 with the first group `x` and the second group starting at `y` |
| SalaryParser.RangeInThousandsParses | data_processor.py:188-203 | `$xK - $yK` gives (x, y), not rescaled: as written when y is grouped (at most three digits, or thousands separated by commas), and for any number y under the corrected reading |
| SalaryParser.PlainRangeParses | data_processor.py:188-203 | `$x - $y` gives x and y, divided by 1000 when x exceeds 1000: as written when y is grouped, and for any number y under the corrected reading |
| SalaryParser.GroupedSplit | data_processor.py:188 | a number matched by `\d{1,3}(?:,\d{3})*` is one to three digits followed by comma-separated groups of three |
| SalaryParser.LeadingDigitsRun | data_processor.py:188 | `\d{1,3}` taken greedily stops at the first non-digit or after three digits |
| SalaryParser.SeparatedGroupsRun | data_processor.py:188 | `(?:,\d{3})*` taken greedily takes every group up to where no comma follows |
| SalaryParser.AsWrittenTakesGroupedSecond | data_processor.py:188 | as written, a grouped second number that fills its run of digits and commas is taken whole |
| SalaryParser.SecondTakenWhole | data_processor.py:188 | the second number is taken whole: always under the corrected reading, and as written when it is grouped |
| SalaryParser.AsWrittenCutsPlainSecond | data_processor.py:188 | as written, a plain second number of four or more digits keeps only its first three digits |
| SalaryParser.SalaryWithK | data_processor.py:181-203 | "$80K - $120K" gives (80, 120), as written and under the corrected reading |
| SalaryParser.SalaryWithSeparators | data_processor.py:187-203 | "$80,000 - $120,000" gives (80, 120), as written and under the corrected reading |
| SalaryParser.PlainThousandsAsWritten | data_processor.py:188-201 | as written, "$80000 - $120000" gives (80, 0.12) |
| SalaryParser.PlainThousandsIntended | data_processor.py:188-201 | read as intended, "$80000 - $120000" gives (80, 120) |
| SalaryParser.PlainThousandsMisread | data_processor.py:188-201 | the two readings disagree on "$80000 - $120000": (80, 0.12) as written, (80, 120) as intended |
| SalaryParser.IntendedTakesWholeSecond | data_processor.py:188 | read as intended, the second group takes the whole digit run |
| SalaryParser.AsWrittenCutsAfterThree | data_processor.py:188 | as written, a run of four or more digits ends the second group after three digits |
| SalaryParser.KInRangeInThousands | data_processor.py:199-201 | with a "K" in the text the two values are kept as they are |
| JobProcessor.JobCounts | data_processor.py:45 | one count per company, in input order, each the number of its listings |
| JobProcessor.DatesOf | data_processor.py:88 | only listings that carry a date contribute one |
| JobProcessor.Window | data_processor.py:92 | 30 days, today first and then back to today - 29 |
| JobProcessor.SalaryRecordOf | data_processor.py:107-117 | a record exists exactly when the listing has a salary text whose range, read as the program's regular expression reads it, parses with a non-zero minimum and maximum; it holds the title, the range and their mean |
| JobProcessor.SalaryRecords | data_processor.py:106-119 | at most one record per listing, each with the as-written parse's non-zero bounds and avg = (min + max) / 2 |
| JobProcessor.PerCompany | data_processor.py:43-57 | one entry per company, in input order, holding that company's result |
| JobProcessor.UnionOver | data_processor.py:38-40 | a value is in the union exactly when some company's listings give it |
| JobProcessor.CountRoles | data_processor.py:48-57 | the loop builds the title tally and adds the titles to the union |
| JobProcessor.CountLocations | data_processor.py:60-69 | the loop builds the location tally and adds the locations to the union |
| JobProcessor.TallyFound | data_processor.py:78-83 | each extracted skill is counted once more and added to the union |
| JobProcessor.CountRequirementSkills | data_processor.py:74-83 | the skills `\b<kw>\b` finds in every requirement of a listing are counted and added to the union |
| JobProcessor.CountSkills | data_processor.py:72-85 | the loop builds the skill tally of all listings and adds the skills to the union |
| JobProcessor.CountDates | data_processor.py:88-103 | the loop builds the 30-day series: zero-filled, then one more for every dated listing inside the window |
| JobProcessor.SalaryStep | data_processor.py:108-117 | one listing gives its salary record under the as-written parse, or none |
| JobProcessor.CollectSalaries | data_processor.py:106-119 | the loop collects the salary records of the listings in order |
| JobProcessor.ProcessCompany | data_processor.py:43-119 | one company's tallies, series and salary records, and the grown unions |
| JobProcessor.ProcessJobData | data_processor.py:15-140 | companies and job counts always follow the input; a malformed listing gives the skeleton with empty maps; otherwise every per-company map is the company's tally, series and records, and the three lists are the unions of the per-company keys, without repeats |
| JobProcessor.TitlesAndLocationsCount | data_processor.py:49-67 | every well-formed listing gives one title and one location |
| JobProcessor.TalliesSumToListings | data_processor.py:48-69 | a company's role counts and its location counts each add up to its number of listings |
| JobProcessor.TalliesCountOccurrences | data_processor.py:48-85 | a tally has a key exactly for the values that occur, and counts how often each occurs |
| JobProcessor.UnionIsKeyUnion | data_processor.py:55-124 | a value is in a union exactly when it is a key of some company's tally |
| JobProcessor.RoleUnionIsKeyUnion | data_processor.py:55 | `all_roles` holds exactly the keys of the per-company role tallies |
| JobProcessor.LocationUnionIsKeyUnion | data_processor.py:67 | `all_locations` holds exactly the keys of the per-company location tallies |
| JobProcessor.SkillUnionIsKeyUnion | data_processor.py:83 | `all_skills` holds exactly the keys of the per-company skill tallies |
| JobProcessor.DatedWithinBound | data_processor.py:98-101 | no more listings are dated inside the window than there are listings |
| JobProcessor.WindowDistinct | data_processor.py:92 | the 30 days of the window are distinct |
| JobProcessor.WindowHas | data_processor.py:92 | a day is in the window exactly when it lies between today - 29 and today |
| JobProcessor.ZeroSeriesShape | data_processor.py:94-96 | the zero-filled series has the days as keys, every value 0 |
| JobProcessor.CountDaysShape | data_processor.py:98-101 | counting dates keeps the keys and adds one per date that is a key |
| JobProcessor.HitsOfWindow | data_processor.py:98-101 | the dates that hit the window are the listings dated inside it |
| JobProcessor.TimeSeriesShape | data_processor.py:91-103 | a company's series has exactly the 30 days of the window as keys, and its values add up to the number of listings dated inside it, at most the number of listings |
| JobProcessor.ZeroSeriesOfWindow | data_processor.py:92-96 | before counting, every one of the 30 days maps to 0 |
| JobAggregator.Zip | data_processor.py:235 | pairs the companies with their counts position by position, up to the shorter list |
| JobAggregator.CellsOf | data_processor.py:264-268 | one cell per company, in order, holding the company's count or 0 |
| JobAggregator.RowsOf | data_processor.py:262-279 | one row per key, in key order |
| JobAggregator.RowCells | data_processor.py:264-268 | every row has every company as a key, with its count where it has the key and 0 otherwise |
| JobAggregator.CopyEntries | data_processor.py:239-248 | the copy loop rebuilds the dict entry by entry |
| JobAggregator.CopyIsIdentity | data_processor.py:239-248 | on a dict, the copy equals the original |
| JobAggregator.TotalsParallel | data_processor.py:235-236 | with distinct companies, the totals dict pairs each company with its count, in order |
| JobAggregator.BuildRow | data_processor.py:263-269 | the loop builds one distribution row |
| JobAggregator.BuildRows | data_processor.py:262-279 | the loop builds the distribution rows, one per key |
| JobAggregator.BuildHeatRow | data_processor.py:253-259 | the loop builds one skill's heatmap cells |
| JobAggregator.BuildHeatmap | data_processor.py:251-259 | the loop builds the heatmap cells skill by skill |
| JobAggregator.HeatRowMembers | data_processor.py:253-259 | a cell is in a skill's row exactly when the company is listed and its tally has the skill with that count |
| JobAggregator.HeatmapMembers | data_processor.py:251-259 | a heatmap cell exists exactly for a listed skill and company whose tally has the skill, with that count |
| JobAggregator.AggregateJobData | data_processor.py:210-306 | a record without the union lists or without series gives the empty skeleton; otherwise the totals, the copies, the heatmap, both distribution tables and the velocity rows over the sorted days of the first series |
| JobAggregator.ColumnTotalIsTallyTotal | data_processor.py:262-279 | when the row keys cover a company's tally once each, its column adds up to the tally's total |
| JobAggregator.LocationColumnsSumToJobCounts | data_processor.py:262-269 | on a processed record, each company's location column adds up to its number of listings |
| JobAggregator.RoleColumnsSumToJobCounts | data_processor.py:272-279 | on a processed record, each company's role column adds up to its number of listings |
| JobAggregator.RowKeysOfRows | data_processor.py:283-290 | the rows carry their keys in order |
| JobAggregator.VelocityDays | data_processor.py:282-290 | the velocity rows are the 30 days of the window, in ascending order |
| HiringTrends.CompanyVelocity | analyzer.py:42-61 | one company's surge or decline from the earlier and recent halves of the series |
| HiringTrends.AnalyzeVelocity | analyzer.py:36-61 | the loop over the listed companies appends each one's surge or decline, in company order |
| HiringTrends.HalvesCoverSeries | analyzer.py:36-43 | the earlier half `[:len//2]` and the recent half `[len//2:]` together hold every job of the company |
| HiringTrends.VelocitySound | analyzer.py:40-61 | every velocity insight belongs to a listed company |
| HiringTrends.VelocityComplete | analyzer.py:40-61 | every listed company's insight is reported |
| HiringTrends.SurgeIff | analyzer.py:45-54 | a surge is reported exactly for a listed company with earlier jobs whose change is strictly above +30% |
| HiringTrends.DeclineIff | analyzer.py:45-61 | a decline is reported exactly for a listed company with earlier jobs whose change is strictly below -30% |
| HiringTrends.VelocityKinds | analyzer.py:48-61 | the velocity part reports only surges and declines |
| HiringTrends.TechFocus | analyzer.py:89-100 | the loop over the five categories appends a focus for each category counted at least 3 times |
| HiringTrends.AnalyzeRoles | analyzer.py:64-100 | the loop over the companies' role tallies appends the leadership and technology insights in order |
| HiringTrends.TechMembers | analyzer.py:89-100 | a focus is reported exactly for a category whose keyword count (case-insensitive) is at least 3 |
| HiringTrends.LeadershipIff | analyzer.py:67-78 | leadership changes are reported exactly when the case-sensitive leadership count of a company is at least 2 |
| HiringTrends.TechIff | analyzer.py:81-100 | a technology focus is reported exactly for a company and category whose count is at least 3 |
| HiringTrends.RoleKinds | analyzer.py:64-100 | the role part reports only leadership changes and technology focus |
| HiringTrends.RemoteCountBounds | analyzer.py:105-108 | the remote count lies between 0 and the company's total |
| HiringTrends.RemotePercentageBounds | analyzer.py:108-110 | with a positive total, the remote percentage lies in [0, 100] |
| HiringTrends.RegionCounts | analyzer.py:130-134 | one count per region |
| HiringTrends.RegionCountsAt | analyzer.py:130-134 | a region's count is the sum over the locations that mention any of its keywords; a location can count for several regions |
| HiringTrends.CountRegions | analyzer.py:130-134 | the nested loop accumulates the region counts |
| HiringTrends.LocationFocus | analyzer.py:105-145 | one company's remote-work and geographic insights |
| HiringTrends.AnalyzeLocations | analyzer.py:103-145 | the loop over the companies' location tallies appends their insights in order |
| HiringTrends.RegionMembers | analyzer.py:137-145 | an expansion is reported exactly for a region counted at least 3 times |
| HiringTrends.RemoteIff | analyzer.py:105-118 | remote work is reported exactly for a company with a positive total whose remote share is strictly above 50% |
| HiringTrends.GeographicIff | analyzer.py:121-145 | an expansion is reported exactly for a company and region whose count is at least 3 |
| HiringTrends.LocationKinds | analyzer.py:103-145 | the location part reports only remote work and geographic expansion |
| HiringTrends.AnalyzeHiringTrends | analyzer.py:16-152 | the velocity, role and location parts, each present only when its input is; velocity data without a company list gives the empty result |
| HiringTrends.HiringSurgeReported | analyzer.py:32-61 | over the whole analysis, a surge is reported exactly when velocity data and companies are present and the company qualifies |
| HiringTrends.HiringDeclineReported | analyzer.py:32-61 | over the whole analysis, a decline is reported exactly when velocity data and companies are present and the company qualifies |
| HiringTrends.LeadershipReported | analyzer.py:64-78 | over the whole analysis, leadership changes are reported exactly when role data is present, the analysis does not fail, and the count is at least 2 |
| HiringTrends.RemoteReported | analyzer.py:103-118 | over the whole analysis, remote work is reported exactly when location data is present, the analysis does not fail, and the share is above 50% |
| HiringTrends.TechnologyFocusReported | analyzer.py:80-100 | over the whole analysis, a technology focus is reported exactly when role data is present, the analysis does not fail, and the count is at least 3 |
| HiringTrends.GeographicExpansionReported | analyzer.py:120-145 | over the whole analysis, an expansion is reported exactly when location data is present, the analysis does not fail, and the count is at least 3 |
| SkillPatterns.BandCandidates | analyzer.py:183-188 | the loop over the skills collects exactly the candidates of a band, with their prevalence and total demand |
| SkillPatterns.CompanyUniqueSkills | analyzer.py:222-242 | one company's unique-skill insights, from its top three unique skills |
| SkillPatterns.IdentifySkillPatterns | analyzer.py:154-249 | the emerging, competitive and unique-skill insights, in that order; nothing without skill data |
| SkillPatterns.AllSkillsMembers | analyzer.py:171-173 | a skill is in the union exactly when some company's tally holds it |
| SkillPatterns.CandidatesIff | analyzer.py:176-188 | a (skill, prevalence, demand) triple is a candidate exactly when it carries the skill's prevalence and demand and lies in the band: prevalence in [0.1, 0.4] with demand at least 5, or prevalence at least 0.7 with demand at least 10 |
| SkillPatterns.BandTopSpec | analyzer.py:190-192 | the reported skills are at most five candidates, by descending demand, none beaten by an unreported candidate; with five or fewer candidates all are reported |
| SkillPatterns.BandTopFromCandidates | analyzer.py:190-192 | at most five, all candidates, sorted by descending demand |
| SkillPatterns.BandTopBeatsRest | analyzer.py:190-192 | a reported skill has at least the demand of every candidate left out |
| SkillPatterns.BandTopAllWhenFew | analyzer.py:190-192 | with five or fewer candidates every one is reported |
| SkillPatterns.BandsDisjoint | analyzer.py:183-207 | no skill is both emerging and competitive |
| SkillPatterns.StatInsights | analyzer.py:192-199 | one insight per reported skill, in order |
| SkillPatterns.StatInsightsMembers | analyzer.py:192-199 | a skill's insight is listed exactly when the skill is reported |
| SkillPatterns.StatInsightsKinds | analyzer.py:193-217 | the band decides the insight kind |
| SkillPatterns.OthersWithZero | analyzer.py:227-230 | no other company uses the skill exactly when the count of other companies is 0 |
| SkillPatterns.UniqueCandidatesIff | analyzer.py:225-231 | a skill is a unique candidate exactly when it is in the company's tally with count at least 2 and no other company has it |
| SkillPatterns.UniqueTopBound | analyzer.py:233-235 | at most three unique skills per company, by descending count |
| SkillPatterns.UniqueInsightsOf | analyzer.py:235-242 | one insight per unique skill, for that company |
| SkillPatterns.UniqueSkillSound | analyzer.py:220-242 | a reported unique skill belongs to a listed company with data, appears at least twice there and in no other company |
| SkillPatterns.UniqueSkillComplete | analyzer.py:220-242 | such a skill is reported when the company has at most three unique candidates |
| SkillPatterns.UniqueTopBeatsRest | analyzer.py:233-235 | the three kept unique skills count at least as much as every unique candidate left out |
| SkillPatterns.UniqueSkillInTop | analyzer.py:220-242 | a reported unique skill of a company is one of its top three |
| SkillPatterns.UniqueTopReported | analyzer.py:220-242 | each of a listed company's top three unique skills is reported |
| SkillPatterns.UniqueSkillDominates | analyzer.py:220-242 | a reported unique skill counts at least as much as every unique candidate of the same company that is not reported |
| SkillPatterns.UniqueKinds | analyzer.py:220-242 | the company part reports only unique skills |
| SkillPatterns.EmergingReported | analyzer.py:169-199 | an emerging skill is reported exactly when skill data and a non-empty company list are present and it is among the band's top five |
| SkillPatterns.CompetitiveReported | analyzer.py:169-218 | a competitive skill is reported exactly when skill data and a non-empty company list are present and it is among the band's top five |
| MarketShifts.FirstGroupSpec | analyzer.py:286-290 | a role or location goes to the first group with a keyword it contains (case-insensitive), and to none exactly when no group matches |
| MarketShifts.AssignGroup | analyzer.py:286-290 | the loop with its early exit finds that first group |
| MarketShifts.GroupTotalStep | analyzer.py:282-295 | each row adds the listed companies' counts to its group and nothing elsewhere |
| MarketShifts.RowShareStep | analyzer.py:293-295 | each listed company present in the row adds its count, once per occurrence in the list |
| MarketShifts.AddRow | analyzer.py:292-295 | adding one row changes only the assigned group's cell of each company, by that company's count |
| MarketShifts.TallyGroups | analyzer.py:279-295 | the nested loops build the per-company group counts, one row of counts per distinct listed company |
| MarketShifts.RowShareOnce | analyzer.py:279-295 | with a duplicate-free company list, a row adds exactly the company's own count |
| MarketShifts.RowShareAbsent | analyzer.py:293-295 | an unlisted company gets nothing from a row |
| MarketShifts.GroupTotalOnce | analyzer.py:279-295 | with a duplicate-free company list, a company's group count is the sum of its counts over the rows assigned to the group |
| MarketShifts.ShareDict | analyzer.py:302-303 | each group's percentage is its count over the total, times 100 |
| MarketShifts.ComputeShares | analyzer.py:298-303 | the loop keeps, in order, the companies with a positive total and their percentage tables |
| MarketShifts.SharesTableSound | analyzer.py:298-303 | every kept entry is a company with a positive total and its percentages |
| MarketShifts.SharesTableComplete | analyzer.py:298-303 | every company with a positive total is kept |
| MarketShifts.ShareValues | analyzer.py:302-303 | one percentage per group |
| MarketShifts.ShareSum | analyzer.py:302-303 | the percentages add up to the counts' sum over the total, times 100 |
| MarketShifts.SharesSumTo100 | analyzer.py:298-303 | a company's category percentages add up to 100 |
| MarketShifts.CategoryFocusOfSound | analyzer.py:306-315 | a category focus names a category whose percentage is at least 40 |
| MarketShifts.CategoryFocusOfComplete | analyzer.py:306-315 | every category at 40 percent or more is reported |
| MarketShifts.CompanyFocus | analyzer.py:307-315 | the loop over one company's categories collects its focuses |
| MarketShifts.FocusLoop | analyzer.py:306-315 | the loop over the companies collects the focuses of each, in order |
| MarketShifts.GeoShiftOfSound | analyzer.py:375-385 | a geographic shift names a region other than North America whose percentage is at least 20 |
| MarketShifts.GeoShiftOfComplete | analyzer.py:375-385 | every such region is reported |
| MarketShifts.CompanyGeoShift | analyzer.py:375-385 | the loop over one company's regions collects its shifts |
| MarketShifts.GeoShiftLoop | analyzer.py:372-385 | the loop over the companies collects the shifts of each, in order |
| MarketShifts.Column | analyzer.py:320-321 | one (company, percentage) pair per kept company |
| MarketShifts.DivergentOne | analyzer.py:320-340 | one category's divergence check over the sorted column |
| MarketShifts.DivergentLoop | analyzer.py:318-340 | the loop over the categories collects the divergences, in category order |
| MarketShifts.SortedExtremes | analyzer.py:323-327 | after the descending sort the first pair has the largest and the last pair the smallest percentage, both from the column |
| MarketShifts.DivergenceSound | analyzer.py:325-330 | a divergence is reported only for a column of two or more whose top and bottom differ by at least 30 with the top at least 25 |
| MarketShifts.DivergenceComplete | analyzer.py:325-330 | such a column reports its divergence |
| MarketShifts.DivergenceNamesExtremes | analyzer.py:326-340 | a divergence names the category, a top and a bottom pair from the column bounding all others, and their difference |
| MarketShifts.RoleShifts | analyzer.py:267-340 | the role part: focuses then divergences |
| MarketShifts.GeoShifts | analyzer.py:343-385 | the location part: geographic shifts |
| MarketShifts.DetectMarketShifts | analyzer.py:251-392 | the role part then the location part, each present only when its input is |
| MarketShifts.SharesOfEntry | analyzer.py:298-303 | every percentage entry is a listed company with a positive total |
| MarketShifts.SharesOfHas | analyzer.py:298-303 | every listed company with a positive total has its entry |
| MarketShifts.CategoryFocusSound | analyzer.py:279-315 | a reported focus is a listed company whose category share of its counted roles is at least 40 |
| MarketShifts.CategoryFocusComplete | analyzer.py:279-315 | every listed company with such a share is reported |
| MarketShifts.GeographicShiftSound | analyzer.py:353-385 | a reported shift is a listed company whose share of a region other than North America is at least 20 |
| MarketShifts.GeographicShiftComplete | analyzer.py:353-385 | every listed company with such a share is reported |
| IndustryTrends.Grouped | analyzer.py:409-415 | one group per distinct non-empty industry, in first-appearance order |
| IndustryTrends.IndustriesOfMembers | analyzer.py:410-413 | an industry is listed exactly when some record carries it and it is non-empty |
| IndustryTrends.GroupedKeys | analyzer.py:409-415 | a group exists exactly for the industries that some record carries |
| IndustryTrends.GroupedStep | analyzer.py:410-415 | one record either leaves the groups alone (no industry) or appends its name to its industry's group |
| IndustryTrends.GroupedSkip | analyzer.py:412 | a record without an industry changes nothing |
| IndustryTrends.GroupedKnown | analyzer.py:413-415 | a record of a known industry appends its name to that group |
| IndustryTrends.GroupedNew | analyzer.py:413-415 | a record of a new industry opens a group holding its name |
| IndustryTrends.IndustriesOfNonEmpty | analyzer.py:412 | no group is made for an empty industry |
| IndustryTrends.MembersOfAbsent | analyzer.py:409-415 | an industry no record carries has no members |
| IndustryTrends.GroupByIndustry | analyzer.py:409-415 | the loop builds exactly the groups |
| IndustryTrends.VelocityTable | analyzer.py:432-436 | one velocity entry per distinct present company |
| IndustryTrends.VelocityTablePut | analyzer.py:436 | writing a company's velocity again keeps one entry per company |
| IndustryTrends.VelocitiesStep | analyzer.py:432-436 | a member that is a listed company, with a non-empty series, gets its mean jobs per period; others add nothing |
| IndustryTrends.CompanyVelocities | analyzer.py:430-436 | the loop builds the velocity table |
| IndustryTrends.AboveAverageMembers | analyzer.py:446-447 | a company is above average exactly when its velocity is at least 1.25 times the mean |
| IndustryTrends.LeaderSound | analyzer.py:438-467 | a leader is a company with the highest velocity, at least 1.25 times the mean, with the mean and the percentage above it |
| IndustryTrends.LeaderComplete | analyzer.py:446-467 | a table with a company at 1.25 times the mean or more reports a leader |
| IndustryTrends.AddCountsGet | analyzer.py:476-479 | adding one company's tally raises each skill's total by that company's count |
| IndustryTrends.AddCountsKeys | analyzer.py:476-479 | the merged skills are those of both tallies, each once |
| IndustryTrends.MergedGet | analyzer.py:472-479 | a skill's industry total is the sum of its counts over the members with a tally |
| IndustryTrends.MergedKeys | analyzer.py:472-479 | a skill has an industry total exactly when some member with a tally has it |
| IndustryTrends.AddCountsStep | analyzer.py:476-479 | one skill of a tally bumps its total |
| IndustryTrends.MergedStep | analyzer.py:473-479 | one member adds its whole tally when it has one |
| IndustryTrends.AddCompany | analyzer.py:476-479 | the loop over one tally adds it |
| IndustryTrends.MergeCounts | analyzer.py:472-479 | the loop over the members builds the industry totals |
| IndustryTrends.TopKeysOfDict | analyzer.py:483 | the top keys of a tally are min(k, its size) of its keys, none beaten by a key left out |
| IndustryTrends.TopKeyPresent | analyzer.py:483 | a top key is a key of the tally |
| IndustryTrends.TopKeyDominates | analyzer.py:483 | a top key counts at least as much as every key left out |
| IndustryTrends.TopKeysSpec | analyzer.py:472-489 | the top five industry skills are min(5, how many) of them, none with a smaller total than a skill left out |
| IndustryTrends.HavingCount | analyzer.py:504-506 | at most one per member |
| IndustryTrends.SpecificCandidatesMembers | analyzer.py:499-524 | a skill is a candidate exactly when it is an industry skill with prevalence at least 0.4 and ratio at least 2 |
| IndustryTrends.SpecificLoop | analyzer.py:499-524 | the loop collects exactly the candidates |
| IndustryTrends.SpecificSound | analyzer.py:526-536 | the reported specific skill is an industry skill that qualifies and has the highest ratio |
| IndustryTrends.SpecificComplete | analyzer.py:526-536 | a qualifying skill means one is reported |
| IndustryTrends.UnsharedSkillQualifies | analyzer.py:512-523 | a skill no other industry has gets the infinite ratio and qualifies at prevalence 0.4 |
| IndustryTrends.SkillPart | analyzer.py:470-536 | the top-skills insight and the specific skill |
| IndustryTrends.HubPart | analyzer.py:539-560 | the top-three-locations insight |
| IndustryTrends.LeaderPart | analyzer.py:428-467 | the leader insight |
| IndustryTrends.AnalyzeIndustry | analyzer.py:420-560 | one industry's insights: leader, skills, specific skill, hubs |
| IndustryTrends.AnalyzeEntry | analyzer.py:420-560 | one group's entry |
| IndustryTrends.AnalyzeGroups | analyzer.py:417-560 | one entry per group, in order |
| IndustryTrends.AnalyzeIndustryTrends | analyzer.py:394-567 | the grouped analysis, or the empty result when the analysis fails |
| IndustryTrends.IndustryEntries | analyzer.py:409-567 | an industry has an entry exactly when the analysis does not fail and some record carries it; the entry is that industry's analysis of its members |
| IndustryTrends.SmallIndustryEmpty | analyzer.py:423-425 | an industry with fewer than two members gets an empty list |
| IndustryTrends.IndustryInsightsTagged | analyzer.py:460-560 | every industry insight is of one of the four industry kinds and names its industry |
| IndustryTrends.IndustryLeaderReported | analyzer.py:428-467 | a reported leader comes from velocity data for an industry of two or more, and has the highest velocity, at least 1.25 times the mean |
| IndustryTrends.PresentMembers | analyzer.py:434 | only listed companies enter the velocity table |
| IndustryTrends.LeaderPartShape | analyzer.py:428-467 | at most one insight, a leader |
| IndustryTrends.SkillPartShape | analyzer.py:470-536 | at most the top-skills insight with at most five skills, then at most one specific skill |
| IndustryTrends.HubPartShape | analyzer.py:539-560 | at most one hubs insight, with at most three locations |
| IndustryTrends.ShapeOfParts | analyzer.py:420-560 | the three parts in a row hold at most four insights, one per kind, in the order leader, skills, specific skill, hubs |
| IndustryTrends.IndustryShape | analyzer.py:420-560 | an industry's list holds at most one insight of each kind, in that order, with at most five top skills and three top locations |
| Recommendations.OfKindMembers | analyzer.py:588-593 | an insight is in its type's group exactly when it is one of the insights and of that type |
| Recommendations.OfKindHead | analyzer.py:588-597 | a type's group starts with the first insight of that type |
| Recommendations.OfKindNone | analyzer.py:588-593 | a type no insight has gets an empty group |
| Recommendations.OfKindStep | analyzer.py:589-593 | each insight is appended to its own type's group only |
| Recommendations.GroupByType | analyzer.py:588-593 | the loop builds each type's group, in input order, with a key exactly for the types present |
| Recommendations.IndustryRecs | analyzer.py:585-647 | one industry's recommendations from the first insight of each industry type |
| Recommendations.GenerateIndustryRecommendations | analyzer.py:569-654 | one entry per industry, in order, holding its recommendations |
| Recommendations.IndustryRecommendationsEntries | analyzer.py:584-647 | the result keeps the industries and their order, each with its own recommendations |
| Recommendations.IndustryRecsParts | analyzer.py:595-647 | each recommendation kind comes from its own insight type |
| Recommendations.IndustrySkillRecSound | analyzer.py:595-607 | a skill investment names the first three top skills of the first, non-empty skills insight, at high priority |
| Recommendations.IndustrySkillRecComplete | analyzer.py:595-607 | a first skills insight with skills yields that recommendation |
| Recommendations.IndustryCompetitorRecSound | analyzer.py:623-634 | a competitor analysis names the company of the first leader insight, at high priority |
| Recommendations.IndustryCompetitorRecComplete | analyzer.py:623-634 | a first leader insight with a company yields that recommendation |
| Recommendations.IndustryLocationRecSound | analyzer.py:609-621 | a location strategy names the first top location of the first hubs insight, at medium priority |
| Recommendations.IndustrySpecializationRecSound | analyzer.py:636-647 | a specialization names the skill of the first specific-skill insight, at medium priority |
| Recommendations.IndustryLocationRecComplete | analyzer.py:609-621 | the converse: a first hubs insight with some location gives that location strategy |
| Recommendations.IndustrySpecializationRecComplete | analyzer.py:636-647 | the converse: a first specific-skill insight with a skill gives that specialization |
| Recommendations.IndustryRecsBound | analyzer.py:595-647 | at most four recommendations per industry |
| Recommendations.FirstOfKind | analyzer.py:588-597 | a non-empty group starts with the first insight of its type |
| StrategicRecommendations.FieldOfKindSound | analyzer.py:681 | every collected name comes from an insight of that type |
| StrategicRecommendations.FieldOfKindComplete | analyzer.py:681 | every insight of that type contributes its name |
| StrategicRecommendations.MostCommonSpec | analyzer.py:693-695 | the most common value is absent only for an empty list, occurs in it, carries its count, and no value occurs more often |
| StrategicRecommendations.InvestmentRec | analyzer.py:680-689 | at most one skill investment |
| StrategicRecommendations.ExpansionRec | analyzer.py:692-702 | at most one expansion plan |
| StrategicRecommendations.MonitoringRec | analyzer.py:705-714 | at most one monitoring recommendation |
| StrategicRecommendations.TechnologyRec | analyzer.py:717-727 | at most one technology investment |
| StrategicRecommendations.AdvantageRec | analyzer.py:730-740 | at most one competitive advantage |
| StrategicRecommendations.ShiftRec | analyzer.py:743-752 | at most one strategic shift |
| StrategicRecommendations.PositioningRecs | analyzer.py:755-763 | at most two positionings |
| StrategicRecommendations.AppendInvestment | analyzer.py:680-689 | appends the skill investment, if any |
| StrategicRecommendations.AppendExpansion | analyzer.py:692-702 | appends the expansion plan, if any |
| StrategicRecommendations.AppendMonitoring | analyzer.py:705-714 | appends the monitoring recommendation, if any |
| StrategicRecommendations.AppendTechnology | analyzer.py:717-727 | appends the technology investment, if any |
| StrategicRecommendations.AppendAdvantage | analyzer.py:730-740 | appends the competitive advantage, if any |
| StrategicRecommendations.AppendShift | analyzer.py:743-752 | appends the strategic shift, if any |
| StrategicRecommendations.AppendPositionings | analyzer.py:755-763 | the loop appends a positioning for each of the first two divergences |
| StrategicRecommendations.GenerateStrategicRecommendations | analyzer.py:656-770 | the seven rules applied in order to the insights grouped by type |
| StrategicRecommendations.StrategicRecsParts | analyzer.py:680-763 | each recommendation kind comes from its own insight type |
| StrategicRecommendations.InvestmentRecSound | analyzer.py:680-689 | a skill investment has high priority, one to three skills, each from an emerging-skill insight |
| StrategicRecommendations.MonitoringRecSound | analyzer.py:705-714 | a monitoring recommendation has high priority, one to three companies, each from a surge |
| StrategicRecommendations.ShiftRecSound | analyzer.py:743-752 | a strategic shift has medium priority, one or two companies, each with leadership changes |
| StrategicRecommendations.StrategicRecsBound | analyzer.py:680-763 | at most eight recommendations |
| StrategicRecommendations.InvestmentSound | analyzer.py:680-689 | a skill investment has high priority and names one to three emerging skills |
| StrategicRecommendations.InvestmentComplete | analyzer.py:680-689 | an emerging skill among the insights yields a skill investment |
| StrategicRecommendations.MonitoringSound | analyzer.py:705-714 | a monitoring recommendation has high priority and names one to three surging companies |
| StrategicRecommendations.MonitoringComplete | analyzer.py:705-714 | a surge among the insights yields a monitoring recommendation |
| StrategicRecommendations.ShiftSound | analyzer.py:743-752 | a strategic shift has medium priority and names one or two companies with leadership changes |
| StrategicRecommendations.ShiftComplete | analyzer.py:743-752 | leadership changes among the insights yield a strategic shift |
| StrategicRecommendations.ExpansionSound | analyzer.py:692-702 | an expansion plan has medium priority and names a most common shift region, counted at least twice |
| StrategicRecommendations.ExpansionComplete | analyzer.py:692-702 | a region counted at least twice yields an expansion plan |
| StrategicRecommendations.TechnologySound | analyzer.py:717-727 | a technology investment has high priority and names a most common focus category, counted at least twice |
| StrategicRecommendations.TechnologyComplete | analyzer.py:717-727 | a category counted at least twice yields a technology investment |
| StrategicRecommendations.AdvantageSound | analyzer.py:730-740 | a competitive advantage names the company and skill of the first unique-skill insight, at medium priority |
| StrategicRecommendations.AdvantageComplete | analyzer.py:730-740 | a first unique-skill insight yields that recommendation |
| StrategicRecommendations.StrategicSplit | analyzer.py:754-763 | the positionings come last |
| StrategicRecommendations.FirstDivergent | analyzer.py:755-763 | the t-th positioning comes from the t-th divergence |
| StrategicRecommendations.PositioningTail | analyzer.py:754-763 | the last min(2, divergences) recommendations are exactly the positionings, each from the divergence at its place |
| ResumeMatch.WithClassStep | resume_analyzer.py:142-150 | each job skill is appended to the list of its own class only |
| ResumeMatch.ClassPartition | resume_analyzer.py:142-150 | the matching, partial and missing lists together have as many entries as the job skills |
| ResumeMatch.WithClassMembers | resume_analyzer.py:142-150 | a skill is in a class's list exactly when it is a job skill of that class |
| ResumeMatch.ClassMeaning | resume_analyzer.py:143-150 | exact means equal to a resume skill; partial means not exact but one contains the other; missing means neither |
| ResumeMatch.ClassifySkills | resume_analyzer.py:131-150 | the loop builds the three lists, in job-skill order |
| ResumeMatch.WeightOf | resume_analyzer.py:139-140 | a weight is never below 0.5 |
| ResumeMatch.WeightBounds | resume_analyzer.py:137-140 | the weight of position i of n is 1 - i/(2n), in (0.5, 1], and 1 for the first skill |
| ResumeMatch.BuildWeights | resume_analyzer.py:136-140 | the loop builds the weight table, a later duplicate overwriting an earlier one |
| ResumeMatch.WeightTableDistinct | resume_analyzer.py:136-140 | with distinct skills the table holds each skill once, in order, with its positional weight |
| ResumeMatch.WeightTablePositive | resume_analyzer.py:136-140 | with distinct skills every weight is positive |
| ResumeMatch.SumWeights | resume_analyzer.py:157-162 | the loop sums the looked-up weights, with the default and the factor |
| ResumeMatch.LookupsSumTotal | resume_analyzer.py:154 | looking up every key of the table sums to its total weight |
| ResumeMatch.LookupsSumValues | resume_analyzer.py:154 | the same on every prefix |
| ResumeMatch.LookupsNonNegative | resume_analyzer.py:157-162 | every job skill's looked-up weight is non-negative |
| ResumeMatch.ScoreAsCredit | resume_analyzer.py:153-162 | the score is the sum over the job skills of full weight for exact, half weight for partial, nothing for missing |
| ResumeMatch.CreditBounds | resume_analyzer.py:153-162 | the score lies between 0 and the summed weights, and reaches them when every skill is exact |
| ResumeMatch.CreditWithinTotal | resume_analyzer.py:153-162 | with distinct skills the score lies between 0 and the total weight, and equals it when every skill is exact |
| ResumeMatch.PercentBounds | resume_analyzer.py:165-167 | a part of a whole gives a percentage in [0, 100], and 100 for the whole |
| ResumeMatch.TotalPositive | resume_analyzer.py:154-167 | a non-empty sum of positive weights is positive |
| ResumeMatch.PercentageBounds | resume_analyzer.py:153-167 | with distinct job skills the match percentage lies in [0, 100], and is 100 when every skill is exact |
| ResumeMatch.PercentageNoSkills | resume_analyzer.py:165-167 | no job skills give 0 |
| ResumeMatch.DuplicateSkillOverflow | resume_analyzer.py:136-167 | a repeated job skill pushes the percentage to 200: the weights are kept once but scored twice |
| ResumeMatch.CoverageCounts | resume_analyzer.py:170-177 | the coverage counts are the lengths of the three lists, which add up to the number of job skills |
| ResumeMatch.MatchResumeToJobSkills | resume_analyzer.py:117-185 | the lower-cased lists, the weighted percentage and the coverage record |
| ResumeMatch.QualityOf | resume_analyzer.py:209-212 | Excellent from 85, Good from 70 below 85, Fair from 50 below 70, Poor below 50 |
| ResumeMatch.AnalyzeResumeVsCompanyJobs | resume_analyzer.py:187-234 | one match per job, sorted by descending percentage, a permutation of the unsorted matches |
| ResumeMatch.SumBetween | resume_analyzer.py:335 | a sum of k values each in [lo, hi] lies in [k lo, k hi] |
| ResumeMatch.MeanBetween | resume_analyzer.py:337 | dividing by k keeps the mean in [lo, hi] |
| ResumeMatch.TopMeanBounds | resume_analyzer.py:330-337 | the mean of the first min(3, n) values lies between any bounds of those values |
| ResumeMatch.OpportunityBounds | resume_analyzer.py:320-337 | the opportunity score of a non-empty list lies between the bounds of its first three percentages |
| TalentMarket.Categorize | talent_analyzer.py:133-139 | first match wins: tech terms, then marketing, then design, otherwise general, on the lower-cased role |
| TalentMarket.PrefixIsSubstring | talent_analyzer.py:133 | a prefix is a substring |
| TalentMarket.MissingFirstChar | talent_analyzer.py:133 | a word whose first letter is absent is not a substring |
| TalentMarket.TotalOfFour | talent_analyzer.py:396-466 | the total of a four-row table is the sum of its rows |
| TalentMarket.TotalOfFive | talent_analyzer.py:396-433 | the total of a five-row table is the sum of its rows |
| TalentMarket.TotalUpdate | talent_analyzer.py:489-490 | replacing one row changes the total by the difference |
| TalentMarket.MoveKeepsTotal | talent_analyzer.py:483-490 | moving points from one row to another keeps the total |
| TalentMarket.EducationBreakdown | talent_analyzer.py:391-433 | every education table sums to 100 and starts with the bachelor's degree |
| TalentMarket.ExperienceTable | talent_analyzer.py:435-481 | every experience table has four rows summing to 100, entry level first and mid level second |
| TalentMarket.LevelsOf | talent_analyzer.py:484-488 | the entry and mid rows are the ones the search finds |
| TalentMarket.FirstContaining | talent_analyzer.py:484-488 | the search returns the first row whose level contains the word |
| TalentMarket.FindLevel | talent_analyzer.py:484-488 | the loop finds that first row |
| TalentMarket.FirstContainingUnique | talent_analyzer.py:484-488 | the first row holding the word is the one found |
| TalentMarket.ExperienceDistribution | talent_analyzer.py:469-492 | outside a tech hub the table as is; in one, 8 points move from entry to mid level, the other rows unchanged and the total still 100 |
| TalentMarket.GetExperienceDistribution | talent_analyzer.py:435-492 | the method's in-place adjustment gives that distribution |
| TalentMarket.RemoteSkillCount | talent_analyzer.py:537 | at most one per skill |
| TalentMarket.SkillFactor | talent_analyzer.py:538 | min(2 count, 10): between 0 and 10, at most twice the skills, zero exactly when no skill is remote-friendly |
| TalentMarket.RemoteAvailabilityOf | talent_analyzer.py:494-550 | remote at most 100, onsite at least 0, hybrid unchanged, the shifts bounded by the factor and absent with no remote-friendly skill; the trend is increasing exactly above 50 percent remote; the salary difference is -5 exactly above 60, otherwise -2 |
| TalentMarket.CalculateRemoteAvailability | talent_analyzer.py:494-550 | the method's field updates give that record |
| TalentMarket.AverageCity | talent_analyzer.py:141-150 | the averaged count is the floor of the three-way mean, between the smallest and the largest; the growth rate is the mean rounded to one decimal (`RoundTenth` of it): a multiple of a tenth within 0.05 of the mean |
| TalentMarket.AveragedCities | talent_analyzer.py:141-150 | ten averaged cities, position by position, with floored counts and growth rates rounded to one decimal |
| TalentMarket.AverageCities | talent_analyzer.py:141-150 | the loop builds them |
| TalentMarket.SecondAveragedCity | talent_analyzer.py:141-150 | the second averaged entry is New York with 9900 people and a growth rate of 4.9 |
| TalentMarket.CityTable | talent_analyzer.py:133-150 | ten cities per category; a general role gets the averaged table |
| TalentMarket.GetTopCitiesForTalent | talent_analyzer.py:89-152 | ten cities sorted by descending talent count, a permutation of the category's table |
| TalentMarket.PartialLookupFirst | talent_analyzer.py:252-255 | the partial search returns the value of the first related key, and nothing only when no key is related |
| TalentMarket.LookupMeaning | talent_analyzer.py:247-255 | nothing is found only when no key is related; an exact key decides the value whatever comes before it |
| TalentMarket.FindPrevalence | talent_analyzer.py:247-255 | the method's exact-then-partial search gives that lookup |
| TalentMarket.PrevalenceFor | talent_analyzer.py:243-266 | one skill's entry, with the drawn value when nothing matches |
| TalentMarket.PrevalenceEntries | talent_analyzer.py:242-266 | one entry per requested skill, in request order |
| TalentMarket.EntriesShape | talent_analyzer.py:258-266 | every entry's gap is 100 minus its prevalence, for a requested skill; with draws between 20 and 60, an entry whose skill no key is related to has a prevalence between 20 and 60 and a gap between 40 and 80 |
| TalentMarket.GetSkillPrevalence | talent_analyzer.py:154-269 | one entry per requested skill, sorted by descending prevalence, each with gap 100 minus prevalence; an entry that falls back to the draw has a prevalence in [20, 60] and a gap in [40, 80] |
| Notifier.AlertChange | notifier.py:255-258 | the percent change of a surge or decline, 0 for any other insight |
| Notifier.EmailConfig.constructor | notifier.py:17-28 | disabled, Gmail server on port 587 with TLS, no credentials or recipient, daily, threshold 20, never sent |
| Notifier.EmailConfig.SetupEmailPreferences | notifier.py:30-71 | enabling without a recipient fails with the preferences already written; enabling without both environment credentials substitutes the placeholders; server settings and the last send time are kept |
| Notifier.EmailConfig.ShouldSendDigest | notifier.py:210-242 | never when disabled; always before the first send; otherwise after more than 20 hours (daily) or 6 days (weekly), never for another frequency |
| Notifier.EmailConfig.SendEmail | notifier.py:73-118 | sends exactly when enabled and a recipient is given or configured, the given one winning; a send stamps the time, after which no digest is due; no other field changes |
| Notifier.EmailConfig.SendHiringAlert | notifier.py:244-289 | sends exactly when enabled, the change's magnitude reaches the threshold and a recipient is configured |
| Notifier.DigestStaysDue | notifier.py:229-242 | a due digest stays due as time passes |
| Notifier.WeeklyDueImpliesDailyDue | notifier.py:229-242 | a weekly digest due is past the daily interval too |
| Notifier.KeyInsights | notifier.py:162-163 | the key-type insights, drawn from the input |
| Notifier.KeyInsightsInOrder | notifier.py:162-163 | the key-type insights keep the input order: each sits at an input position, and the positions increase |
| Notifier.KeyInsightsComplete | notifier.py:162-163 | every key-type insight survives the filter |
| Notifier.Digest | notifier.py:160-186 | the first five key insights and the first three recommendations, each list absent exactly when given empty |
| Notifier.DigestShowsKeyInsights | notifier.py:160-171 | every shown insight is a key-type input, and with five or fewer key insights all are shown |
| Achievements.Levels | app.py:73-140 | four levels, all locked at the start |
| Achievements.FirstUnlockable | app.py:160-161 | the first level whose threshold the progress reaches and that is still locked; none exactly when no level qualifies |
| Achievements.FindUnlock | app.py:160-164 | the loop with its early return finds that level |
| Achievements.Progressed | app.py:153-164 | the progress grows by the increment; only the first unlockable level is unlocked and becomes current, and only when unlocks are checked; everything else is kept |
| Achievements.UnlockedLevel | app.py:158-167 | a level is reported exactly when unlocks are checked and one qualifies, and it is that level, now unlocked |
| Achievements.AtMostOneUnlock | app.py:160-164 | one update unlocks at most one level |
| Achievements.Advance | app.py:153-167 | the method's update gives that achievement and that report |
| Achievements.OverwriteKeepsShape | app.py:154-155 | updating one achievement in place keeps the keys and the positive maxima |
| Achievements.WeightsSumToHundred | app.py:172-178 | the five weights add up to 100 |
| Achievements.Completion | app.py:182-184 | min(1, progress / max): 1 from the maximum on, non-negative for non-negative progress |
| Achievements.Contribution | app.py:184-187 | each achievement adds between 0 and its weight, and its whole weight when complete |
| Common.RoundHalfEven | app.py:189 | Python's round: an integer within 0.5 of the value, unchanged on integers, and even on a tie |
| Common.RoundTenth | talent_analyzer.py:149 | Python's round to one decimal: a multiple of a tenth within 0.05 of the value, with an even last digit on a tie |
| Achievements.RawScoreBounds | app.py:180-187 | the weighted sum lies between 0 and the sum of the weights, and reaches it when every achievement is complete |
| Achievements.SliceTo | app.py:241 | Python's `[:count]`, negative counts included |
| Achievements.AppendNew | app.py:245-251 | the watchlist grows only at the end, stays duplicate-free, gains only non-empty offered names that were saved, and ends up holding every such name |
| Achievements.IndexOfAfterOverwrite | app.py:154-155 | overwriting an entry keeps its position and the keys |
| Achievements.Session.constructor | app.py:73-140 | the default achievements, the given watchlist, no actions |
| Achievements.Session.UpdateAchievementProgress | app.py:151-167 | an unknown key changes nothing and reports no unlock; a known one is replaced by its progressed form, with the unlock report |
| Achievements.Session.CalculateRecruitmentScore | app.py:169-189 | the rounded weighted completion; between 0 and 100 for non-negative progress, 100 when everything is complete |
| Achievements.Session.AddCompany | app.py:192-221 | the sidebar name wins over the page name; a new non-empty name that saves is appended, counted once towards companies tracked with unlocks checked, and counted as an action; otherwise nothing changes |
| Achievements.Session.OfferCompany | app.py:246-255 | one offered company: appended and counted when new, non-empty and saved |
| Achievements.Session.OfferCompanies | app.py:245-255 | the loop appends the new saved names and adds their number to the progress, without unlock checks |
| Achievements.Session.CheckCompanyUnlocks | app.py:258-259 | the zero-increment update that checks unlocks |
| Achievements.Session.AddCompanies | app.py:244-266 | the offered names appended, their number added to the progress, unlocks checked once and one action counted when any was added |
| Achievements.Session.AddTopCompanies | app.py:223-268 | the same for the first `count` names of the top-company list |
| PercentChange.PercentageChange | utils.py:535-538 | a zero baseline gives 100 exactly for a positive reading and 0 otherwise; any other baseline gives the change over it, times 100 |
| PercentChange.Ratio | utils.py:538 | the quotient times the divisor is the dividend |
| PercentChange.NoChange | utils.py:535-538 | equal readings give 0 |
| PercentChange.SignFollowsDirection | utils.py:538 | with a positive baseline, the change is positive exactly when the reading rose and negative exactly when it fell |
| PercentChange.DoublingIsHundred | utils.py:538 | doubling the baseline is a change of 100 |
| Sorting.SortDesc | analyzer.py:191 | `sort(key=..., reverse=True)`: sorted by descending key and a permutation of the input |
| Sorting.InsertDesc | analyzer.py:191 | inserting into a descending list keeps it descending and adds exactly the new element |
| Sorting.SortDescBounds | analyzer.py:323-327 | the first element has the largest key and the last the smallest |
| Sorting.SortDescEnds | analyzer.py:323-327 | the first and the last element of the sorted list come from the input |
| Sorting.TopKSpec | analyzer.py:191-192 | the first k of the sorted list are min(k, n) inputs, descending, none with a smaller key than an input left out |
| Sorting.FirstMaxIndex | analyzer.py:528-529 | the element taken first after a descending stable sort: a largest key, and the first one with it |
| Assoc.TallyOfCorrect | analyzer.py:693 | `Counter`: each value's count is its multiplicity, the keys are the values, the counts add up to the length |
| Assoc.PutGet | data_processor.py:48-57 | after a dictionary assignment the key holds the new value |
| Assoc.PutOther | data_processor.py:48-57 | a dictionary assignment leaves every other key alone |

`ResumeMatch.DuplicateSkillOverflow` records a flaw that the model keeps
as written. When a job lists the same skill twice, the weight table keeps
the skill once, but the score counts it twice. The match percentage can
then exceed 100: `["a", "a"]` against a resume with `"a"` gives 200.
`ResumeMatch.PercentageBounds` therefore requires distinct job skills.

## Left out

- Rendering, storage and collection are not part of this model:
  - the Streamlit pages and session-state plumbing;
  - the Plotly figures;
  - the SQLite watchlist store;
  - the scraper;
  - the HTML of the digest and alert e-mails;
  - every f-string insight or recommendation text and its `:.1f`
    formatting. Only the type and the numeric and name fields of each
    insight are modelled, and the industry leader also carries the
    percentage above the industry mean that its text reports
    (analyzer.py:458-461), which the source computes for the text alone.
- A distribution row is modelled as a label and its cells, held apart.
  In the source each row of the location, role and velocity tables is one
  dict (data_processor.py:262-289). The dict holds the label under
  `"location"`, `"role"` or `"date"` and each company's count under the
  company's name, so a watched company with that name overwrites the
  label with its count. The members below do not capture that overwrite:
- AggregateJobData (`JobAggregator.AggregateJobData`): its tables keep the
  label of every row, whatever the company names.
- RowsOf (`JobAggregator.RowsOf`): each row keeps its label beside the
  cells.
- CellsOf (`JobAggregator.CellsOf`): a company named `"location"`,
  `"role"` or `"date"` gets a cell like any other and leaves the label
  alone.
- BuildRow (`JobAggregator.BuildRow`): builds the label and the cells of
  one row apart.
- BuildRows (`JobAggregator.BuildRows`): builds every row that way.
- RowKeysOfRows (`JobAggregator.RowKeysOfRows`): states that the rows
  carry their keys in order. In the source that fails for a company
  named after the label.
- RoleShifts (`MarketShifts.RoleShifts`): with a company named `"role"`
  and a non-empty role table, the source calls `.lower()` on the
  overwritten label, an int (analyzer.py:283-288). The handler then
  returns `[]` (analyzer.py:390-392). The model reports the usual focuses
  and divergences.
- GeoShifts (`MarketShifts.GeoShifts`): the same with a company named
  `"location"` and the location table (analyzer.py:357-362).
- DetectMarketShifts (`MarketShifts.DetectMarketShifts`): because of the
  two lines above, it does not return `[]` for such a company.
- Logging, and the exceptions themselves. Each catch-all handler becomes
  the condition that would raise, returning the empty value the handler
  returns.
- Outside effects become parameters:
  - the clock: `today` and `now`;
  - the environment: the `SENDER_EMAIL` and `SENDER_PASSWORD` strings;
  - the result of `save_company_to_watch` (database.py:94-119):
    `saveOk` and `saved`;
  - the random fallback of `get_skill_prevalence`
    (talent_analyzer.py:258-260): `draws`, each between 20 and 60 as
    `random.randint(20, 60)` gives.
- `extract_resume_content` and the insight prose of
  `generate_resume_insights` (resume_analyzer.py) are not modelled.
- Also not modelled, because they are random, clock-based or
  presentation-only:
  - `calculate_candidate_estimate`, `calculate_talent_growth_rate`,
    `get_competing_companies` and `analyze_talent_availability`
    (talent_analyzer.py);
  - `get_demo_data`, `format_number` and `parse_date_range`
    (utils.py).
- Character handling is ASCII only, with no Unicode case folding:
  - `.lower()`;
  - the regex classes `\w`, `\d` and `\s`: each is Python's class on a
    `str` pattern cut down to its ASCII members, so `\s` takes the space,
    `\t` to `\r` and U+001C to U+001F, and no non-ASCII white space;
  - the `\b` word boundary.
- Floats are exact reals, so float rounding error is not modelled. Three
  roundings are modelled: Python's `round` in the recruitment score
  (half to even), `round(avg_growth, 1)` in the averaged city table (to
  the nearest tenth, ties to even; the tables' means are multiples of
  1/30, so no tie arises), and integer floor division of its counts.
- Dates are day numbers. The `"%Y-%m-%d"` parsing and formatting is not
  modelled; a value that fails to parse is the `Malformed` case of a
  listing's date.
- The iteration order of Python sets is unspecified:
  - `all_roles`, `all_locations` and `all_skills` are built in
    first-occurrence order, and their contracts state only membership
    and the absence of repeats;
  - the skill order behind `skill_prevalence` is a parameter of
    `SkillPatterns.IdentifySkillPatterns`, for any duplicate-free listing
    of the skills.
- Tie order among equal sort keys is not pinned down by any contract:
  `Sorting.SortDesc` is not proved stable. Where the source reads the
  first element after Python's stable sort, `Sorting.FirstMaxIndex`
  models that element directly as the first maximal one; no lemma ties
  it to `Sorting.SortDesc`.
- The key mismatches between the stages are not modelled. Each function
  is modelled over its own input record. The mismatches are:
  - `aggregate_job_data` returns no `companies` key, which the analyzers
    read (data_processor.py:223-232, analyzer.py:40);
  - the app passes processed data straight to `analyze_industry_trends`.
- `Achievements.Session.AddCompany` and
  `Achievements.Session.AddTopCompanies` take `'achievements'` and
  `'gamification_stats'` to be present in the session, because the
  start-up code always creates them (app.py:73-148).
- The streak and last-active fields of `gamification_stats` are not
  modelled, because the modelled functions never read or write them.
- `Notifier.Digest` omits the `"medium"` default for a missing priority.
  Every modelled recommendation carries a priority, so the default never
  applies.
- The docstring of `setup_email_preferences` names a
  `"significant_changes"` frequency, but `should_send_digest` tests
  `"significant_changes_only"`. Both give False once a mail has been
  sent, and `Notifier.EmailConfig.ShouldSendDigest` states that any
  frequency other than daily and weekly gives False.

## Findings

| source | as written | input that shows it | evidently intended | confidence | as-written member | corrected member |
|---|---|---|---|---|---|---|
| data_processor.py:188 | In the second group, `\d{1,3}(?:,\d{3})*` is tried before `\d+`. With no comma, the group stops after three digits. | `"$80000 - $120000"` gives (80, 0.12) | the whole digit run, giving (80, 120) | not executed | SalaryParser.PlainThousandsMisread | SalaryParser.PlainThousandsIntended |
| data_processor.py:171 | `\bC\+\+\b`: a keyword ending in a non-word character matches only when a word character follows it. | `"Strong C++"` does not report "C++" | a match of the keyword as a whole token | not executed | SkillExtractor.CPlusPlusAtEndMissed | SkillExtractor.Mentioned |

The processing pipeline uses the as-written halves, `SalaryRange(.., AsWritten)` and `SkillExtractor.Found`, because they are what the program computes. The corrected halves are modelled beside them and proved to have the intended properties.
