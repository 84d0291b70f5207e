# pbRun training metrics — a Dafny model

pbRun is a personal running dashboard. It pulls activities from Garmin and
COROS into a SQLite database, enriches each run with a VDOT estimate, a
training load and heart-rate zones, pre-aggregates per-period statistics
into two cache tables, and serves them to a Next.js front end. This project
models, in Dafny, the parts of pbRun that compute or decide something:

- **the metrics engine**: heart-rate zones, the VDOT estimate and the
  training load of `scripts/vdot-calculator.js` (module `VdotCalculator`),
  and the pace zones derived from a VDOT in `app/lib/vdot-pace.ts`
  (`VdotPace`);
- **the statistics cache builder** `scripts/preprocess-stats-cache.js`
  (`StatsCache`): period keys, the lap and activity selections, the per-key
  aggregation loops, the upserts, `build` and the command line;
- **the COROS sync script** `scripts/sync-coros.js` (`SyncCoros`): which
  activities are fetched, the stored row with its VDOT and load, the
  progress lines it prints, and its options;
- **the data validator** `scripts/validate-data.js` (`ValidateData`): every
  check of both phases, as a class that accumulates issues and warnings;
- **the sync routes**: the plain sync handler (`SyncRoute`), the streaming
  sync with its progress parsing (`SyncStream`) and the clean-up of
  sourceless activities (`CleanOldData`);
- **the query layer** `lib/db.ts` (`DbQuery`) and the query-parameter
  validation of the analysis and activity routes (`ApiParams`);
- **the settings** route and page (`Settings`, `SettingsPage`);
- **the display helpers**: `lib/format.ts` (`Format`), the trend-chart
  cleaning (`TrendCharts`), the zone tables (`ZoneTables`) and the monthly
  list page (`ListPage`).

JavaScript semantics the code relies on are written out in shared modules:
`Js` (`Math.floor`, `Math.round`, `%` with the sign of the dividend,
`||`, `??`, means and `NaN`), `JsParse` (`parseInt` with and without a
radix, `parseFloat`), `Text` (`String(n)`, `padStart`, string order,
`trim`, `toLowerCase`), `Grouping` (the `Map`-keyed aggregation loops and
`WHERE` filters), `Sorting` (a stable insertion sort standing for
`Array.prototype.sort`) and `Store` (the database tables as one class).

Numbers are modelled as exact reals; `JsNumber` adds `NaN` and an absent
value where the source distinguishes them. `Math.sqrt` and `Math.exp` are
function parameters constrained by ghost predicates. Child processes, SQL,
the COROS client, the file system and the clock are parameters: a finished
script is a `ScriptRun` value, a download a `Remote` value, and a query a
function over the table contents.

## Model

| member | source | states |
|---|---|---|
| VdotCalculator.HrZone | scripts/vdot-calculator.js:15-25 | 0 exactly without a positive heart rate, else a zone 1..5; a zero maximum gives zone 5 |
| VdotCalculator.HrZoneBands | scripts/vdot-calculator.js:18-24 | each zone is the half-open band between the 70/80/87/93 % thresholds of the maximum |
| VdotCalculator.HrZoneMonotone | scripts/vdot-calculator.js:18-24 | a higher heart rate never lands in a lower zone |
| VdotCalculator.ZoneMultiplier | scripts/vdot-calculator.js:60-68 | the VDOT adjustment of a zone lies between 0.90 (zone 1) and 1.10 (zone 5); 1.0 for anything else |
| VdotCalculator.ZoneFactor | scripts/vdot-calculator.js:91-99 | the training-load factor of a zone lies between 0.6 (zone 1) and 1.5 (zone 5); 1.0 for anything else |
| VdotCalculator.VdotFromPace | scripts/vdot-calculator.js:30-73 | as written: null for a non-positive distance or duration, a number otherwise (its sign is stated by the two lemmas below) |
| VdotCalculator.VdotNegativeBelow24Kmh | scripts/vdot-calculator.js:36-53 | as written, every run slower than 24 km/h gets a negative VDOT |
| VdotCalculator.TenKmInFortyMinutesAsWritten | scripts/vdot-calculator.js:36-53 | as written, 10 km in 40 minutes gives a negative VDOT |
| VdotCalculator.VdotFromPaceMetric | scripts/vdot-calculator.js:30-73 | the same estimate with the speed in m/min, the unit of Daniels' formula: `null` for a non-positive distance or duration, and a positive VDOT for every run at 26 m/min or faster |
| VdotCalculator.AdjustKeepsSign | scripts/vdot-calculator.js:55-72 | the heart-rate adjustment and rounding keep the sign of the VDOT |
| VdotCalculator.VdotHeartRateMonotone | scripts/vdot-calculator.js:55-72 | for a positive VDOT, a higher heart rate is credited at least the VDOT of a lower one |
| VdotCalculator.TrainingLoad | scripts/vdot-calculator.js:78-104 | never negative, and 0 for a non-positive duration |
| VdotCalculator.TrainingLoadMonotone | scripts/vdot-calculator.js:78-104 | the load grows with the duration at a fixed heart rate |
| VdotCalculator.TrainingLoadHeartRateMonotone | scripts/vdot-calculator.js:78-104 | the load grows with the heart rate at a fixed duration |
| VdotCalculator.PositiveCount | scripts/vdot-calculator.js:114-121 | the number of samples above zero, at most the number of samples |
| VdotCalculator.ZoneCount | scripts/vdot-calculator.js:114-121 | the positive samples in one zone, at most the positive samples |
| VdotCalculator.ZoneCountsSum | scripts/vdot-calculator.js:114-121 | every positive sample is counted in exactly one of the five zones |
| VdotCalculator.AnalyzeHrDistribution | scripts/vdot-calculator.js:109-134 | `{}` exactly when no sample is positive, otherwise the keys zone_1..zone_5 mapped to each zone's share of positive samples in percent |
| VdotCalculator.ZonePercentages | scripts/vdot-calculator.js:125-131 | each zone's count as a percentage of the total under its key, and no other key |
| VdotCalculator.ZoneKeyInjective | scripts/vdot-calculator.js:125-131 | distinct zones have distinct keys |
| VdotCalculator.SharesSumToHundred | scripts/vdot-calculator.js:114-131 | the five percentages add up to 100 |
| VdotPace.PaceSecPerKm | app/lib/vdot-pace.ts:8-16 | the sentinel 9999 for a non-positive VDOT or a share outside (0, 1] |
| VdotPace.PaceIsReciprocalSpeed | app/lib/vdot-pace.ts:8-16 | on accepted inputs the discriminant and speed checks pass, and the pace is 60000 over the speed whose oxygen cost is `4.6 + vdot * p` |
| VdotPace.PaceBelowSentinel | app/lib/vdot-pace.ts:8-16 | an accepted input never yields the sentinel: the pace is positive and below 9999 |
| VdotPace.SpeedForCostIncreasing | app/lib/vdot-pace.ts:10-13 | a greater oxygen cost is met at a greater speed |
| VdotPace.PaceDecreasingInPercent | app/lib/vdot-pace.ts:8-16 | a higher share of VO2max gives a faster pace |
| VdotPace.PaceDecreasingInVdot | app/lib/vdot-pace.ts:8-16 | a higher VDOT gives a faster pace at the same share |
| VdotPace.ZonePercent | app/lib/vdot-pace.ts:19-25 | every zone's share (0.8 for an unknown zone) lies strictly between 0 and 1 |
| VdotPace.AnchorPacesDecreasing | app/lib/vdot-pace.ts:28-34 | zone 1's pace is slowest and each next zone's strictly faster, all below the sentinel |
| VdotPace.PaceZoneBounds | app/lib/vdot-pace.ts:28-43 | no bands for a non-positive VDOT; otherwise midpoint bands that tile the pace axis from 0 to 9999 without gaps or overlaps |
| VdotPace.PaceZoneCenters | app/lib/vdot-pace.ts:46-52 | the anchor pace of each of zones 1..5 (the sentinel for a non-positive VDOT), each strictly inside its zone's band |
| VdotPace.CentersInsideBands | app/lib/vdot-pace.ts:28-52 | each zone's centre lies strictly inside that zone's band |
| StatsCache.CeilDiv7 | scripts/preprocess-stats-cache.js:59 | `Math.ceil(n / 7)`: the least r with `n <= 7r` |
| StatsCache.WeekNoRange | scripts/preprocess-stats-cache.js:55-59 | the week number of a valid date is 1..54 |
| StatsCache.WeekNoMonotone | scripts/preprocess-stats-cache.js:55-59 | later days of a year never get an earlier week |
| StatsCache.MonthKeyShape | scripts/preprocess-stats-cache.js:50-53 | the month key is the year, "-", and the month as two digits reading back as the month |
| StatsCache.WeekKeyShape | scripts/preprocess-stats-cache.js:54-60 | the week key is the year, "-W", and the week as two digits reading back as the week |
| StatsCache.MonthKeyOrder | scripts/preprocess-stats-cache.js:50-53 | within a year month keys sort as the months |
| StatsCache.WeekKeyOrder | scripts/preprocess-stats-cache.js:54-60 | within a year week keys sort as the week numbers |
| StatsCache.ActivityOf | scripts/preprocess-stats-cache.js:90-91 | the activity a lap joins with, or none when no activity has its id |
| StatsCache.LapRowsSelected | scripts/preprocess-stats-cache.js:92-107 | every lap row has a heart rate, a distance of at least 50 m, a pace of at most 600 or none, and a start within the given dates |
| StatsCache.LapRowsJoined | scripts/preprocess-stats-cache.js:79-95 | every lap row is a lap joined with its own activity |
| StatsCache.ShortLapIgnored | scripts/preprocess-stats-cache.js:93 | a lap under 50 m adds no row |
| StatsCache.TrendInput | scripts/preprocess-stats-cache.js:117-143 | the activity rows have a VDOT and a start within the given dates |
| StatsCache.ZoneRowsAt | scripts/preprocess-stats-cache.js:148-256 | each written zone row is the record of its key's non-empty group of laps |
| StatsCache.ZoneFold | scripts/preprocess-stats-cache.js:185-195 | a record holds its laps' distinct activities and their duration and distance totals (missing as 0) |
| StatsCache.ZoneFoldAcc | scripts/preprocess-stats-cache.js:196-211 | per column, a record holds the sum and number of its laps' truthy values |
| StatsCache.ActivityIdsBound | scripts/preprocess-stats-cache.js:188-190 | a record counts between 1 and its number of laps distinct activities |
| StatsCache.AvgIsMean | scripts/preprocess-stats-cache.js:235-238 | a column average is the mean of the truthy values, null exactly when there is none |
| StatsCache.ZoneKeyFacts | scripts/preprocess-stats-cache.js:158-183 | a zone row's key has the pass's period type, a zone 1..5 and the period of each of its laps |
| StatsCache.ZoneRowFacts | scripts/preprocess-stats-cache.js:185-251 | a zone row's count is its distinct activities, its totals are sums, and each average the mean of its truthy values |
| StatsCache.AvgPaceAtMost600 | scripts/preprocess-stats-cache.js:92-94 | no cached average pace is above 600 s/km |
| StatsCache.ZeroZoneSkipped | scripts/preprocess-stats-cache.js:159-160 | a lap of zone 0 is in no row |
| StatsCache.TrendFold | scripts/preprocess-stats-cache.js:287-296 | a trend record counts its activities, sums their VDOTs and holds their maximum and minimum |
| StatsCache.TrendRowFacts | scripts/preprocess-stats-cache.js:261-334 | a trend row counts its period's activities, its average is their mean VDOT, and its extrema are VDOTs of the period around the average |
| StatsCache.BuiltCacheKeys | scripts/preprocess-stats-cache.js:215-231 | after a build each key written holds its new row; any other key keeps its old row, unless the tables were cleared |
| StatsCache.BuildIdempotent | scripts/preprocess-stats-cache.js:339-363 | running the same build twice gives the tables of running it once |
| StatsCache.ModeIgnored | scripts/preprocess-stats-cache.js:340-360 | 'full' and 'incremental' build the same tables |
| StatsCache.PassKeysOwnType | scripts/preprocess-stats-cache.js:163-168 | a pass writes only keys of its own period type, so the month pass overrides no week row |
| StatsCache.MaxHrSetting | scripts/preprocess-stats-cache.js:405 | the parsed MAX_HR unless it is missing, NaN or 0, then 190 |
| StatsCache.AggregatedZoneRows | scripts/preprocess-stats-cache.js:158-212 | after the first loop the records are exactly the zone rows' records |
| StatsCache.AggregatedTrendRows | scripts/preprocess-stats-cache.js:270-297 | after the first loop the records are exactly the trend rows' records |
| StatsCache.StatsCacheBuilder.constructor | scripts/preprocess-stats-cache.js:38-42 | the builder holds its database and maximum heart rate |
| StatsCache.StatsCacheBuilder.ClearCache | scripts/preprocess-stats-cache.js:67-71 | both cache tables are empty and the data tables unchanged |
| StatsCache.StatsCacheBuilder.AggregateLaps | scripts/preprocess-stats-cache.js:155-212 | one record per key of the laps, and the keys in first-seen order |
| StatsCache.StatsCacheBuilder.UpsertZoneStats | scripts/preprocess-stats-cache.js:215-253 | the zone cache becomes the old table overridden by the new rows; nothing else changes |
| StatsCache.StatsCacheBuilder.BuildHrZoneStats | scripts/preprocess-stats-cache.js:148-256 | the zone cache gains the rows of the selected laps; nothing else changes |
| StatsCache.StatsCacheBuilder.AggregateActivities | scripts/preprocess-stats-cache.js:268-297 | one record per period of the activities, and the periods in first-seen order |
| StatsCache.StatsCacheBuilder.UpsertTrends | scripts/preprocess-stats-cache.js:300-331 | the trend cache becomes the old table overridden by the new rows; nothing else changes |
| StatsCache.StatsCacheBuilder.BuildVdotTrend | scripts/preprocess-stats-cache.js:261-334 | the trend cache gains the rows of the selected activities; nothing else changes |
| StatsCache.StatsCacheBuilder.Build | scripts/preprocess-stats-cache.js:339-363 | each cache is cleared when asked, then receives every pass's rows, week before month for 'both' |
| StatsCache.ParseArgs | scripts/preprocess-stats-cache.js:371-398 | the options read from the defaults by the flag rules |
| StatsCache.ParseShift | scripts/preprocess-stats-cache.js:381-395 | parsing only depends on what follows its position |
| StatsCache.ParseRender | scripts/preprocess-stats-cache.js:371-398 | options with a non-empty mode and period type read back from their rendering |
| StatsCache.UnknownSkipped | scripts/preprocess-stats-cache.js:381-395 | an argument that is no flag is skipped |
| SyncCoros.IsZip | scripts/sync-coros.js:19-22 | an archive exactly when the data starts with "PK" |
| SyncCoros.FitFileIsNotZip | scripts/sync-coros.js:19-22 | a FIT file (header size first, ".FIT" at offset 8) is never taken for an archive |
| SyncCoros.StoredIdInjective | scripts/sync-coros.js:161 | distinct COROS ids are stored under distinct ids |
| SyncCoros.ToSync | scripts/sync-coros.js:99-107 | all activities when forced, otherwise those not yet stored, in list order |
| SyncCoros.SecondPassSelectsNothing | scripts/sync-coros.js:99-107 | once every selected activity is stored, an unforced run selects nothing |
| SyncCoros.AnyRecordHeartRate | scripts/sync-coros.js:194-204 | true exactly when some record has a positive heart rate |
| SyncCoros.EnvInt | scripts/sync-coros.js:57-58 | absent for an empty variable, else its `parseInt` |
| SyncCoros.MakeCalculator | scripts/sync-coros.js:73-76 | a calculator exactly when both heart rates read as non-zero numbers |
| SyncCoros.DefaultHeartRatesMakeCalculator | scripts/sync-coros.js:73-76 | the heart rates the sync routes pass by default give a calculator |
| SyncCoros.ZeroHeartRateNoCalculator | scripts/sync-coros.js:73-76 | a heart rate of "0" switches VDOT enrichment off |
| SyncCoros.Enrich | scripts/sync-coros.js:206-237 | the stored row: id `coros_<labelId>`, the list name or else the fallback, type running, source coros, the session's start, distance, duration and heart rates; the file's load, else the list's when the file has none; with a calculator and a truthy average heart rate, the as-written `calculateVdotFromPace` of the session and the computed training load, else the file's VDOT |
| SyncCoros.EnrichIdempotent | scripts/sync-coros.js:206-237 | storing a forced re-parse of the same file gives the same row |
| SyncCoros.TagLaps | scripts/sync-coros.js:241-247 | the laps, each stamped with the activity id |
| SyncCoros.TagRecords | scripts/sync-coros.js:249-255 | the records, each stamped with the activity id |
| SyncCoros.Synced | scripts/sync-coros.js:123-127 | the number of stored activities, at most the number of outcomes |
| SyncCoros.Printout | scripts/sync-coros.js:115-142 | one printed line per selected activity |
| SyncCoros.PrintoutAt | scripts/sync-coros.js:115-142 | the k-th line is the coloured line `[k+1/total]` of the k-th activity |
| SyncCoros.PrintedCounter | scripts/sync-coros.js:49-51 | the stream's counter expression reads the counter of a printed line |
| SyncCoros.StreamReadsPrintout | scripts/sync-coros.js:115-142 | with the corrected capture (`SyncStream.ActivityId`), the k-th printed line reads as counter `[k+1/total]` and exactly that activity's id |
| SyncCoros.SuccessTokenKeepsReset | scripts/sync-coros.js:49-51 | as written, the token captured from a stored activity's line ends in the colour reset, and the streaming route sends that token as the activity id |
| SyncCoros.IndexOf | scripts/sync-coros.js:267-285 | the first position of the argument, none when absent |
| SyncCoros.ParseOptions | scripts/sync-coros.js:267-285 | running only unless `--all-types`, laps unless `--no-laps`, force exactly with `--force`, the `parseInt` of a non-empty value after `--limit` (else none), and a non-empty value after `--db` (else app/data/activities.db) |
| SyncCoros.StreamForceReachesScript | scripts/sync-coros.js:267-285 | the streaming route's `force` reaches the script, which then keeps laps |
| SyncCoros.StartupError | scripts/sync-coros.js:65-67 | an error exactly when the account or the password is missing |
| SyncCoros.CorosSync.constructor | scripts/sync-coros.js:54-77 | the options, the calculator and empty tables and output |
| SyncCoros.CorosSync.SyncActivity | scripts/sync-coros.js:156-260 | succeeds exactly when the activity is stored (no throw, FIT data, a session with heart-rate evidence) and throws exactly when the download or the parse throws, with that error; the tables become `SyncStep` of the old ones: an uncached download is written to the cache even when parsing then throws, and a stored activity adds its enriched row, tagged laps (when kept) and tagged records; nothing is printed |
| SyncCoros.CorosSync.SyncOne | scripts/sync-coros.js:123-136 | the outcome is done, skipped or the thrown error as `OutcomeOf` the cached file and the answer; the tables are the old ones after `SyncStep`; exactly one line, `[i/total]` with that outcome's mark and colour, is appended |
| SyncCoros.CorosSync.SyncAll | scripts/sync-coros.js:79-154 | selects the activities to sync; the outcomes and tables are those of syncing the selection in order (`RunOutcomes`, `Run`); the summary is success with the number stored and the selection's size, or the whole list's size when nothing is selected; the output gains exactly the selection's lines |
| SyncCoros.CorosSync.SyncEach | scripts/sync-coros.js:119-139 | the loop: the outcomes and tables of syncing the activities in order, the count of done outcomes, and the output extended by one line per activity in order |
| SyncCoros.OutcomeOf | scripts/sync-coros.js:126-136 | done exactly when the activity is stored, failed exactly when the download or the parse throws (with the download's error first), skipped otherwise |
| SyncCoros.CacheAfter | scripts/sync-coros.js:164-172 | a download is written under the activity's id exactly when no file was cached and the download succeeded; otherwise the cache is unchanged |
| SyncCoros.RunOutcomes | scripts/sync-coros.js:122-139 | one outcome per activity of the run |
| SyncCoros.RunOutcomeAt | scripts/sync-coros.js:122-139 | the k-th outcome is that activity's outcome on the cache the earlier activities left |
| SyncCoros.RunFrame | scripts/sync-coros.js:156-260 | the rows and cache file of an activity the run does not visit are left as they were |
| SyncCoros.RunActivityKeys | scripts/sync-coros.js:122-139 | the activities table gains exactly the ids of the activities reported done |
| SyncCoros.RunStoredRow | scripts/sync-coros.js:206-240 | with distinct ids, an activity reported done has its enriched session as its stored row |
| SyncCoros.ParseFailureKeepsFile | scripts/sync-coros.js:164-172 | a downloaded file whose parse throws stays cached and nothing is stored, so a later run parses that file instead of downloading again |
| SyncCoros.StoredIdsCount | scripts/sync-coros.js:119-142 | with distinct ids, the summary's count is the number of distinct ids stored |
| SyncCoros.UnforcedSyncCountsNewRows | scripts/sync-coros.js:99-142 | an unforced run over a list with distinct ids adds exactly as many activity rows as it reports synced |
| SyncCoros.StoredIdsMember | scripts/sync-coros.js:115-142 | every activity reported stored is among the stored ids |
| SyncRoute.ScriptResult | app/api/sync/route.ts:22-57 | success exactly for exit code 0, with the script's output or error text |
| SyncRoute.CleanupEntries | app/api/sync/route.ts:141-147 | a '系统' entry exactly when the clean-up removed activities |
| SyncRoute.ScriptEnv | app/api/sync/route.ts:149-152 | the heart-rate settings, each from the config, else the environment, else its default |
| SyncRoute.GarminResult | app/api/sync/route.ts:156-169 | the script's entry exactly when a token is configured |
| SyncRoute.CorosResult | app/api/sync/route.ts:171-185 | the script's entry exactly when both COROS credentials are configured |
| SyncRoute.ProviderResults | app/api/sync/route.ts:154-185 | the selected providers' entries, Garmin first |
| SyncRoute.Response | app/api/sync/route.ts:201-204 | the answer: success when some entry succeeded, and all the entries |
| SyncRoute.ConfigAfter | app/api/sync/route.ts:196-199 | FIRST_SYNC_DONE becomes "true" after a first sync with a provider success; nothing else changes |
| SyncRoute.CleanForSync | app/api/sync/route.ts:78-126 | the same clean-up as the clean-old-data route, with its own message |
| SyncRoute.Post | app/api/sync/route.ts:128-212 | the database is unchanged unless it is a first sync with sourceless activities; then those activities, their laps and records are removed and the caches emptied; the answer, the config afterwards and whether preprocessing runs are those of the pure definitions |
| SyncRoute.FirstSyncCleanup | app/api/sync/route.ts:140-147 | nothing changes unless it is a first sync with sourceless activities; then exactly the sourced activities remain, the laps and records of removed ones are deleted, the caches are emptied, and the removal is reported |
| SyncRoute.RunProviders | app/api/sync/route.ts:154-185 | the Garmin and COROS entries and whether a script succeeded |
| SyncRoute.GarminStep | app/api/sync/route.ts:156-169 | the Garmin entry |
| SyncRoute.CorosStep | app/api/sync/route.ts:171-185 | the COROS entry |
| SyncRoute.AnySuccessOf | app/api/sync/route.ts:188 | true exactly when some entry succeeded |
| SyncRoute.ResponseSuccess | app/api/sync/route.ts:128-212 | success exactly when the clean-up removed activities or a selected script succeeded |
| SyncRoute.CleanupAloneReportsSuccess | app/api/sync/route.ts:140-204 | a clean-up alone makes the answer a success and starts preprocessing, yet the first sync stays undone |
| SyncRoute.UnknownProviderRunsNothing | app/api/sync/route.ts:154-185 | a provider other than garmin, coros or all runs no script |
| SyncRoute.CorosMixedSourcesSynced | app/api/sync/route.ts:171-185 | an account in the config with a password in the environment is enough to sync COROS |
| SyncStream.FirstMatchLeftmost | app/api/sync/stream/route.ts:80-94 | the match found is the leftmost, and there is none only when no position matches |
| SyncStream.ProgressLine | app/api/sync/stream/route.ts:80-85 | a chunk starting with `[c/n]` reports c and n |
| SyncStream.Advance | app/api/sync/stream/route.ts:80-85 | the first counter in a chunk replaces both numbers; a chunk without one changes nothing |
| SyncStream.ActivityLine | app/api/sync/stream/route.ts:87-94 | a chunk "... ✓ word活动 id ..." reports the token after the word |
| SyncStream.ActivityId | app/api/sync/stream/route.ts:88-99 | the corrected reading: the captured token up to the first escape character |
| SyncStream.Classify | app/api/sync/stream/route.ts:91-94 | done when the chunk holds '✓', else skipped for '○', else failed |
| SyncStream.ActivityEvents | app/api/sync/stream/route.ts:87-101 | at most one event, the provider's, carrying the whole captured `\S+` token as the activity id, as written |
| SyncStream.SentShape | app/api/sync/stream/route.ts:87-101 | an event of a chunk names the provider and an activity |
| SyncStream.ChunkEvents | app/api/sync/stream/route.ts:78-101 | the events of a run of chunks, in order |
| SyncStream.ScriptMonitor.constructor | app/api/sync/stream/route.ts:51-77 | no output, counters at 0, no events |
| SyncStream.ScriptMonitor.OnStdout | app/api/sync/stream/route.ts:78-102 | the chunk is appended, the counters advanced, its events sent |
| SyncStream.ScriptMonitor.OnStderr | app/api/sync/stream/route.ts:104-106 | the chunk is appended to the error text only |
| SyncStream.ScriptMonitor.OnExit | app/api/sync/stream/route.ts:108-121 | the plain sync's answer for the collected output |
| SyncStream.RunWithProgress | app/api/sync/stream/route.ts:51-123 | the events of all chunks, then the script's answer |
| SyncStream.FinalEvent | app/api/sync/stream/route.ts:143-149 | done or failed as the script ended, with its message |
| SyncStream.ProviderEvents | app/api/sync/stream/route.ts:134-173 | a single skip without credentials, else start, activity events and final event |
| SyncStream.ProviderOutcome | app/api/sync/stream/route.ts:134-173 | with credentials the part ends done exactly on exit code 0; without, one skip event |
| SyncStream.GarminPart | app/api/sync/stream/route.ts:134-151 | Garmin's events when selected |
| SyncStream.CorosPart | app/api/sync/stream/route.ts:154-173 | COROS's events when selected |
| SyncStream.StreamBookends | app/api/sync/stream/route.ts:126-175 | provider-less start first and done last, and every event between names a provider |
| SyncStream.GarminLaunch | app/api/sync/stream/route.ts:134-151 | the Garmin script with the heart-rate settings and the token |
| SyncStream.CorosLaunch | app/api/sync/stream/route.ts:154-173 | the COROS script with the credentials, and `--force` exactly when forced |
| SyncStream.LaunchRules | app/api/sync/stream/route.ts:134-173 | only COROS gets `--force`, only for force=true; missing credentials start nothing |
| SyncStream.RunProvider | app/api/sync/stream/route.ts:134-173 | the provider's part and the script it starts |
| SyncStream.Stream | app/api/sync/stream/route.ts:33-185 | start event, Garmin's part, COROS's part and done event, starting each selected, configured script |
| CleanOldData.SourcelessIds | app/api/sync/clean-old-data/route.ts:32-51 | exactly the ids of activities without a source |
| CleanOldData.CountSourceless | app/api/sync/clean-old-data/route.ts:18-23 | the number of activities without a source |
| CleanOldData.LapsOutside | app/api/sync/clean-old-data/route.ts:32-38 | exactly the laps whose activity is not deleted |
| CleanOldData.RecordsOutside | app/api/sync/clean-old-data/route.ts:40-44 | exactly the records whose activity is not deleted |
| CleanOldData.Clean | app/api/sync/clean-old-data/route.ts:12-62 | nothing changes without sourceless activities; otherwise they, their laps and records are deleted, the caches emptied, and the counts reported |
| CleanOldData.ActivitiesRemovedCounted | app/api/sync/clean-old-data/route.ts:18-51 | the activities removed are as many as counted first |
| CleanOldData.CleanIdempotent | app/api/sync/clean-old-data/route.ts:12-62 | after a clean-up a second one removes nothing |
| CleanOldData.SourcedRowsKept | app/api/sync/clean-old-data/route.ts:32-51 | sourced activities and their laps and records survive |
| CleanOldData.NoOrphans | app/api/sync/clean-old-data/route.ts:32-51 | no lap or record is left pointing at a deleted activity |
| Store.Database.constructor | app/api/sync/clean-old-data/route.ts:12-17 | the tables as given, with empty caches |
| Store.Database.ClearCaches | app/api/sync/clean-old-data/route.ts:54-55 | both caches empty, data tables unchanged |
| DbQuery.FilterParams | lib/db.ts:37-53 | one bound value per given filter, in placeholder order |
| DbQuery.WhereBindsAll | lib/db.ts:37-53 | the filters' placeholders and values are equal in number |
| DbQuery.ReplaceFirst | lib/db.ts:56 | only the first occurrence is replaced |
| DbQuery.ReplaceFirstAt | lib/db.ts:56 | when the pattern first occurs at k, the text before k, the replacement, then the text after that occurrence |
| DbQuery.ReplaceFirstAbsent | lib/db.ts:56 | a text without the pattern is returned unchanged |
| DbQuery.Default | lib/db.ts:31 | only an absent value takes the default |
| DbQuery.Offset | lib/db.ts:63 | `(page - 1) * limit`, NaN when an operand is |
| DbQuery.OffsetsTile | lib/db.ts:63 | page 1 starts at 0 and each page `limit` rows after the previous |
| DbQuery.FilteredQuery | lib/db.ts:38-53 | the query is `SELECT * ... WHERE 1=1` followed by the type, start and end conditions of the given filters, in that order, and the values are those filters' values in the same order |
| DbQuery.GetActivities | lib/db.ts:30-75 | the page query, its values, and the count statement sharing its WHERE clause |
| DbQuery.CountReplacesSelect | lib/db.ts:56 | the count statement is the page query with only `SELECT *` replaced |
| DbQuery.Truthy | lib/db.ts:139-149 | NULL and 0 are both absent |
| DbQuery.NormaliseStats | lib/db.ts:139-149 | each total is the row's value or 0 when NULL; each average and the ascent is absent when NULL or 0 and otherwise passes through unchanged |
| DbQuery.EmptyPeriodStats | lib/db.ts:139-149 | an empty period gives zero totals and no averages |
| DbQuery.ZeroAverageAbsent | lib/db.ts:139-149 | an average of 0 is reported absent, a total of 0 stays 0, other values pass through |
| DbQuery.NormaliseIdempotent | lib/db.ts:139-149 | normalising a normalised row changes nothing |
| DbQuery.ActivityById | lib/db.ts:80-85 | an activity with the id, or null when none has it |
| DbQuery.ActivityByIdUnique | lib/db.ts:80-85 | with unique ids, the one activity with the id |
| DbQuery.ActivityLaps | lib/db.ts:90-96 | the laps of the activity, each as often as in the table and no other, sorted by lap index |
| DbQuery.WithVdot | lib/db.ts:166 | `WHERE vdot_value IS NOT NULL`: each activity with a VDOT occurs as often as in the table, and no other occurs |
| DbQuery.VdotRanking | lib/db.ts:155-173 | the activities with a VDOT, each exactly as often as in the table and no other, newest first |
| DbQuery.VdotHistory | lib/db.ts:155-173 | exactly min(limit, number of activities with a VDOT) points, the i-th being the point of the i-th activity of the ranking, so newest first and none repeated or dropped before the limit |
| DbQuery.VdotHistoryNewest | lib/db.ts:155-173 | an activity left out is no newer than any shown, and the history is short only when it holds all |
| ApiParams.PeriodParams | app/api/analysis/hr-zones/route.ts:15-38 | groupBy must be week or month (default month), each given date must match the pattern; the first failing check's error |
| ApiParams.PeriodDefaults | app/api/analysis/vdot-trend/route.ts:15-38 | no parameters: all dates by month |
| ApiParams.NoCalendarCheck | app/api/analysis/hr-zones/route.ts:15-38 | "2024-13-99" passes the date check |
| ApiParams.HrZoneSummary | app/api/analysis/hr-zones/route.ts:50-57 | the total activities are the sum of the rows' counts, the periods the number of distinct periods, and each date or "all" |
| ApiParams.PeriodsBound | app/api/analysis/hr-zones/route.ts:50-57 | there are no more periods than rows |
| ApiParams.TotalActivitiesAppend | app/api/analysis/hr-zones/route.ts:50-57 | the total of two tables is the sum of their totals |
| ApiParams.OnePeriod | app/api/analysis/hr-zones/route.ts:50-57 | rows of one period count one period |
| ApiParams.PaceZoneParams | app/api/analysis/pace-zones/route.ts:12-29 | both dates required and well-formed; vdot a positive number |
| ApiParams.PaceZoneNumericPrefix | app/api/analysis/pace-zones/route.ts:23-29 | "45abc" is accepted as VDOT 45 |
| ApiParams.MonthsParams | app/api/activities/months/route.ts:13-23 | optional limit 1..100 and offset at least 0, each read by `parseInt(_, 10)` |
| ApiParams.EmptyLimitRefused | app/api/activities/months/route.ts:15-20 | an empty `limit=` is refused |
| ApiParams.MonthsAnswer | app/api/activities/months/route.ts:25-29 | a plain list gives data only, a page gives data and total |
| ApiParams.ActivitiesParams | app/api/activities/route.ts:15-36 | page defaults to 1 and must be at least 1; limit defaults to 20 and must be 1..100; NaN passes |
| ApiParams.ActivitiesDefaults | app/api/activities/route.ts:15-21 | no parameters: page 1 of 20 |
| ApiParams.ActivitiesNaNAccepted | app/api/activities/route.ts:24-36 | a page or limit that is not a number passes |
| ApiParams.VdotParams | app/api/vdot/route.ts:12-20 | limit defaults to 50 and must be 1..500; NaN passes |
| ApiParams.VdotDefault | app/api/vdot/route.ts:12 | no parameter: the 50 newest |
| ApiParams.Counted | app/api/vdot/route.ts:25-28 | the data with its length as count |
| Settings.Get | app/api/settings/route.ts:58-70 | the stored value, "" when absent |
| Settings.MaskSecret | app/api/settings/route.ts:47-51 | "" exactly for no value; otherwise ends in "****" after at most `showLength` leading characters of the value |
| Settings.SettingSources | app/api/settings/route.ts:58-62 | a setting comes from the config, else the environment, else the default |
| Settings.GarminPreviewIffToken | app/api/settings/route.ts:64-65 | a token is reported exactly when a preview is shown, revealing at most four characters |
| Settings.CorosMixedSourcesRejected | app/api/settings/route.ts:66-67 | an account only in the config with a password only in the environment counts as no credentials |
| Settings.Write | app/api/settings/route.ts:85-105 | a given key is written (a secret only when non-empty); otherwise the config is unchanged |
| Settings.Post | app/api/settings/route.ts:79-107 | the config with the body's fields written in the handler's order |
| Settings.MergedKeys | app/api/settings/route.ts:85-105 | a key is updated exactly when the body gives it; every other key keeps its value |
| Settings.MergedIdempotent | app/api/settings/route.ts:85-105 | saving twice is saving once |
| Settings.SaveKeepsFirstSync | app/api/settings/route.ts:69-105 | a save never changes whether the first sync is done |
| Settings.SavedMaxHrShown | app/api/settings/route.ts:61-93 | a non-empty saved maximum is the one shown; an empty one falls through |
| Settings.EmptySecretKept | app/api/settings/route.ts:103-105 | an empty password does not erase the stored one |
| SettingsPage.SettingsState.constructor | app/settings/SettingsClient.tsx:35-52 | the page's initial settings, no log, not syncing, no message |
| SettingsPage.SettingsState.AddLog | app/settings/SettingsClient.tsx:114-130 | an event repeating the last line is dropped; any other is appended under the next counter |
| SettingsPage.SettingsState.RunSync | app/settings/SettingsClient.tsx:132-136 | syncing, with an empty log and no message |
| SettingsPage.SettingsState.OnEvent | app/settings/SettingsClient.tsx:144-155 | a line repeating the last one leaves the log and counter alone; any other is appended under the next counter; the provider-less complete event ends the sync with success |
| SettingsPage.SettingsState.OnStreamError | app/settings/SettingsClient.tsx:161-165 | the sync ends with the connection-lost error |
| SettingsPage.SettingsState.SaveSettings | app/settings/SettingsClient.tsx:91-112 | on an ok answer the updates are merged and success shown; otherwise settings unchanged and the error shown |
| SettingsPage.GarminLogin | app/settings/SettingsClient.tsx:211-222 | refused exactly when the email or password is empty, else the request body |
| SettingsPage.GarminTokenSave | app/settings/SettingsClient.tsx:241-249 | refused exactly for an empty token, else the body with the token |
| SettingsPage.CorosSave | app/settings/SettingsClient.tsx:251-262 | refused exactly when the account or password is empty, else the body with both |
| SettingsPage.CorosSaveStored | app/settings/SettingsClient.tsx:251-262 | accepted credentials are stored and then reported with the account |
| SettingsPage.GarminTokenStored | app/settings/SettingsClient.tsx:241-249 | an accepted token is stored and then reported with its preview |
| Format.FormatPace | lib/format.ts:6-12 | "--" exactly for a missing or NaN value; never a "+", "<" or en dash |
| Format.FormatPaceUnit | lib/format.ts:11 | the unit form is the plain form followed by " /km" |
| Format.PaceFieldsSum | lib/format.ts:8-9 | minutes and seconds (0..60) add up to the rounded pace |
| Format.FormatPaceSixtySeconds | lib/format.ts:8-10 | 299.6 s/km is shown as "4:60" |
| Format.FormatDuration | lib/format.ts:27-35 | "--" exactly for a missing or NaN value |
| Format.DurationFieldsSum | lib/format.ts:29-31 | hours, minutes and seconds are a mixed-radix reading of the whole seconds |
| Format.DurationHoursShown | lib/format.ts:33 | the hour form is used exactly from 3600 s |
| Format.FormatDurationFields | lib/format.ts:27-35 | the rendering is "h:mm:ss" from the hour, minute and second fields when there are hours, else "m:ss" |
| Format.FormatDurationWholeSeconds | lib/format.ts:27-35 | for n whole seconds, "n/3600:mm:ss" from 3600 s and "n/60:ss" below, minutes and seconds padded to two digits |
| Format.FormatInt | lib/format.ts:61-64 | "--" exactly for a missing value, else the rounded value with the unit after a space when given |
| Format.FormatIntWhole | lib/format.ts:61-64 | a whole number is shown as itself |
| Format.FormatCadence | lib/format.ts:67-69 | the integer form with the unit 步/分 |
| Format.ToFixed2 | lib/format.ts:17 | a point followed by exactly two digits |
| Format.ToFixed2Accuracy | lib/format.ts:17 | the hundredths shown are within 0.005 of the value |
| Format.ToFixed2ReadBack | lib/format.ts:17 | a minus sign exactly for a negative value, then the digits of the absolute value rounded to hundredths |
| Format.Fixed2BodyReadBack | lib/format.ts:17 | the digits before the point and the two after read back as the hundredths rounded |
| Format.FormatDistance | lib/format.ts:15-18 | "--" exactly for a missing value, otherwise the two-decimal value followed by " km" |
| Format.FormatDistanceFromMeters | lib/format.ts:21-24 | "--" for a missing value |
| Format.MetersAsKilometres | lib/format.ts:21-24 | metres are shown as the same distance in kilometres |
| TrendCharts.LastInRange | app/lib/components/charts/ActivityTrendCharts.tsx:23-29 | the latest in-range value, none exactly when no value is in range |
| TrendCharts.FilterOutliersWithForwardFill | app/lib/components/charts/ActivityTrendCharts.tsx:18-31 | each position shows the latest in-range value up to it |
| TrendCharts.FillKeepsInRange | app/lib/components/charts/ActivityTrendCharts.tsx:25-28 | in-range values pass through |
| TrendCharts.FillReplacesOutliers | app/lib/components/charts/ActivityTrendCharts.tsx:29 | any other value becomes the latest earlier in-range one or null |
| TrendCharts.FillWithinRange | app/lib/components/charts/ActivityTrendCharts.tsx:18-31 | every value shown is in range |
| TrendCharts.FillNoGapAfterFirstValid | app/lib/components/charts/ActivityTrendCharts.tsx:18-31 | after the first in-range value no gap is shown |
| TrendCharts.FillIdempotent | app/lib/components/charts/ActivityTrendCharts.tsx:18-31 | cleaning twice is cleaning once |
| TrendCharts.PaceSample | app/lib/components/charts/ActivityTrendCharts.tsx:257-264 | the stored pace when plausible, else 60000/(cadence·step) when both are positive, else null |
| TrendCharts.PaceSampleDerived | app/lib/components/charts/ActivityTrendCharts.tsx:259-263 | a derived pace is the time of 1 km at that cadence and step |
| TrendCharts.StrideCm | app/lib/components/charts/ActivityTrendCharts.tsx:254 | the step length in cm, null kept |
| TrendCharts.StridePlausible | app/lib/components/charts/ActivityTrendCharts.tsx:38-39 | a step length is plausible exactly between 0.3 and 1.8 m |
| TrendCharts.TrendSeries | app/lib/components/charts/ActivityTrendCharts.tsx:250-269 | the four cleaned series with their own ranges |
| TrendCharts.CleanedValueHasSource | app/lib/components/charts/ActivityTrendCharts.tsx:18-31 | a series with a value had an in-range raw value |
| TrendCharts.ChartsOnlyWhenRendered | app/lib/components/charts/ActivityTrendCharts.tsx:271-307 | the heart-rate chart is drawn only when some sample has a heart rate, the cadence chart only with a cadence, the stride chart only with a step length, the pace chart only with a positive pace or positive cadence and step; so any drawn chart lies in a rendered component |
| TrendCharts.FormatElapsed | lib/components/charts/ActivityTrendCharts.tsx:11-15 | "m:ss" |
| TrendCharts.FormatElapsedFields | lib/components/charts/ActivityTrendCharts.tsx:11-15 | minutes and seconds below 60 add up to the whole seconds |
| TrendCharts.LabelAtFirstOfBucket | app/lib/components/charts/ActivityTrendCharts.tsx:118-123 | on non-decreasing times a label is shown exactly at the first sample of each five-minute bucket |
| ZoneTables.AggregateZones | lib/components/charts/HrZoneMetricsTable.tsx:37-55 | one record per zone seen with the totals of its rows; zones listed once each |
| ZoneTables.AddToZone | lib/components/charts/HrZoneMetricsTable.tsx:38-54 | the row's zone record is created when new, then the row added |
| ZoneTables.RowsOf | lib/components/charts/HrZoneMetricsTable.tsx:58-78 | one displayed row per zone, in order |
| ZoneTables.SortZones | lib/components/charts/HrZoneMetricsTable.tsx:79 | the zones in ascending order |
| ZoneTables.HrZoneRows | lib/components/charts/HrZoneMetricsTable.tsx:37-79 | one row per zone present, ascending, each the totals of its zone's rows |
| ZoneTables.NoRowsIffEmpty | lib/components/charts/HrZoneMetricsTable.tsx:81-87 | no rows, so the placeholder, exactly for empty input |
| ZoneTables.TotalsCollect | lib/components/charts/HrZoneMetricsTable.tsx:52-54 | a zone collects a column's non-null values |
| ZoneTables.MeanOfMeans | lib/components/charts/HrZoneMetricsTable.tsx:59-67 | a zone average is null exactly when no row has a value, else between the least and greatest |
| ZoneTables.ZoneCountsConserved | lib/components/charts/HrZoneMetricsTable.tsx:49 | the zone rows' counts add up to the input's counts |
| ZoneTables.KnownZones | app/lib/components/charts/PaceZoneMetricsTable.tsx:33 | exactly the rows of zones 1..5, each as often as in the data |
| ZoneTables.PaceRows | app/lib/components/charts/PaceZoneMetricsTable.tsx:33 | the rows of zones 1..5, a permutation of them sorted by zone |
| ZoneTables.PacePlaceholder | app/lib/components/charts/PaceZoneMetricsTable.tsx:35-41 | the placeholder exactly when no row has a zone 1..5 |
| ZoneTables.BandEnds | app/lib/components/charts/PaceZoneMetricsTable.tsx:26-30 | on VDOT bands, zones 1..4 have a positive lower end and zones 2..5 an upper end below 9999 |
| ZoneTables.BandRanges | app/lib/components/charts/PaceZoneMetricsTable.tsx:26-30 | zone 1 reads "min+", zone 5 "< max", the others "max–min" |
| ZoneTables.FormatPaceRange | app/lib/components/charts/PaceZoneMetricsTable.tsx:26-30 | ends in "+" exactly when the upper end is at least 9999, with the lower end's pace before it; starts with "< " exactly when the upper end is below 9999 and the lower end not positive, followed by the upper end's pace; holds an en dash exactly otherwise, between the upper and the lower end's paces |
| ListPage.DaysInMonth | app/list/page.tsx:20 | 28..31 days, 29 in February exactly in leap years, 30 exactly in April, June, September, November |
| ListPage.LastDay | app/list/page.tsx:20 | for months 1..12, the last day of that month of the year `Date` reads (1900+y for a year 0..99, y otherwise), with months outside 1..12 rolling over |
| ListPage.LastDayTwoDigitYear | app/list/page.tsx:20 | February of year 0 ends on the 28th because `Date` reads the year as 1900; month 14 of year 99 is February 2000, with 29 days |
| ListPage.MonthRangeShape | app/list/page.tsx:17-23 | both dates share "YYYY-MM-", from day 01 to the month's last day in the year `Date` reads |
| ListPage.ByTypeFilter | app/list/page.tsx:163-165 | each activity of the type as often as in the list, and no other |
| ListPage.ByName | app/list/page.tsx:166-169 | each activity whose lower-cased name contains the query as often as in the list, and no other |
| ListPage.FilteredItems | app/list/page.tsx:159-175 | nothing without an expanded month; otherwise newest first |
| ListPage.FilteredItemsMembers | app/list/page.tsx:159-175 | an activity appears exactly when it is in the expanded month, of the type and matching the trimmed query, and then as often as in the month |
| ListPage.NoFilterShowsMonth | app/list/page.tsx:159-175 | type "all" and a blank query show the whole month |
| ListPage.TypeOptions | app/list/page.tsx:149-153 | "all", then each type occurring once, strictly in string order |
| ListPage.LoadMoreMonths | app/list/page.tsx:113-121 | no request while loading or when all are loaded; otherwise the next 6 from the loaded count |
| Js.Floor | lib/format.ts:8 | the greatest integer not above x |
| Js.Round | lib/format.ts:9 | the nearest integer, halves up |
| Js.Mod | lib/format.ts:9 | the remainder has the sign of the dividend and a magnitude below the divisor |
| Js.Mean | lib/components/charts/HrZoneMetricsTable.tsx:59-61 | null exactly for no values |
| Js.MeanBounds | lib/components/charts/HrZoneMetricsTable.tsx:59-61 | a mean lies between the least and greatest value |
| JsParse.ParseInt10 | app/api/activities/months/route.ts:15-16 | NaN exactly when no digit follows the leading space and sign, otherwise an integer |
| JsParse.ParseInt | app/api/activities/route.ts:16-17 | the decimal reading unless the text starts with "0x" |
| JsParse.ParseFloat | app/api/analysis/pace-zones/route.ts:23 | never absent; NaN exactly when, after the leading space and sign, there are neither integer nor fraction digits; otherwise the signed mantissa scaled by the power of ten of an exponent `e`/`E`, an optional sign and digits |
| JsParse.ParseIntPrefix | app/api/activities/route.ts:16-17 | a number followed by a non-digit reads as the number |
| JsParse.ParseFloatPrefix | app/api/analysis/pace-zones/route.ts:23 | a number followed by anything but a digit, a point or an exponent mark reads as the number |
| JsParse.ParseFloatScaled | app/api/analysis/pace-zones/route.ts:23 | digits, `e`, an optional sign and digits read as the digits' value scaled by that signed power of ten |
| JsParse.ExponentOfDigits | app/api/analysis/pace-zones/route.ts:23 | the exponent after `e` is the signed value of its digits |
| JsParse.ParseFloatOneEtwo | app/api/analysis/pace-zones/route.ts:23 | "1e2" reads as 100 |
| JsParse.MantissaFraction | app/api/analysis/pace-zones/route.ts:23 | digits, a point and more digits give the whole value plus the fraction, leaving the text after them |
| JsParse.ParseFloatFraction | app/api/analysis/pace-zones/route.ts:23 | digits d, a point and digits f, followed by neither a digit nor an exponent, read as d plus f over 10 to the power of the number of digits in f |
| JsParse.ParseFloatFortyFiveFive | app/api/analysis/pace-zones/route.ts:23 | "45.5" reads as 45.5 |
| Text.NatToStringRoundTrip | scripts/preprocess-stats-cache.js:52 | `String(n)` reads back as n |
| Text.Pad2RoundTrip | scripts/preprocess-stats-cache.js:52 | a two-digit field reads back as its number |
| Text.Pad2Order | scripts/preprocess-stats-cache.js:52 | on two-digit fields string order is numeric order |
| Text.LessTransitive | app/list/page.tsx:152 | string order is transitive |
| Text.LessTotal | app/list/page.tsx:152 | string order is total |
| Text.Trim | app/list/page.tsx:166-167 | no leading or trailing white space |
| Text.Lower | app/list/page.tsx:167-168 | same length, each character lower-cased |
| Grouping.GroupMembers | scripts/preprocess-stats-cache.js:158-185 | a group holds exactly the rows of its key |
| Grouping.AggregateStep | scripts/preprocess-stats-cache.js:158-212 | one loop step keeps every record equal to the fold of its key's rows |
| Grouping.Filter | app/api/sync/clean-old-data/route.ts:32-51 | exactly the rows satisfying the condition, in order |
| Grouping.FilterSnoc | app/api/sync/clean-old-data/route.ts:32-51 | filtering a longer list extends the filtered list by the new row exactly when it is kept |
| Grouping.FilterCount | app/api/sync/clean-old-data/route.ts:32-51 | a kept row occurs as often as in the input, any other not at all |
| Grouping.FilterKeepsDistinct | app/api/sync/clean-old-data/route.ts:32-51 | filtering keeps keys distinct |
| Sorting.InsertionSort | app/list/page.tsx:170-174 | a sorted permutation of the input |
| ValidateData.DataValidator.constructor | scripts/validate-data.js:26-31 | the tables, and no issues or warnings |
| ValidateData.DataValidator.AddIssue | scripts/validate-data.js:33-35 | one issue appended |
| ValidateData.DataValidator.AddWarning | scripts/validate-data.js:37-39 | one warning appended |
| ValidateData.DataValidator.ValidateActivityUnits | scripts/validate-data.js:76-123 | the unit issues and warnings appended |
| ValidateData.DataValidator.CountCalcErrors | scripts/validate-data.js:125-179 | the speed, pace and elapsed-time error counts over the rows |
| ValidateData.DataValidator.ValidateActivityCalculations | scripts/validate-data.js:125-179 | speed and pace errors as issues, elapsed time as a warning |
| ValidateData.DataValidator.ValidateLapUnits | scripts/validate-data.js:181-211 | the lap unit issue appended when the mean speed is below 1 km/h |
| ValidateData.DataValidator.CheckLaps | scripts/validate-data.js:247-267 | the speed, pace and cumulative-time error counts of one activity's laps |
| ValidateData.DataValidator.CheckActivity | scripts/validate-data.js:233-274 | one sampled activity's counts, including the distance-sum check |
| ValidateData.DataValidator.CheckSample | scripts/validate-data.js:228-274 | the four error counts are the sums of the per-activity counts over the sampled ids, in order |
| ValidateData.DataValidator.ReportTally | scripts/validate-data.js:278-305 | one issue per non-zero speed, pace and cumulative-time count, in that order, and a warning when distance sums disagree; nothing else changes |
| ValidateData.DataValidator.ValidateLapCalculations | scripts/validate-data.js:213-305 | the lap calculation issues and warnings over the first 20 activities |
| ValidateData.DataValidator.ValidateNullValues | scripts/validate-data.js:307-339 | a warning per column NULL in every row |
| ValidateData.DataValidator.ValidateDataRanges | scripts/validate-data.js:341-383 | a warning per column with values outside its range |
| ValidateData.DataValidator.ValidateRelationships | scripts/validate-data.js:385-419 | orphaned laps as an issue, crowded activities as a warning |
| ValidateData.DataValidator.Validate | scripts/validate-data.js:41-74 | all issues and warnings of both phases, in order |
| ValidateData.FindActivityNone | scripts/validate-data.js:270 | no row exactly when no row has the id |
| ValidateData.DistinctIdsSpec | scripts/validate-data.js:216-221 | each lap activity id occurs once |
| ValidateData.LapsOfSpec | scripts/validate-data.js:229-232 | an activity's laps are its rows, sorted by lap index |
| ValidateData.UnitIssueImpliesSpeedIssue | scripts/validate-data.js:76-179 | a unit issue always comes with a speed issue |
| ValidateData.CalcIssuesIff | scripts/validate-data.js:125-179 | a speed or pace issue exactly when some selected row disagrees with its stored value |
| ValidateData.ElapsedIsOnlyWarning | scripts/validate-data.js:160-177 | elapsed below moving time is never an issue; a warning exactly when some selected row has it |
| ValidateData.UncheckedLapsNeverMismatch | scripts/validate-data.js:247-267 | a lap without positive duration or distance is never a speed or pace error |
| ValidateData.CumulativeErrorsIff | scripts/validate-data.js:258-265 | no cumulative error exactly when every lap is within 1 s of the running sum |
| ValidateData.LapDistanceWarningIff | scripts/validate-data.js:268-274 | the distance warning exactly when a sampled activity's lap sum is more than 1 m off |
| ValidateData.LapUnitIssueWitness | scripts/validate-data.js:181-211 | a lap unit issue means some sampled lap stores a speed below 1 km/h |
| ValidateData.NullWarningsEmpty | scripts/validate-data.js:307-339 | no completeness warning exactly when each column has a value somewhere |
| ValidateData.EmptyDatabaseNeverPasses | scripts/validate-data.js:307-339 | an empty database never passes |
| ValidateData.PassRequiresEveryColumn | scripts/validate-data.js:307-339 | a run without warnings saw a value in every column |
| ValidateData.RangeWarningsEmpty | scripts/validate-data.js:341-383 | no plausibility warning exactly when no value is out of range |
| ValidateData.OrphanIssueIff | scripts/validate-data.js:385-400 | orphaned laps are an issue exactly when some lap's activity is missing |

## Left out

- IEEE floating point: numbers are exact reals, so rounding error, `toFixed`'s binary ties and `Infinity` arithmetic beyond the zero-maximum case are not modelled.
- `Math.sqrt` and `Math.exp` are parameters characterised by ghost predicates, not computed.
- Unicode: `trim` and `toLowerCase` act on ASCII only, and string order compares characters, not UTF-16 code units.
- Date parsing, the clock and the locale: dates arrive as pre-extracted year, month and day numbers, and `formatDateTime`, `formatDate` and `formatTemp` (locale and one-decimal display) are not modelled.
- The SQL engine: queries are functions over table contents; lap rows keep table order instead of `ORDER BY start_time, lap_index`, and the trend input keeps table order instead of `ORDER BY start_time`.
- Child processes, streams and Server-Sent Events: a finished script is a `ScriptRun` value, its output a sequence of chunks; the race where both `error` and `close` fire is not modelled.
- React state, effects, the IntersectionObserver and echarts: only the pure computations of the components and the settings page's state transitions are modelled.
- The network, the COROS and Garmin clients, the zip reader and the FIT parser: a download is a `Remote` value carrying its parsed content.
- `Math.random` and `Date.now` in log ids: a log entry carries only its counter value.
- The fallback activity name's date formatting is a parameter.
- The 300 ms pause between COROS activities.
- The `--limit` option of the COROS script, which is parsed but never used.
- The validator's message texts and the recommendations of `printSummary`; notes carry a category and a finding kind.
- `getHrZoneStats`, `getVDOTTrend`, `getPaceZoneStats` and `getMonthSummaries` come from `app/lib/db`, which is not part of this model; the routes' answers are modelled over their results.
- `formatPace` as imported from `app/lib/format` is not part of this model; the pace-zone table uses the `lib/format.ts` version.
- The reset-first-sync route is not part of this model.
- `getStats`' date filter: only the normalisation of its result row is modelled.
- VdotPace.PaceSecPerKm: its own contract only states the sentinel cases; the value on accepted inputs is stated by VdotPace.PaceIsReciprocalSpeed and the monotonicity lemmas.
- Format.FormatDistanceFromMeters: its own contract only states the missing case; the rendering is stated by Format.MetersAsKilometres.
- VdotCalculator.VdotFromPaceMetric: repairs only the speed unit, and so the sign. The share of VO2max is still `1 - exp(-0.012 * hours)` as at scripts/vdot-calculator.js:48, not Daniels' time-based curve. Its values are therefore not Daniels VDOTs (10 km in 40 minutes gives several thousand, not about 51), and no agreement with Daniels' tables is claimed.
- SyncCoros.CorosSync.SyncActivity: only the download and the FIT parse can throw. A parse that throws after a download leaves that file cached, and the next run parses it again (SyncCoros.ParseFailureKeepsFile). A throw from the database while storing the activity, its laps or its records is not modelled, so a partly stored activity cannot occur in the model.
- SyncCoros.Enrich: stores the as-written `calculateVdotFromPace` value, as the script does; the corrected estimate is stated on its own and the sync does not use it.
- JsParse.ParseFloat: does not read "Infinity", signed or not. The model gives NaN where `parseFloat` gives Infinity, so the modelled pace-zone route refuses `vdot=Infinity`, which the route accepts. Reals are exact, so a huge or tiny exponent never overflows to Infinity or underflows to 0.

## Findings

| source | as written | input that shows it | evidently intended | confidence | as-written member | corrected member |
|---|---|---|---|---|---|---|
| scripts/vdot-calculator.js:40-53 | Daniels' oxygen-cost polynomial is evaluated at the speed in km/h | 10 km in 40 minutes (15 km/h): the oxygen cost is about -1.84, so VDOT is negative; so is every run slower than 24 km/h | the speed in m/min, the unit the formula and `app/lib/vdot-pace.ts:3` use; this repairs the unit and the sign only, since the share of VO2max at line 48 stays as written (10 km in 40 minutes then gives several thousand, not a Daniels VDOT near 51) | not executed | VdotCalculator.TenKmInFortyMinutesAsWritten | VdotCalculator.VdotFromPaceMetric |
| app/api/sync/stream/route.ts:88-99 | the activity id is captured by `\S+` right after the id, and `scripts/sync-coros.js:49-51,130` prints a stored activity's id immediately followed by the colour reset `\x1b[0m` | the line `\x1b[32m[1/5] ✓ COROS活动 123\x1b[0m` yields the id "123\x1b[0m" | the id "123" without the escape sequence | not executed | SyncCoros.SuccessTokenKeepsReset | SyncCoros.StreamReadsPrintout |
