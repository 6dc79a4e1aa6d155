# Stats of the week, modelled in Dafny

Stats-of-the-week keeps weekly League of Legends statistics for a group of
friends and posts them to a Discord channel. The model here covers four
parts of it:

- **Ingest** (`ingest.py`) resolves every configured Riot ID to a PUUID
  and pulls the player's match ids since the last checkpoint. It then
  stores each new match, and each missing player row, in SQLite.
- **Weekly report** (`weekly_report.py`) aggregates the last
  `lookback_days` days of stored rows. It computes each player's games,
  win rate, KDA, CS/min and time dead. It picks the award winners and
  builds a leaderboard. It packs the player blocks into embeds of at most
  3500 characters and posts them in batches of 10.
- **Hall of shame** (`inspect_worst_games.py`) picks every player's
  all-time worst stored game. Worst means lowest KDA, then most deaths,
  then fewest kills plus assists. It packs and posts the lines the same
  way.
- **Dead-time backfill** (`backlog_deadtime.py`) re-fetches the matches
  of last week's rows whose `time_dead_s` is NULL. It fills that column in
  place and commits after every 50 updates.

The Dafny modules follow that structure:

- Helpers:
  - `Common`: Option, Result, Filter, Map.
  - `Order`: Python's tuple order, first-wins `max`/`min`, stable `sorted`.
  - `Text`: `str.strip`, `str.lower`, `startswith`.
  - `Packing`: the greedy chunk loop and the batches of posts.
  - `Config`: the parsed `config.yaml`, `parse_riot_id`,
    `routing_for_platform` and `enabled_queue_ids`.
  - `RiotClient`: `riot_get`'s retry loop over abstract replies.
  - `Payload`: the match JSON and its projection to rows.
- The ingest side:
  - `Storage`: the tables as maps, and a `Database` class whose methods
    are the SQL helpers.
  - `Ingest`: the ingest run as a specification function and as
    imperative methods on a `Database`.
  - `IngestFacts`: the ingest properties.
- The report side:
  - `WeeklyStats`: the grouped SQL queries as functions over a list of
    rows.
  - `WeeklyAwards`: the award and leaderboard rules.
  - `WeeklyReport`: the loops of `main`.
- `WorstGames` models the hall-of-shame script.
- `Backfill` models the backfill script.

How the outside world is modelled:

- **The Riot API.**
  - Ingest sees it as three functions that return a reply or an error: the
    account, match-list and match endpoints. These are called after
    `riot_get` has done its retries.
  - `riot_get` itself is modelled apart. Its input is the reply to the
    n-th attempt.
  - The backfill sees a function from `(routing, match id)` to an optional
    payload. `None` stands for a request that raised.
- **The clock** is a `now` parameter.
- **Text formatting.** The f-strings are a `render` parameter, and the
  model tracks which facts reach which embed.
- **Numbers.** Ratios are exact `real`s. Python's truncating `int()` is
  written out (`Payload.TruncDiv`).
- **Python semantics.** Python's `max`/`min` return the first maximal
  element. Its sort is stable, also with `reverse=True`. Both are modelled
  exactly, because ties decide who wins an award.

## Model

| member | source | states |
|---|---|---|
| Config.FirstIndex | ingest.py:28 | the first occurrence of a character: none exactly when absent, else its index with no earlier occurrence |
| Config.ParseRiotId | ingest.py:25-28 | fails (ValueError) exactly when there is no `#`; otherwise the name has no `#` and name + "#" + tag is the input |
| Config.ParseRiotIdUnique | ingest.py:25-28 | splitting name + "#" + tag with a `#`-free name gives back exactly (name, tag) |
| Config.RoutingForPlatform | ingest.py:19-23 | succeeds exactly when the platform is configured with a routing, returning that routing; an unknown platform is the KeyError |
| Config.QueueIds | ingest.py:77 | the set comprehension: an id is in the result exactly when some queue entry has it |
| Config.EnabledQueueIds | ingest.py:73-77 | a player's non-empty override list replaces the global enabled queues; otherwise the global list is used |
| RiotClient.Pow2 | ingest.py:48 | `2 ** n` is at least 1 |
| RiotClient.Backoff | ingest.py:46-60 | `min(2 ** (attempt + 1), 30)`: between 2 and 30 s, the power of two up to attempt 3 and 30 s from attempt 4 on |
| RiotClient.Pow2Grows | ingest.py:48 | the uncapped backoff is at least 2, and at least 32 from attempt 4 on, so the cap takes over |
| RiotClient.Pow2Monotone | ingest.py:48 | the uncapped backoff never shrinks from one attempt to the next |
| RiotClient.Classify | ingest.py:35-60 | one attempt: only a non-error, non-429 reply with a JSON body returns; other retries sleep the backoff (at most 30 s); a 429 sleeps Retry-After (2 s without the header); a non-429 4xx is retried; only a malformed Retry-After escapes |
| RiotClient.RiotGet | ingest.py:30-65 | at most `max_retries` requests; each retry slept what its attempt asked; the call returns the first body or raises; when every attempt asks for a retry it makes exactly `max_retries` requests and raises the last error |
| RiotClient.AlwaysUnavailable | ingest.py:34-65 | an upstream that always answers 503 is retried with backoff on every attempt and ends in an HTTP 503 error |
| Payload.InfoOf | ingest.py:155 | `match_json.get("info", {})`: the info object, or one with every field absent |
| Payload.FirstParticipant | ingest.py:146-150 | none exactly when no participant has the puuid; else the index of the first one that has it |
| Payload.FindParticipant | ingest.py:146-150 | none exactly when no participant matches; else a participant of the match with that puuid |
| Payload.FirstParticipantChosen | ingest.py:146-150 | when the i-th participant is the first with the puuid, `find_participant` returns exactly that one |
| Payload.TruncDiv | ingest.py:159 | `int(a / b)` truncates toward zero: the remainder `a - b*q` lies in [0, b) for a ≥ 0 and in (-b, 0] for a < 0 |
| Payload.StartSeconds | ingest.py:158-159 | defined exactly when the millisecond timestamp is present, and then the timestamp divided by 1000 truncated toward zero: the remainder lies in [0, 1000) for a non-negative timestamp and in (-1000, 0] for a negative one |
| Payload.MatchRowOf | ingest.py:154-175 | the match row carries the match id, routing, queue id, start seconds, duration, game mode, game type and map id of the payload |
| Payload.StatRowOf | ingest.py:177-246 | no row exactly when there is no participant or no start timestamp; otherwise win is 1 iff truthy, kills/deaths/assists default to 0, cs is minions plus neutral minions, time dead is NULL when absent, and team, role, lane, position, champion id and name, gold, damage, vision, wards and turret kills are copied through unchanged |
| Storage.Tables.WithPlayer | ingest.py:99-110 | upsert: the puuid now maps to the new row; every other player row and every other table is unchanged |
| Storage.Tables.WithMatch | ingest.py:170 | insert-or-ignore: an existing match row is never changed; a new one is added; the other tables are unchanged |
| Storage.Tables.WithStat | ingest.py:221 | insert-or-ignore on (puuid, match id): an existing row is never changed; a new one is added; the other tables are unchanged |
| Storage.Tables.WithCheckpoint | ingest.py:119-129 | the checkpoint of the puuid becomes the end time; the other tables are unchanged |
| Storage.Tables.Checkpoint | ingest.py:112-117 | the stored checkpoint, or none when the puuid has none |
| Storage.Database.constructor | ingest.py:351 | the connection opens on the tables stored in the file |
| Storage.Database.UpsertPlayer | ingest.py:99-110 | the new state is the old one with the player upserted |
| Storage.Database.GetCheckpoint | ingest.py:112-117 | reads the stored checkpoint without changing anything |
| Storage.Database.SetCheckpoint | ingest.py:119-129 | the new state is the old one with the checkpoint set |
| Storage.Database.MatchExists | ingest.py:131-133 | true exactly when the match row is stored |
| Storage.Database.StatExists | ingest.py:308-312 | true exactly when the (puuid, match id) row is stored |
| Storage.Database.InsertMatchRow | ingest.py:154-175 | the new state is the old one with the projected match row inserted or ignored |
| Storage.Database.InsertPlayerMatchStats | ingest.py:177-246 | returns true exactly when the payload projects to a row; then that row is inserted or ignored, else nothing changes |
| Ingest.WindowFor | ingest.py:251-286 | the window starts at the checkpoint, or `now - lookback_days*86400` without one; it ends at `now`; it requests `min(max_matches_per_player, 100)` ids |
| Ingest.FailureSticks | ingest.py:266-331 | once an exception ends the match loop, the later ids change nothing |
| Ingest.IngestMatch | ingest.py:291-323 | one candidate id changes the tables and counters exactly as the three-way dedup decision `StepMatch` says |
| Ingest.IngestMatches | ingest.py:291-323 | the match loop changes the tables and counters exactly as `RunMatches` says, stopping at the first exception |
| Ingest.IngestPlayer | ingest.py:262-337 | one player changes the tables and counters exactly as `RunPlayer` says |
| Ingest.Ingest | ingest.py:250-343 | the whole run changes the tables exactly as `RunIngest` says and returns its three counters |
| IngestFacts.BothPresentUntouched | ingest.py:307-313 | with both the match row and the stat row stored, nothing is fetched or written, whatever the upstream would answer |
| IngestFacts.SkippedByQueue | ingest.py:294-319 | a fetched match is skipped (the counter rises, nothing is written) exactly when its queue id is non-null and not enabled |
| IngestFacts.KnownMatchOnlyStat | ingest.py:307-323 | a known match without the player's row gets only the stat row; the match table and `new_matches` are unchanged |
| IngestFacts.NewMatchKept | ingest.py:292-305 | a new accepted match is stored and counted even when the player's row cannot be projected |
| IngestFacts.StepKeepsRows | ingest.py:291-323 | a match step never changes or removes a stored row, the players or the checkpoints, and the counters never fall |
| IngestFacts.RunMatchesKeepsRows | ingest.py:291-323 | the match loop never changes or removes a stored row, the players or the checkpoints |
| IngestFacts.StepCounts | ingest.py:291-323 | a step keeps the tables consistent, the counters count the rows it added, and every added row is in an enabled or null queue |
| IngestFacts.StoreCounts | ingest.py:300-323 | storing an accepted match adds rows counted by the counters, all in an enabled or null queue |
| IngestFacts.AddMatch | ingest.py:170 | inserting a new match row adds exactly one row and keeps the tables consistent |
| IngestFacts.AddStat | ingest.py:221 | inserting a new stat row whose match is stored adds exactly one row and keeps the tables consistent |
| IngestFacts.RunMatchesCounts | ingest.py:291-323 | over the whole match loop the counters count the added rows, and every added row is in an enabled or null queue |
| IngestFacts.PlayerCheckpoint | ingest.py:325-335 | on success the player's checkpoint becomes exactly `now`; after an exception every checkpoint is unchanged |
| IngestFacts.NextWindowStartsAtNow | ingest.py:276-327 | after a successful run, the player's next window starts where this one ended |
| IngestFacts.PlayerCounts | ingest.py:262-337 | one player keeps the tables consistent, keeps every stored row, and the counters count the added rows |
| IngestFacts.RunAllCounts | ingest.py:262-337 | all players together keep the tables consistent, keep every stored row, and the counters count the added rows |
| IngestFacts.IngestCounts | ingest.py:339-343 | `new_matches` and `new_player_rows` are exactly how many match and stat rows the run added, and no stored row changed |
| IngestFacts.SettledStep | ingest.py:307-313 | an id whose rows are settled (stored, or skipped by queue) leaves the tables as they are |
| IngestFacts.StepSettles | ingest.py:291-323 | after a successful step the id is settled |
| IngestFacts.SettledKept | ingest.py:307-313 | an id stays settled when rows are only added |
| IngestFacts.RunMatchesSettles | ingest.py:291-323 | after a successful match loop every id of the list is settled |
| IngestFacts.RunSettledIds | ingest.py:291-323 | a match loop over settled ids changes no table |
| IngestFacts.MatchLoopIdempotent | ingest.py:291-323 | running the same match list again on the same upstream changes no table |
| WeeklyStats.KdaRatio | weekly_report.py:56-60 | k + a when there are no deaths, else (k + a) / d |
| WeeklyStats.KdaExamples | weekly_report.py:56-60 | kda(5, 0, 3) = 8 and kda(5, 2, 3) = 4 |
| WeeklyStats.KdaDeathMonotone | weekly_report.py:56-60 | one more death never raises the KDA, and the first death does not change it |
| WeeklyStats.QuotientShrinks | weekly_report.py:60 | dividing by a larger count never gives more |
| WeeklyStats.Average | weekly_report.py:79 | SQL `AVG`: the result is the mean (it times the count is the total) |
| WeeklyStats.WinRate | weekly_report.py:317 | the win rate times the games is 100 times the wins, and it lies in [0, 100] when the wins are at most the games |
| WeeklyStats.FractionBounds | weekly_report.py:117 | a count of at most the total divided by the total lies in [0, 1] |
| WeeklyStats.SelectIds | weekly_report.py:29-46 | an id is collected exactly when some enabled queue has it and its lower-cased, stripped label does (or does not) start with a lower-cased prefix |
| WeeklyStats.InsertSorted | weekly_report.py:35 | inserting into a strictly increasing list keeps it strictly increasing and adds exactly that element |
| WeeklyStats.SortedSet | weekly_report.py:35 | `sorted(set(out))` is strictly increasing and holds exactly the elements of `out` |
| WeeklyStats.QueueIdsExcludingLabels | weekly_report.py:24-35 | sorted and duplicate-free, holding exactly the ids of enabled queues whose label matches no prefix |
| WeeklyStats.QueueIdsIncludingLabels | weekly_report.py:37-47 | sorted and duplicate-free, holding exactly the ids of enabled queues whose label matches a prefix |
| WeeklyStats.LabelPartition | weekly_report.py:24-47 | each enabled queue lands in the including or the excluding result for the same prefixes, in exactly one when ids are unique, and together they cover all enabled ids |
| WeeklyStats.NoPrefixes | weekly_report.py:24-47 | with no prefixes, excluding keeps every enabled id and including keeps none |
| WeeklyStats.NothingSelected | weekly_report.py:42-46 | with no prefixes no queue is selected |
| WeeklyStats.IsSupportThisWeek | weekly_report.py:97-119 | false without games in the window; else true exactly when UTILITY games are at least 60% of all the player's window games, over every queue |
| WeeklyStats.ThresholdInIntegers | weekly_report.py:117-119 | the ratio `n / t >= 0.6` is the integer test `5n >= 3t` |
| WeeklyStats.MainRoleThisWeek | weekly_report.py:122-141 | "UNKNOWN" without rows; otherwise the name of a position with the largest count, with NULL or empty shown as "UNKNOWN" |
| WeeklyStats.RiotIdOf | weekly_report.py:82 | the join on puuid: none exactly when no player has the puuid, else the riot id of one who has it |
| WeeklyStats.QueueGamesAddRow | weekly_report.py:145-170 | one more row adds a game exactly when it is the group's riot id, in the window and in a listed queue |
| WeeklyStats.GameCsPerMin | weekly_report.py:79 | `cs / (duration_s / 60)`: CS/min times the duration is 60 times the CS |
| WeeklyStats.CsPerMin | weekly_report.py:62-95 | the games are the eligible rows, the value is their average CS/min, and no eligible row gives (0, 0.0) |
| WeeklyStats.CsRowsNeedQueues | weekly_report.py:68-69 | an empty queue set has no CS-eligible row |
| WeeklyStats.CsIgnoresIneligible | weekly_report.py:83-86 | a row that is too short, has no duration, or is in another queue, player or week changes nothing |
| WeeklyStats.CsDivisorPositive | weekly_report.py:85-86 | every CS-eligible game lasted at least 600 s, so the division is defined |
| WeeklyStats.TimeDead | weekly_report.py:176-212 | the games are the rows with a non-NULL time dead; the total is their sum and the average their mean; no such row gives (0, 0, 0.0) |
| WeeklyStats.DeadRowsNeedQueues | weekly_report.py:181-183 | an empty queue set has no time-dead row |
| WeeklyStats.CountedRowsNeedQueues | weekly_report.py:151-153 | an empty queue set counts no game |
| WeeklyStats.EmptyQueueSet | weekly_report.py:68-183 | with no queue every grouped query reads as the `.get` default |
| WeeklyStats.NullDeadIgnored | weekly_report.py:192-199 | a row with a NULL time dead changes no time-dead figure |
| WeeklyStats.RiotIds | weekly_report.py:250 | the distinct riot ids of the roster, each once; the callers drop the ids whose group has no row |
| WeeklyStats.PlayerRowsNeedQueues | weekly_report.py:282-286 | an empty stat-queue set gives the player no rows |
| WeeklyStats.Tally | weekly_report.py:291-310 | the `COUNT(*)` of the aggregate is the number of the player's rows |
| WeeklyStats.TallyWinsBound | weekly_report.py:316 | with every win 0 or 1, the wins lie between 0 and the games |
| WeeklyStats.TallyAppend | weekly_report.py:294-298 | the sums of two row lists joined are the sums of each added |
| WeeklyStats.PlayerWinRateBounds | weekly_report.py:316-317 | a player's win rate lies in [0, 100] |
| WeeklyAwards.BestKda | weekly_report.py:386 | `max` by (kda, games): no candidate ranks above the winner and every earlier candidate ranks strictly below it |
| WeeklyAwards.WorstKda | weekly_report.py:387 | `min` by (kda, -games): no candidate ranks below the loser and every earlier candidate ranks strictly above it |
| WeeklyAwards.TiedKdaSameWinner | weekly_report.py:386-387 | when every candidate has the same KDA, the best and the worst are the same player |
| WeeklyAwards.DistinctKdaDistinctWinners | weekly_report.py:386-387 | when two KDAs differ, the best and the worst are different players, and they bracket every KDA |
| WeeklyAwards.BestCs | weekly_report.py:411 | the first candidate with the highest CS/min |
| WeeklyAwards.WorstCs | weekly_report.py:412 | the first candidate with the lowest CS/min |
| WeeklyAwards.MayhemItems | weekly_report.py:145-170 | the groups of the fun-queue count: every riot id with at least one game there, with that count |
| WeeklyAwards.MayhemWinner | weekly_report.py:421-426 | the first player with the most fun-queue games, and only when that count is above 0 |
| WeeklyAwards.DeadCandidates | weekly_report.py:434-439 | exactly the riot ids with at least one game with time-dead data, with their figures |
| WeeklyAwards.MostTimeDead | weekly_report.py:443 | the first candidate with the highest average time dead |
| WeeklyAwards.LeaderKeyMeaning | weekly_report.py:485-493 | the sort key orders the qualified (3+ games) first, by win rate, then by games, then by KDA, all descending |
| WeeklyAwards.TopPlayers | weekly_report.py:484-496 | at most 10 entries, and every shown entry ranks at least as high as every later one |
| WeeklyAwards.SortedRanksFirst | weekly_report.py:485-493 | a list sorted by the key is in leaderboard order |
| WeeklyAwards.TakeRanksFirst | weekly_report.py:496 | every player left out of the top 10 ranks no higher than any shown player |
| WeeklyAwards.TakeSubMultiset | weekly_report.py:496 | the top 10 are players of the leaderboard |
| WeeklyAwards.TopPlayersStable | weekly_report.py:485-493 | the sort is stable: players with equal keys keep their roster order |
| WeeklyReport.PlayerWeekOf | weekly_report.py:272-379 | one roster iteration: the support flag, the games of the player's window rows in the stat queues, zeros without games, win rate and KDA of the totals, and a KDA candidate exactly when there are at least 3 games |
| WeeklyReport.StatsBlock | weekly_report.py:368-375 | the block of a player with games carries the totals |
| WeeklyReport.RosterSnoc | weekly_report.py:272-379 | one more roster player adds their support flag (overwriting the same riot id) and their candidate, if any |
| WeeklyReport.CollectPlayers | weekly_report.py:272-379 | the loop builds `summaries` and `leaderboard` (one entry per player, in roster order), `positions` and `candidates_for_awards` |
| WeeklyReport.PositionsLastWins | weekly_report.py:278 | the support flag stored for a riot id is that of its last roster player |
| WeeklyReport.KdaCandidatesQualified | weekly_report.py:329-330 | every KDA candidate has at least 3 games and comes from a roster player |
| WeeklyReport.KdaCandidatesComplete | weekly_report.py:329-330 | every roster player with at least 3 games is a KDA candidate |
| WeeklyReport.CsCandidatesSnoc | weekly_report.py:400-408 | one more roster player adds their CS candidate, if any |
| WeeklyReport.CollectCsCandidates | weekly_report.py:400-408 | the loop builds exactly the CS candidates |
| WeeklyReport.CsCandidatesQualified | weekly_report.py:400-408 | a CS candidate is not marked support, has at least 3 CS-eligible games, and carries its CS/min |
| WeeklyReport.CollectDeadCandidates | weekly_report.py:435-439 | the loop builds exactly the time-dead candidates |
| WeeklyReport.AwardsOf | weekly_report.py:382-449 | each award has a winner exactly when it has candidates, and the winner is the one its selection rule picks |
| WeeklyReport.SortSummaries | weekly_report.py:409 | a permutation of the summaries with the games non-increasing |
| WeeklyReport.SortSummariesStable | weekly_report.py:409 | summaries with equal games keep their roster order |
| WeeklyReport.Entry | weekly_report.py:551 | a player entry is never blank |
| WeeklyReport.PlayerStatsEmbeds | weekly_report.py:553-568 | one player-stats embed per chunk, numbered from 1, with the stripped chunk as description |
| WeeklyReport.WeekOf | weekly_report.py:242-258 | the window starts `lookback_days` days before `now`; stat queues exclude and fun queues include the "aram" labels |
| WeeklyReport.EntriesNotBlank | weekly_report.py:551 | no entry of the report is blank |
| WeeklyReport.WeeklyReport | weekly_report.py:236-573 | fails exactly when the roster is empty; else every player block is in exactly one chunk, in order, and the posts of at most 10 are the three fixed embeds then the player-stats embeds |
| WeeklyReport.SortAndUnpackAsWritten | weekly_report.py:409-550 | the sort and unpacking as written succeed exactly when every summary is a 3-tuple |
| WeeklyReport.IdlePlayerCrashesAsWritten | weekly_report.py:312 | as written, one player without games makes the report fail |
| WeeklyReport.OnePlayerNoRowsAsWritten | weekly_report.py:550 | as written, a roster of one player with no rows fails with ValueError |
| Text.Strip | weekly_report.py:31 | `str.strip()`: empty exactly when the string is all whitespace; else a slice of it with whitespace-only margins that starts and ends with a non-space |
| Text.Lower | weekly_report.py:31 | `str.lower()` on ASCII: same length; each capital becomes the same letter in lower case, every other character is kept |
| Order.ArgMaxFirst | weekly_report.py:386 | `max(..., key=...)`: no element's key is above the chosen one's, and every earlier element's key is strictly below it |
| Order.ArgMinFirst | weekly_report.py:387 | `min(..., key=...)`: no element's key is below the chosen one's, and every earlier element's key is strictly above it |
| Order.SortBy | weekly_report.py:485-493 | the stable `sorted(..., key=...)`: a permutation, sorted by the key, and the elements of each key keep their input order |
| Packing.PackEntries | weekly_report.py:546-568 | the greedy packing: each chunk is a run of whole entries in order; it is over the limit only as a single entry; an oversize first entry flushes an empty chunk; only a blank tail is dropped |
| Packing.PackChunksShape | weekly_report.py:546-568 | the specification of the packing loop has that shape |
| Packing.NothingDropped | weekly_report.py:563 | with no blank entry, the chunks joined are exactly the entries joined |
| Packing.NonBlankHead | weekly_report.py:563 | a list whose first part is not blank does not join to a blank string |
| Packing.Batches | weekly_report.py:571-573 | consecutive posts cover the embeds in order; every post has 1 to 10 embeds and all but the last exactly 10 |
| Packing.FlattenAppend | weekly_report.py:572-573 | joining two lists of posts joins their embeds |
| WorstGames.GameKda | inspect_worst_games.py:32-35 | the per-game KDA is `kda_ratio` of the row |
| WorstGames.ShameKeyMeaning | inspect_worst_games.py:39-42 | the ORDER BY key puts lower KDA first, then more deaths, then fewer kills plus assists |
| WorstGames.WorstGameFor | inspect_worst_games.py:20-46 | none exactly when the player has no row that is not 0/0/0; else such a row of theirs that no other such row beats, over all time and every queue |
| WorstGames.ZeroGameNeverShown | inspect_worst_games.py:38 | a 0/0/0 game alone gives no worst game |
| WorstGames.ShownGameOf | inspect_worst_games.py:78-81 | the champion name, shown as "Unknown" exactly when it is NULL, empty or itself "Unknown"; the KDA; Win exactly when `win` is non-zero |
| WorstGames.CollectLines | inspect_worst_games.py:68-87 | one line per player, in roster order |
| WorstGames.Description | inspect_worst_games.py:106 | the description is at most header, divider, two newlines and the chunk |
| WorstGames.DescriptionCanExceedLimit | inspect_worst_games.py:99-106 | the limit counts only the chunk, so a full 3500-character chunk gives a longer description |
| WorstGames.ShameEmbeds | inspect_worst_games.py:104-119 | one embed per chunk, numbered from 1, described by the header, the divider and the chunk |
| WorstGames.ShameEntries | inspect_worst_games.py:101-102 | every line gets one more newline |
| WorstGames.EntriesNotBlank | inspect_worst_games.py:68-87 | no line of the hall of shame is blank |
| WorstGames.HallOfShame | inspect_worst_games.py:59-123 | fails exactly when the roster is empty; else every line is in exactly one chunk, in order, and the posts of at most 10 are the numbered embeds |
| Backfill.ActionOf | backlog_deadtime.py:47-64 | the run crashes exactly when the fetch failed or the payload lacks `info` or `participants`; the row is filled exactly when a participant with the puuid has `totalTimeSpentDead`, and with that value; otherwise it is skipped |
| Backfill.SetTimeDead | backlog_deadtime.py:62-65 | the UPDATE keeps the set of keys, gives row k the time dead v with its other columns unchanged, and leaves every other row as it was |
| Backfill.Attempts | backlog_deadtime.py:42-60 | one attempt per selected row, in order, for its key, from the payload fetched with the lower-cased routing |
| Backfill.StepStates | backlog_deadtime.py:62-71 | one row changes the working table only by filling that key, and the committed table only by such a fill |
| Backfill.StepCommit | backlog_deadtime.py:66-71 | after a row, either the commit is as before or the committed state is the working state at a multiple of 50 updates |
| Backfill.RunAll | backlog_deadtime.py:42-71 | the loop keeps the set of keys of the working and committed tables |
| Backfill.RunAllSnoc | backlog_deadtime.py:42-71 | the loop over one more row is one more step |
| Backfill.BackfillDeadTime | backlog_deadtime.py:41-73 | the stat table ends as the loop specifies: the final commit, or the last commit when a fetch raised; only that table changes |
| Backfill.ApplyAttempt | backlog_deadtime.py:62-70 | one row that does not raise: the `UPDATE`, the counter and the commit every 50 updates leave the state the loop specifies, and only the stat table changes |
| Backfill.RunStaysCrashed | backlog_deadtime.py:47 | once a fetch raised, the later rows change nothing |
| Backfill.FillKeysFrom | backlog_deadtime.py:62-65 | every filled key came from a row that was filled |
| Backfill.FillKeepsOnlyFilled | backlog_deadtime.py:62-65 | one more fill touches only its own key's time dead |
| Backfill.RunOnlyFills | backlog_deadtime.py:42-73 | the loop changes only the time dead of filled keys, in the working and committed tables |
| Backfill.BackfillOnlyFillsNull | backlog_deadtime.py:30-65 | every row ends unchanged, or was a NULL row of the last 7 days that now has a time dead and is otherwise unchanged |
| Backfill.SkippedStayNull | backlog_deadtime.py:55-60 | a skipped row stays NULL and unchanged |
| Backfill.RunCounts | backlog_deadtime.py:66-71 | `updated` is exactly the number of rows filled before the first fetch that raises, so at most the number of rows; commits happen at multiples of 50, and fewer than 50 updates follow the last one |
| Backfill.CrashIndex | backlog_deadtime.py:47-50 | the index of the first row whose fetch raises (every earlier row does not raise), or the number of rows |
| Backfill.RunUpdates | backlog_deadtime.py:42-66 | the run ends early exactly when some fetch raises, and `updated` is the number of rows filled before the first one that does |
| Backfill.FillsUntilCrashCounts | backlog_deadtime.py:55-66 | counting fills step by step up to the first raise gives the number of fills before the first row that raises |
| Backfill.NeverCrashes | backlog_deadtime.py:42-60 | without a fetch that raises, the loop runs to the end |
| Backfill.FillSticks | backlog_deadtime.py:62-65 | a row only one attempt touches holds its stored value before that attempt and the attempt's value afterwards |
| Backfill.FilledRowHolds | backlog_deadtime.py:58-73 | when no fetch raises, a selected row whose participant has `totalTimeSpentDead` v ends holding v, with its other columns unchanged |
| Backfill.CommitIsPrefix | backlog_deadtime.py:69-70 | the committed table is the working table after some prefix of the rows, at the update count of the last commit |

## Left out

- HTTP and webhook delivery are not modelled: `requests.get`, `post_embeds`, the webhook URL and `time.sleep`. Sleeps are the returned durations of `RiotClient.RiotGet`. The Riot API is modelled as abstract functions.
- SQLite mechanics are not modelled: `ensure_schema`, `ensure_indexes`, the schema scripts and transactions. `with conn:` is one atomic update of the tables. The SQL queries are functions over the stored rows.
- `load_config`, `.env` and the environment variables are not modelled. The configuration is a parsed record and the clock is `now`.
- `get_puuid`, `get_match_ids` and `get_match` are the abstract upstream of `Ingest`. `Ingest.Resolve` models the `["puuid"]` lookup as part of it.
- The ingest log lines, the report's print statements and `main`'s argument handling are not modelled: they are output only.
- The duplicate `enabled_queue_ids` of weekly_report.py:17-21 is not called by `main`. It has the same body as ingest.py:73-77, which `Config.EnabledQueueIds` models.
- The second `set_checkpoint` (ingest.py:334-335) is not modelled as a separate step. It writes the same value, so the model sets the checkpoint once.
- The backfill's own `riot_get` (backlog_deadtime.py:15-22) is not modelled. It retries a 429 by unbounded recursion with no termination argument. The model sees only its result: a payload, or `None` when it raised.
- The backfill's selection query (backlog_deadtime.py:30-37) is characterised by `Backfill.Selected` rather than computed.
- The rendering of the report and the hall of shame is the `render` parameter: f-strings, `:.1f`/`:.2f` rounding, emoji, the top-champions lines and the average kills/deaths/assists. It includes the `match=... queue=... ts=...` line of the hall of shame.
- Fixed embed titles, colours and the divider text are not modelled. `Embed` records only which facts each embed carries.
- `str.lower` is ASCII only in the model; non-ASCII case folding is left out.
- Floating-point rounding is not modelled: ratios are exact reals.
- `Stats.py`, `sync_players.py`, `discover_mayhem.py`, `init_db.py`, `add_time_dead.py` and the `check_*`, `debug_*`, `inspect_mayhem`, `inspect_queues` and `reset_ingest` scripts are not part of this model. They duplicate helpers, wrap HTTP or only print.
- WeeklyStats.MainRoleThisWeek: SQLite leaves the group chosen among equal counts unspecified. The contract states only that the role has a largest count; the body picks the earliest row's.
- WorstGames.WorstGameFor: rows tied on the whole ORDER BY key come out in an unspecified order. The contract states only that no row beats the chosen one; the body picks the first.
- WeeklyStats.RiotIds: the order of the `GROUP BY p.riot_id` groups is taken to be roster order. The roster is read `ORDER BY riot_id` under the same collation, but SQLite does not promise that order.
- WeeklyStats.CsPerMin: `AVG` is an exact mean here. SQLite computes it in floating point.
- Payload: JSON `null` is not represented, and neither are non-integer numbers. Each `Option` field stands for an absent key, so a null reads as absent. In the source a null `info` raises `AttributeError` (ingest.py:294, ingest.py:178). A null `kills`, `deaths`, `assists` or minion count raises `TypeError` in `int(None)` (ingest.py:196-200) inside the `with conn` block. That rolls back the match row and skips the player without a checkpoint (ingest.py:329-331). The model instead stores and counts the rows with the defaults.
- RiotClient.Classify: a reply whose body is not JSON is retried like a network error. That holds for `requests` 2.27 and later, where `JSONDecodeError` is a `RequestException`. With older versions the `ValueError` of `r.json()` (ingest.py:53) escapes the handler at ingest.py:55, and the model does not cover that.
- Backfill.FilledRowHolds: stated for a run in which no fetch raises. After an early end a filled value survives only if a commit followed it. `Backfill.CommitIsPrefix` describes the committed state, but no lemma names the surviving rows.

## Findings

| source | as written | input that shows it | evidently intended | confidence | as-written member | corrected member |
|---|---|---|---|---|---|---|
| weekly_report.py:284, weekly_report.py:312, weekly_report.py:409, weekly_report.py:550 | a player with no enabled queue or no games is appended to `summaries` as a 2-tuple (riot id, text), while the others are 3-tuples (riot id, games, text). The sort key `x[1]` then compares a string with an int (TypeError). When every entry is a 2-tuple, the unpacking `for riot_id, games, text in summaries` fails (ValueError) | a roster with one player and no stored rows, stat queue [420] | every summary is a (riot id, games, text) triple with games 0 for an idle player, sorted by games, most first | not executed | WeeklyReport.SortAndUnpackAsWritten, WeeklyReport.IdlePlayerCrashesAsWritten, WeeklyReport.OnePlayerNoRowsAsWritten | WeeklyReport.SortSummaries, WeeklyReport.WeeklyReport |
