/** The statistics weekly_report.py computes before it picks awards. Each SQL
    query is a function over the rows it reads: a `WeekDb` holds the result
    of `SELECT puuid, riot_id FROM players ORDER BY riot_id`, the rows of
    `player_match_stats` and the `matches` table keyed by match id. Ratios
    are exact `real` quotients. */
module WeeklyStats {
  import opened Common
  import opened Text
  import opened Order
  import opened Config
  import opened Payload

  /** A row of the roster query. */
  datatype Player = Player(puuid: string, riotId: string)

  datatype WeekDb = WeekDb(players: seq<Player>, stats: seq<StatRow>, matches: map<string, MatchRow>)

  // ---------------------------------------------------------------- KDA

  /** `kda_ratio(k, d, a)`: (k + a) / d, or k + a when there were no deaths. */
  function KdaRatio(k: int, d: int, a: int): (r: real)
    ensures d == 0 ==> r == (k + a) as real
    ensures d != 0 ==> r * d as real == (k + a) as real
  {
    if d == 0 then (k + a) as real else (k + a) as real / d as real
  }

  lemma KdaExamples()
    ensures KdaRatio(5, 0, 3) == 8.0
    ensures KdaRatio(5, 2, 3) == 4.0
  {
  }

  /** One more death never raises the ratio (for non-negative totals), and
      the first death leaves it unchanged. */
  lemma KdaDeathMonotone(k: int, d: int, a: int)
    requires k + a >= 0 && d >= 0
    ensures KdaRatio(k, d + 1, a) <= KdaRatio(k, d, a)
    ensures d == 0 ==> KdaRatio(k, d + 1, a) == KdaRatio(k, d, a)
  {
    if d > 0 {
      var x, n := (k + a) as real, d as real;
      assert x / (n + 1.0) <= x / n by {
        QuotientShrinks(x, n);
      }
    }
  }

  lemma QuotientShrinks(x: real, n: real)
    requires x >= 0.0 && n >= 1.0
    ensures x / (n + 1.0) <= x / n
  {
    var q0, q1 := x / n, x / (n + 1.0);
    assert q0 * n == x && q1 * (n + 1.0) == x;
    assert q0 >= 0.0;
    assert (q0 - q1) * n == q1;
    assert q1 >= 0.0;
  }

  /** `avg` is the mean of `n` values summing to `total`. */
  predicate IsMean(avg: real, total: real, n: nat) {
    avg * n as real == total
  }

  /** `total / n`, the average of n values summing to total. */
  function Average(total: real, n: nat): (avg: real)
    requires n > 0
    ensures IsMean(avg, total, n)
  {
    total / n as real
  }

  /** `(wins / games) * 100.0`. */
  function WinRate(wins: int, games: int): (wr: real)
    requires games > 0
    ensures wr * games as real == 100.0 * wins as real
    ensures 0 <= wins <= games ==> 0.0 <= wr <= 100.0
  {
    var q := Average(wins as real, games);
    assert 0 <= wins <= games ==> 0.0 <= q <= 1.0 by {
      FractionBounds(wins, games);
    }
    q * 100.0
  }

  lemma FractionBounds(n: int, t: int)
    requires t > 0
    ensures 0 <= n <= t ==> 0.0 <= n as real / t as real <= 1.0
  {
    var q := n as real / t as real;
    assert q * t as real == n as real;
    if 0 <= n <= t {
      assert q * t as real <= 1.0 * t as real;
    }
  }

  // ---------------------------------------------------------------- queue selection

  /** The label as it is compared: `(label or "").lower().strip()`. */
  function LabelKey(q: QueueCfg): string {
    Strip(Lower(q.labelText.GetOr("")))
  }

  /** `any(label.startswith(p.lower()) for p in prefixes)`. */
  predicate LabelMatches(q: QueueCfg, prefixes: seq<string>) {
    exists i :: 0 <= i < |prefixes| && StartsWith(LabelKey(q), Lower(prefixes[i]))
  }

  /** The loop's `out`: the ids of the entries whose label matches a prefix
      (`keep`) or matches none (`!keep`). */
  function SelectIds(queues: seq<QueueCfg>, prefixes: seq<string>, keep: bool): (out: seq<int>)
    ensures forall id :: id in out <==> exists q :: q in queues && q.id == id && LabelMatches(q, prefixes) == keep
    decreases |queues|
  {
    if queues == [] then []
    else
      var rest := SelectIds(queues[1..], prefixes, keep);
      assert forall q :: q in queues[1..] ==> q in queues;
      assert forall q :: q in queues ==> q == queues[0] || q in queues[1..];
      if LabelMatches(queues[0], prefixes) == keep then [queues[0].id] + rest else rest
  }

  predicate StrictlyIncreasing(s: seq<int>) {
    forall i, j :: 0 <= i < j < |s| ==> s[i] < s[j]
  }

  function InsertSorted(x: int, s: seq<int>): (r: seq<int>)
    requires StrictlyIncreasing(s)
    ensures StrictlyIncreasing(r)
    ensures forall y :: y in r <==> y == x || y in s
    decreases |s|
  {
    if s == [] then [x]
    else if x < s[0] then [x] + s
    else if x == s[0] then s
    else
      var rest := InsertSorted(x, s[1..]);
      assert forall y :: y in s <==> y == s[0] || y in s[1..];
      assert forall i :: 0 <= i < |rest| ==> s[0] < rest[i] by {
        forall i | 0 <= i < |rest|
          ensures s[0] < rest[i]
        {
          assert rest[i] in rest;
        }
      }
      [s[0]] + rest
  }

  /** `sorted(set(xs))`. */
  function SortedSet(xs: seq<int>): (r: seq<int>)
    ensures StrictlyIncreasing(r)
    ensures forall y :: y in r <==> y in xs
    decreases |xs|
  {
    if xs == [] then []
    else
      assert forall y :: y in xs <==> y == xs[0] || y in xs[1..];
      InsertSorted(xs[0], SortedSet(xs[1..]))
  }

  /** `queue_ids_excluding_labels(cfg, prefixes)` over the entries of `riot.enabled_queues`. */
  function QueueIdsExcludingLabels(queues: seq<QueueCfg>, prefixes: seq<string>): (r: seq<int>)
    ensures StrictlyIncreasing(r)
    ensures forall id :: id in r <==> exists q :: q in queues && q.id == id && !LabelMatches(q, prefixes)
  {
    SortedSet(SelectIds(queues, prefixes, false))
  }

  /** `queue_ids_including_labels(cfg, prefixes)`. */
  function QueueIdsIncludingLabels(queues: seq<QueueCfg>, prefixes: seq<string>): (r: seq<int>)
    ensures StrictlyIncreasing(r)
    ensures forall id :: id in r <==> exists q :: q in queues && q.id == id && LabelMatches(q, prefixes)
  {
    SortedSet(SelectIds(queues, prefixes, true))
  }

  /** For one prefix list every entry's id lands in one of the two results,
      in exactly one of them when ids are not repeated, and the two results
      together hold exactly the enabled ids. */
  lemma LabelPartition(queues: seq<QueueCfg>, prefixes: seq<string>)
    ensures forall q :: q in queues && LabelMatches(q, prefixes) ==> q.id in QueueIdsIncludingLabels(queues, prefixes)
    ensures forall q :: q in queues && !LabelMatches(q, prefixes) ==> q.id in QueueIdsExcludingLabels(queues, prefixes)
    ensures (forall i, j :: 0 <= i < |queues| && 0 <= j < |queues| && queues[i].id == queues[j].id ==> i == j) ==>
      forall q :: q in queues ==>
        (q.id in QueueIdsIncludingLabels(queues, prefixes) <==> q.id !in QueueIdsExcludingLabels(queues, prefixes))
    ensures forall id :: id in QueueIds(queues) <==>
      id in QueueIdsIncludingLabels(queues, prefixes) || id in QueueIdsExcludingLabels(queues, prefixes)
  {
    var incl, excl := QueueIdsIncludingLabels(queues, prefixes), QueueIdsExcludingLabels(queues, prefixes);
    if forall i, j :: 0 <= i < |queues| && 0 <= j < |queues| && queues[i].id == queues[j].id ==> i == j {
      forall q | q in queues
        ensures q.id in incl <==> q.id !in excl
      {
        forall q2 | q2 in queues && q2.id == q.id
          ensures LabelMatches(q2, prefixes) == LabelMatches(q, prefixes)
        {
          var i :| 0 <= i < |queues| && queues[i] == q;
          var j :| 0 <= j < |queues| && queues[j] == q2;
          assert queues[i].id == queues[j].id;
        }
      }
    }
  }

  /** With no prefixes, excluding keeps every id and including keeps none. */
  lemma NoPrefixes(queues: seq<QueueCfg>)
    ensures forall id :: id in QueueIdsExcludingLabels(queues, []) <==> id in QueueIds(queues)
    ensures QueueIdsIncludingLabels(queues, []) == []
  {
    NothingSelected(queues);
  }

  lemma {:induction false} NothingSelected(queues: seq<QueueCfg>)
    ensures SelectIds(queues, [], true) == []
    decreases |queues|
  {
    if queues != [] {
      assert !LabelMatches(queues[0], []);
      NothingSelected(queues[1..]);
    }
  }

  // ---------------------------------------------------------------- role

  /** `WHERE puuid = ? AND game_start_ts >= ?`: the player's rows in the
      window, in every queue. */
  function WindowRows(db: WeekDb, puuid: string, start: int): seq<StatRow> {
    Filter(db.stats, (s: StatRow) => s.puuid == puuid && s.gameStartTs >= start)
  }

  /** The `COUNT(*)` of one `GROUP BY position` group. */
  function CountPosition(rows: seq<StatRow>, pos: Option<string>): nat {
    |Filter(rows, (s: StatRow) => s.position == pos)|
  }

  /** `is_support_this_week` with threshold 0.6. */
  function IsSupportThisWeek(db: WeekDb, puuid: string, start: int): (b: bool)
    ensures var w := WindowRows(db, puuid, start);
      b <==> |w| > 0 && 5 * CountPosition(w, Some("UTILITY")) >= 3 * |w|
  {
    var w := WindowRows(db, puuid, start);
    if |w| == 0 then false
    else
      var support := CountPosition(w, Some("UTILITY"));
      ThresholdInIntegers(support, |w|);
      support as real / |w| as real >= 0.6
  }

  /** `n / t >= 0.6` in integers. */
  lemma ThresholdInIntegers(n: nat, t: nat)
    requires t > 0
    ensures n as real / t as real >= 0.6 <==> 5 * n >= 3 * t
  {
    QuotientAtLeast(n as real, t as real, 0.6);
  }

  lemma QuotientAtLeast(y: real, x: real, c: real)
    requires x > 0.0
    ensures y / x >= c <==> y >= c * x
  {
    var q := y / x;
    assert q * x == y;
    if q >= c {
      ScaleLe(c, q, x);
    } else {
      ScaleLt(q, c, x);
    }
  }

  lemma ScaleLe(a: real, b: real, x: real)
    requires x > 0.0 && a <= b
    ensures a * x <= b * x
  {
    assert b * x - a * x == (b - a) * x;
  }

  lemma ScaleLt(a: real, b: real, x: real)
    requires x > 0.0 && a < b
    ensures a * x < b * x
  {
    assert b * x - a * x == (b - a) * x;
  }

  /** A NULL or empty position is reported as "UNKNOWN". */
  function RoleName(pos: Option<string>): string {
    if pos.None? || pos.value == "" then "UNKNOWN" else pos.value
  }

  /** `main_role_this_week`: the position of a largest group, or "UNKNOWN".
      SQLite leaves the group among equal counts unspecified; the model takes
      the one of the earliest row. */
  function MainRoleThisWeek(db: WeekDb, puuid: string, start: int): (role: string)
    ensures var w := WindowRows(db, puuid, start);
      && (|w| == 0 ==> role == "UNKNOWN")
      && (|w| > 0 ==>
            exists i :: 0 <= i < |w| && role == RoleName(w[i].position) &&
              (forall j :: 0 <= j < |w| ==> CountPosition(w, w[j].position) <= CountPosition(w, w[i].position)))
  {
    var w := WindowRows(db, puuid, start);
    if |w| == 0 then "UNKNOWN"
    else
      var i := ArgMaxFirstBy(w, (s: StatRow) => CountPosition(w, s.position) as real);
      RoleName(w[i].position)
  }

  // ---------------------------------------------------------------- per-riot-id aggregates

  /** `s.queue_id IN (...)`: a NULL queue id matches nothing. */
  predicate InQueues(s: StatRow, queues: seq<int>) {
    s.queueId.Some? && s.queueId.value in queues
  }

  /** The riot id `JOIN players p ON p.puuid = s.puuid` pairs a row with
      (`puuid` is the key of `players`, so there is at most one). */
  function RiotIdOf(players: seq<Player>, puuid: string): (r: Option<string>)
    ensures r.None? <==> forall i :: 0 <= i < |players| ==> players[i].puuid != puuid
    ensures r.Some? ==> exists i :: 0 <= i < |players| && players[i].puuid == puuid && players[i].riotId == r.value
    decreases |players|
  {
    if players == [] then None
    else if players[0].puuid == puuid then Some(players[0].riotId)
    else
      var r := RiotIdOf(players[1..], puuid);
      assert forall i :: 1 <= i < |players| ==> players[i] == players[1..][i - 1];
      r
  }

  /** The parameters of one `GROUP BY p.riot_id` group: its riot id, the
      window start and the queue set. */
  datatype Group = Group(riot: string, start: int, queues: seq<int>)

  /** A row the grouped queries count for the group: its player has that
      riot id, it started in the window and its queue is in the set. */
  predicate Counted(players: seq<Player>, g: Group, s: StatRow) {
    RiotIdOf(players, s.puuid) == Some(g.riot) && s.gameStartTs >= g.start && InQueues(s, g.queues)
  }

  function CountedRows(db: WeekDb, g: Group): seq<StatRow> {
    Filter(db.stats, (s: StatRow) => Counted(db.players, g, s))
  }

  /** `compute_weekly_queue_games(...)[riot]`, 0 when the riot id has no group. */
  function QueueGames(db: WeekDb, g: Group): nat {
    |CountedRows(db, g)|
  }

  /** One more row adds one game to the group exactly when the group counts
      it (its player's riot id, the window, a queue in the set). */
  lemma QueueGamesAddRow(db: WeekDb, g: Group, s: StatRow)
    ensures QueueGames(db.(stats := [s] + db.stats), g)
      == QueueGames(db, g) + (if Counted(db.players, g, s) then 1 else 0)
  {
    assert ([s] + db.stats)[1..] == db.stats;
  }

  /** `min_duration_s`: shorter games (remakes) do not count for CS/min. */
  const MinDurationS := 600

  predicate CsEligible(players: seq<Player>, matches: map<string, MatchRow>, g: Group, s: StatRow) {
    && Counted(players, g, s)
    && s.matchId in matches
    && matches[s.matchId].durationS.Some?
    && matches[s.matchId].durationS.value >= MinDurationS
  }

  function CsRows(db: WeekDb, g: Group): seq<StatRow> {
    Filter(db.stats, (s: StatRow) => CsEligible(db.players, db.matches, g, s))
  }

  /** `1.0 * cs / (duration_s / 60.0)`. */
  function GameCsPerMin(cs: int, durationS: int): (r: real)
    requires durationS > 0
    ensures r * durationS as real == 60.0 * cs as real
  {
    Average(60.0 * cs as real, durationS)
  }

  /** Sum of the per-game CS/min over the eligible rows. */
  function CsSum(players: seq<Player>, matches: map<string, MatchRow>, g: Group, rows: seq<StatRow>): real
    decreases |rows|
  {
    if rows == [] then 0.0
    else
      var s := rows[0];
      (if CsEligible(players, matches, g, s) then GameCsPerMin(s.cs, matches[s.matchId].durationS.value) else 0.0)
      + CsSum(players, matches, g, rows[1..])
  }

  /** `compute_weekly_cs_per_min(...)[riot]` as (games, average CS/min),
      (0, 0.0) when the riot id has no group, in particular when the queue
      set is empty. */
  function CsPerMin(db: WeekDb, g: Group): (r: (nat, real))
    ensures r.0 == |CsRows(db, g)|
    ensures r.0 > 0 ==> IsMean(r.1, CsSum(db.players, db.matches, g, db.stats), r.0)
    ensures r.0 == 0 ==> r.1 == 0.0
  {
    var n := |CsRows(db, g)|;
    if n == 0 then (0, 0.0)
    else
      var total := CsSum(db.players, db.matches, g, db.stats);
      (n, Average(total, n))
  }

  lemma CsRowsNeedQueues(db: WeekDb, g: Group)
    ensures |CsRows(db, g)| > 0 ==> g.queues != []
  {
    var rows := CsRows(db, g);
    if |rows| > 0 {
      var s := rows[0];
      assert CsEligible(db.players, db.matches, g, s);
      assert InQueues(s, g.queues);
    }
  }

  /** A row the CS/min query leaves out (too short, unknown duration, other
      queue or player, before the window) changes nothing. */
  lemma CsIgnoresIneligible(db: WeekDb, g: Group, s: StatRow)
    requires !CsEligible(db.players, db.matches, g, s)
    ensures CsPerMin(db.(stats := [s] + db.stats), g) == CsPerMin(db, g)
  {
    assert ([s] + db.stats)[1..] == db.stats;
  }

  /** A CS-eligible game lasted at least 600 s, so the division is defined. */
  lemma CsDivisorPositive(db: WeekDb, g: Group, s: StatRow)
    requires s in CsRows(db, g)
    ensures s.matchId in db.matches && db.matches[s.matchId].durationS.Some?
    ensures db.matches[s.matchId].durationS.value >= 600
  {
  }

  predicate DeadCounted(players: seq<Player>, g: Group, s: StatRow) {
    Counted(players, g, s) && s.timeDeadS.Some?
  }

  function DeadRows(db: WeekDb, g: Group): seq<StatRow> {
    Filter(db.stats, (s: StatRow) => DeadCounted(db.players, g, s))
  }

  /** Sum of the non-NULL `time_dead_s` values of the counted rows. */
  function DeadSum(players: seq<Player>, g: Group, rows: seq<StatRow>): int
    decreases |rows|
  {
    if rows == [] then 0
    else
      var s := rows[0];
      (if DeadCounted(players, g, s) then s.timeDeadS.value else 0) + DeadSum(players, g, rows[1..])
  }

  /** `compute_weekly_time_dead(...)[riot]` as (games with data, total,
      average), (0, 0, 0.0) when the riot id has no group. */
  function TimeDead(db: WeekDb, g: Group): (r: (nat, int, real))
    ensures r.0 == |DeadRows(db, g)|
    ensures r.0 > 0 ==> r.1 == DeadSum(db.players, g, db.stats) && r.2 * r.0 as real == r.1 as real
    ensures r.0 == 0 ==> r.1 == 0 && r.2 == 0.0
  {
    var rows := DeadRows(db, g);
    if rows == [] then (0, 0, 0.0)
    else
      var total := DeadSum(db.players, g, db.stats);
      (|rows|, total, Average(total as real, |rows|))
  }

  lemma DeadRowsNeedQueues(db: WeekDb, g: Group)
    ensures |DeadRows(db, g)| > 0 ==> g.queues != []
  {
    var rows := DeadRows(db, g);
    if |rows| > 0 {
      assert DeadCounted(db.players, g, rows[0]);
    }
  }

  /** An empty queue set gives an empty result map: every riot id reads as
      the default of `.get`. */
  lemma EmptyQueueSet(db: WeekDb, g: Group)
    requires g.queues == []
    ensures QueueGames(db, g) == 0
    ensures CsPerMin(db, g) == (0, 0.0)
    ensures TimeDead(db, g) == (0, 0, 0.0)
  {
    CountedRowsNeedQueues(db, g);
    CsRowsNeedQueues(db, g);
    DeadRowsNeedQueues(db, g);
  }

  lemma CountedRowsNeedQueues(db: WeekDb, g: Group)
    ensures |CountedRows(db, g)| > 0 ==> g.queues != []
  {
    var rows := CountedRows(db, g);
    if |rows| > 0 {
      assert Counted(db.players, g, rows[0]);
    }
  }

  /** A row whose `time_dead_s` is NULL changes nothing. */
  lemma NullDeadIgnored(db: WeekDb, g: Group, s: StatRow)
    requires s.timeDeadS.None?
    ensures TimeDead(db.(stats := [s] + db.stats), g) == TimeDead(db, g)
  {
    assert ([s] + db.stats)[1..] == db.stats;
  }

  /** The distinct riot ids of the roster in roster order: the order in
      which the `GROUP BY p.riot_id` groups come out, since the roster is
      sorted by riot id. */
  function RiotIds(players: seq<Player>): (r: seq<string>)
    ensures forall i, j :: 0 <= i < j < |r| ==> r[i] != r[j]
    ensures forall x :: x in r <==> exists i :: 0 <= i < |players| && players[i].riotId == x
    decreases |players|
  {
    if players == [] then []
    else
      var rest := RiotIds(players[..|players| - 1]);
      var last := players[|players| - 1];
      assert forall i :: 0 <= i < |players| - 1 ==> players[i] == players[..|players| - 1][i];
      if last.riotId in rest then rest else rest + [last.riotId]
  }

  // ---------------------------------------------------------------- per-player totals

  /** The rows of the per-player `agg` query: this puuid, the window, the
      stat queues. */
  function PlayerRows(db: WeekDb, puuid: string, start: int, queues: seq<int>): seq<StatRow> {
    Filter(db.stats, (s: StatRow) => s.puuid == puuid && s.gameStartTs >= start && InQueues(s, queues))
  }

  lemma PlayerRowsNeedQueues(db: WeekDb, puuid: string, start: int, queues: seq<int>)
    ensures |PlayerRows(db, puuid, start, queues)| > 0 ==> queues != []
  {
    var rows := PlayerRows(db, puuid, start, queues);
    if |rows| > 0 {
      assert InQueues(rows[0], queues);
    }
  }

  datatype Totals = Totals(games: nat, wins: int, kills: int, deaths: int, assists: int)

  /** `COUNT(*)`, `SUM(win)`, `SUM(kills)`, `SUM(deaths)`, `SUM(assists)`. */
  function Tally(rows: seq<StatRow>): (t: Totals)
    ensures t.games == |rows|
    decreases |rows|
  {
    if rows == [] then Totals(0, 0, 0, 0, 0)
    else
      var t := Tally(rows[1..]);
      var s := rows[0];
      Totals(t.games + 1, t.wins + s.win, t.kills + s.kills, t.deaths + s.deaths, t.assists + s.assists)
  }

  /** With every `win` 0 or 1, `SUM(win)` lies between 0 and `COUNT(*)`. */
  lemma {:induction false} TallyWinsBound(rows: seq<StatRow>)
    requires forall i :: 0 <= i < |rows| ==> 0 <= rows[i].win <= 1
    ensures 0 <= Tally(rows).wins <= Tally(rows).games
    decreases |rows|
  {
    if rows != [] {
      assert forall i :: 1 <= i < |rows| ==> rows[1..][i - 1] == rows[i];
      TallyWinsBound(rows[1..]);
    }
  }

  function AddTotals(a: Totals, b: Totals): Totals {
    Totals(a.games + b.games, a.wins + b.wins, a.kills + b.kills, a.deaths + b.deaths, a.assists + b.assists)
  }

  /** The sums do not depend on how the rows are split (SQL aggregates are
      order-free). */
  lemma {:induction false} TallyAppend(a: seq<StatRow>, b: seq<StatRow>)
    ensures Tally(a + b) == AddTotals(Tally(a), Tally(b))
    decreases |a|
  {
    if a == [] {
      assert a + b == b;
    } else {
      var ab := a + b;
      assert ab[0] == a[0] && ab[1..] == a[1..] + b;
      TallyAppend(a[1..], b);
      var t := Tally(ab[1..]);
      assert Tally(ab) == Totals(t.games + 1, t.wins + a[0].win, t.kills + a[0].kills,
                                 t.deaths + a[0].deaths, t.assists + a[0].assists);
    }
  }

  /** Rows written by the ingester have `win` 0 or 1, so the win rate of a
      player with games lies between 0 and 100. */
  lemma PlayerWinRateBounds(db: WeekDb, puuid: string, start: int, queues: seq<int>)
    requires forall i :: 0 <= i < |db.stats| ==> 0 <= db.stats[i].win <= 1
    requires Tally(PlayerRows(db, puuid, start, queues)).games > 0
    ensures var t := Tally(PlayerRows(db, puuid, start, queues));
      0.0 <= WinRate(t.wins, t.games) <= 100.0
  {
    var rows := PlayerRows(db, puuid, start, queues);
    forall i | 0 <= i < |rows|
      ensures 0 <= rows[i].win <= 1
    {
      assert rows[i] in db.stats;
    }
    TallyWinsBound(rows);
  }
}
