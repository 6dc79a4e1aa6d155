/** The driver of weekly_report.py: the loop over the roster that fills
    `summaries`, `leaderboard`, `positions` and `candidates_for_awards`, the
    CS and time-dead candidate loops, the awards, the summary sort, the
    packing of the player blocks into embeds and the batches of posts.
    Formatting is the parameter `render`; only which facts reach which embed
    is modelled. */
module WeeklyReport {
  import opened Common
  import opened Text
  import opened Order
  import opened Config
  import opened Payload
  import opened Packing
  import opened WeeklyStats
  import opened WeeklyAwards

  /** The facts a player's summary block is written from. */
  datatype Block =
    | NoEnabledQueues
    | NoGames(lookbackDays: int)
    | Stats(mainRole: string, totals: Totals, winrate: real, kda: real, cs: (nat, real), dead: (nat, int, real))

  /** An entry of `summaries`: riot id, games, block. */
  datatype Summary = Summary(riotId: string, games: nat, block: Block)

  /** What one iteration of the roster loop adds. */
  datatype PlayerWeek = PlayerWeek(isSupport: bool, summary: Summary, leader: LeaderEntry, candidate: Option<KdaCandidate>)

  /** The inputs every query of one report shares. */
  datatype Week = Week(db: WeekDb, start: int, lookbackDays: int, statQueues: seq<int>, funQueues: seq<int>)

  /** One iteration of `for row in players` (weekly_report.py:272-379). */
  function PlayerWeekOf(w: Week, p: Player): (pw: PlayerWeek)
    ensures pw.isSupport == IsSupportThisWeek(w.db, p.puuid, w.start)
    ensures pw.summary.riotId == p.riotId && pw.leader.riotId == p.riotId
    // the games shown are the player's rows in the window and the stat queues
    ensures pw.summary.games == pw.leader.games == Tally(PlayerRows(w.db, p.puuid, w.start, w.statQueues)).games
    ensures pw.leader.games == 0 ==> pw.leader.winrate == 0.0 && pw.leader.kda == 0.0 && !pw.summary.block.Stats?
    ensures pw.leader.games > 0 ==>
      var t := Tally(PlayerRows(w.db, p.puuid, w.start, w.statQueues));
      && pw.summary.block.Stats? && pw.summary.block.totals == t
      && pw.leader.winrate == WinRate(t.wins, t.games)
      && pw.leader.kda == KdaRatio(t.kills, t.deaths, t.assists)
    // only players with at least 3 games compete for the KDA awards
    ensures pw.candidate.Some? <==> pw.leader.games >= MinGamesForAwards
    ensures pw.candidate.Some? ==>
      var c := pw.candidate.value;
      var t := Tally(PlayerRows(w.db, p.puuid, w.start, w.statQueues));
      c.riotId == p.riotId && c.games == t.games && c.kda == pw.leader.kda &&
      c.kills == t.kills && c.deaths == t.deaths && c.assists == t.assists
  {
    PlayerRowsNeedQueues(w.db, p.puuid, w.start, w.statQueues);
    var isSupport := SupportOf(w, p);
    if w.statQueues == [] then
      PlayerWeek(isSupport, Summary(p.riotId, 0, NoEnabledQueues), LeaderEntry(p.riotId, 0, 0.0, 0.0), None)
    else
      var t := Tally(PlayerRows(w.db, p.puuid, w.start, w.statQueues));
      if t.games == 0 then
        PlayerWeek(isSupport, Summary(p.riotId, 0, NoGames(w.lookbackDays)), LeaderEntry(p.riotId, 0, 0.0, 0.0), None)
      else
        var wr := WinRate(t.wins, t.games);
        var kda := KdaRatio(t.kills, t.deaths, t.assists);
        var cand := if t.games >= MinGamesForAwards
                    then Some(KdaCandidate(p.riotId, t.games, kda, t.kills, t.deaths, t.assists))
                    else None;
        PlayerWeek(isSupport, Summary(p.riotId, t.games, StatsBlock(w, p, t, wr, kda)), LeaderEntry(p.riotId, t.games, wr, kda), cand)
  }

  /** The block of a player with games: main role, totals, win rate, KDA,
      CS/min and time dead over the stat queues. */
  function StatsBlock(w: Week, p: Player, t: Totals, wr: real, kda: real): (b: Block)
    ensures b.Stats? && b.totals == t
  {
    var g := Group(p.riotId, w.start, w.statQueues);
    Stats(MainRoleThisWeek(w.db, p.puuid, w.start), t, wr, kda, CsPerMin(w.db, g), TimeDead(w.db, g))
  }

  /** `positions` after the roster loop: the support flag of the LAST player
      with each riot id (a dict assignment overwrites). */
  function Positions(w: Week, ps: seq<Player>): map<string, bool>
    decreases |ps|
  {
    if ps == [] then map[]
    else
      var last := ps[|ps| - 1];
      Positions(w, ps[..|ps| - 1])[last.riotId := SupportOf(w, last)]
  }

  /** What one iteration of the roster loop adds to `candidates_for_awards`. */
  function KdaCandidateOf(w: Week, p: Player): seq<KdaCandidate> {
    var c := PlayerWeekOf(w, p).candidate;
    if c.Some? then [c.value] else []
  }

  /** `candidates_for_awards` after the roster loop. */
  function KdaCandidates(w: Week, ps: seq<Player>): seq<KdaCandidate>
    decreases |ps|
  {
    if ps == [] then [] else KdaCandidates(w, ps[..|ps| - 1]) + KdaCandidateOf(w, ps[|ps| - 1])
  }

  function SummaryOf(w: Week, p: Player): Summary {
    PlayerWeekOf(w, p).summary
  }

  function LeaderOf(w: Week, p: Player): LeaderEntry {
    PlayerWeekOf(w, p).leader
  }

  /** The flag `positions` stores for a player: the 60 % support rule on
      the player's window. */
  function SupportOf(w: Week, p: Player): bool {
    IsSupportThisWeek(w.db, p.puuid, w.start)
  }

  lemma RosterSnoc(w: Week, ps: seq<Player>, i: nat)
    requires i < |ps|
    ensures Positions(w, ps[..i + 1]) == Positions(w, ps[..i])[ps[i].riotId := SupportOf(w, ps[i])]
    ensures KdaCandidates(w, ps[..i + 1]) == KdaCandidates(w, ps[..i]) + KdaCandidateOf(w, ps[i])
  {
    assert ps[..i + 1][..i] == ps[..i];
  }

  /** The roster loop. */
  method CollectPlayers(w: Week)
      returns (summaries: seq<Summary>, leaderboard: seq<LeaderEntry>, positions: map<string, bool>,
               candidates: seq<KdaCandidate>)
    ensures summaries == Map(w.db.players, (p: Player) => SummaryOf(w, p))
    ensures leaderboard == Map(w.db.players, (p: Player) => LeaderOf(w, p))
    ensures positions == Positions(w, w.db.players)
    ensures candidates == KdaCandidates(w, w.db.players)
  {
    var players := w.db.players;
    summaries, leaderboard, positions, candidates := [], [], map[], [];
    var i := 0;
    while i < |players|
      invariant i <= |players|
      invariant summaries == Map(players[..i], (p: Player) => SummaryOf(w, p))
      invariant leaderboard == Map(players[..i], (p: Player) => LeaderOf(w, p))
      invariant positions == Positions(w, players[..i])
      invariant candidates == KdaCandidates(w, players[..i])
    {
      var row := players[i];
      RosterSnoc(w, players, i);
      MapSnoc(players, (p: Player) => SummaryOf(w, p), i);
      MapSnoc(players, (p: Player) => LeaderOf(w, p), i);
      positions := positions[row.riotId := SupportOf(w, row)];
      summaries := summaries + [SummaryOf(w, row)];
      leaderboard := leaderboard + [LeaderOf(w, row)];
      candidates := candidates + KdaCandidateOf(w, row);
      i := i + 1;
    }
    assert players[..i] == players;
  }

  /** The support flag stored for a riot id is the one of the last player
      with that riot id. */
  lemma {:induction false} PositionsLastWins(w: Week, ps: seq<Player>, k: nat)
    requires k < |ps| && forall j :: k < j < |ps| ==> ps[j].riotId != ps[k].riotId
    ensures ps[k].riotId in Positions(w, ps)
    ensures Positions(w, ps)[ps[k].riotId] == SupportOf(w, ps[k])
    decreases |ps|
  {
    var n := |ps| - 1;
    var init := ps[..n];
    var before := Positions(w, init);
    assert Positions(w, ps) == before[ps[n].riotId := SupportOf(w, ps[n])];
    if k < n {
      assert init[k] == ps[k];
      assert forall j :: k < j < n ==> init[j] == ps[j];
      PositionsLastWins(w, init, k);
      assert ps[n].riotId != ps[k].riotId;
      assert Positions(w, ps)[ps[k].riotId] == before[ps[k].riotId];
    }
  }

  /** Every KDA candidate played at least 3 games, and it is the candidate
      of some roster player. */
  lemma {:induction false} KdaCandidatesQualified(w: Week, ps: seq<Player>)
    ensures forall c :: c in KdaCandidates(w, ps) ==>
      c.games >= MinGamesForAwards && exists p :: p in ps && PlayerWeekOf(w, p).candidate == Some(c)
    decreases |ps|
  {
    if ps != [] {
      var init := ps[..|ps| - 1];
      var last := ps[|ps| - 1];
      KdaCandidatesQualified(w, init);
      assert KdaCandidates(w, ps) == KdaCandidates(w, init) + KdaCandidateOf(w, last);
      forall c | c in KdaCandidates(w, ps)
        ensures c.games >= MinGamesForAwards && exists p :: p in ps && PlayerWeekOf(w, p).candidate == Some(c)
      {
        if c in KdaCandidates(w, init) {
          var p :| p in init && PlayerWeekOf(w, p).candidate == Some(c);
          assert p in ps;
        } else {
          assert last in ps && PlayerWeekOf(w, last).candidate == Some(c);
        }
      }
    }
  }

  /** Every player with at least 3 games is a KDA candidate. */
  lemma {:induction false} KdaCandidatesComplete(w: Week, ps: seq<Player>, k: nat)
    requires k < |ps| && PlayerWeekOf(w, ps[k]).leader.games >= MinGamesForAwards
    ensures PlayerWeekOf(w, ps[k]).candidate.value in KdaCandidates(w, ps)
    decreases |ps|
  {
    if k < |ps| - 1 {
      var init := ps[..|ps| - 1];
      assert init[k] == ps[k];
      KdaCandidatesComplete(w, init, k);
    }
  }

  // ---------------------------------------------------------------- CS candidates

  /** `positions.get(riot_id)` is truthy. */
  predicate MarkedSupport(positions: map<string, bool>, riot: string) {
    riot in positions && positions[riot]
  }

  /** What one iteration of the CS/min candidate loop adds for a riot id. */
  function CsCandidateOf(w: Week, positions: map<string, bool>, riot: string): seq<CsCandidate> {
    if MarkedSupport(positions, riot) then []
    else
      var cs := CsPerMin(w.db, Group(riot, w.start, w.statQueues));
      if cs.0 >= MinGamesForCsm then [CsCandidate(riot, cs.0, cs.1)] else []
  }

  /** `cs_candidates` after its loop. */
  function CsCandidates(w: Week, positions: map<string, bool>, ps: seq<Player>): seq<CsCandidate>
    decreases |ps|
  {
    if ps == [] then []
    else CsCandidates(w, positions, ps[..|ps| - 1]) + CsCandidateOf(w, positions, ps[|ps| - 1].riotId)
  }

  lemma CsCandidatesSnoc(w: Week, positions: map<string, bool>, ps: seq<Player>, i: nat)
    requires i < |ps|
    ensures CsCandidates(w, positions, ps[..i + 1]) == CsCandidates(w, positions, ps[..i]) + CsCandidateOf(w, positions, ps[i].riotId)
  {
    assert ps[..i + 1][..i] == ps[..i];
  }

  /** The CS/min candidate loop (weekly_report.py:400-408). */
  method CollectCsCandidates(w: Week, positions: map<string, bool>) returns (cands: seq<CsCandidate>)
    ensures cands == CsCandidates(w, positions, w.db.players)
  {
    var players := w.db.players;
    cands := [];
    var i := 0;
    while i < |players|
      invariant i <= |players|
      invariant cands == CsCandidates(w, positions, players[..i])
    {
      CsCandidatesSnoc(w, positions, players, i);
      cands := cands + CsCandidateOf(w, positions, players[i].riotId);
      i := i + 1;
    }
    assert players[..i] == players;
  }

  /** A CS candidate is not marked as a support, has at least 3 CS-eligible
      games, and carries its riot id's CS/min result. */
  lemma {:induction false} CsCandidatesQualified(w: Week, positions: map<string, bool>, ps: seq<Player>)
    ensures forall c :: c in CsCandidates(w, positions, ps) ==>
      && !MarkedSupport(positions, c.riotId)
      && c.games >= MinGamesForCsm
      && (c.games, c.csmin) == CsPerMin(w.db, Group(c.riotId, w.start, w.statQueues))
    decreases |ps|
  {
    if ps != [] {
      CsCandidatesQualified(w, positions, ps[..|ps| - 1]);
    }
  }

  /** The time-dead candidate loop (weekly_report.py:437-439) over the
      groups of `compute_weekly_time_dead`. */
  method CollectDeadCandidates(w: Week) returns (cands: seq<DeadCandidate>)
    ensures cands == DeadCandidates(w.db, w.start, w.statQueues)
  {
    var ids := RiotIds(w.db.players);
    var items := Map(ids, (r: string) => DeadCandidateOf(w.db, w.start, w.statQueues, r));
    cands := [];
    var i := 0;
    while i < |items|
      invariant i <= |items|
      invariant cands == Filter(items[..i], HasDeadData)
    {
      FilterSnoc(items, HasDeadData, i);
      if items[i].games >= MinGamesForAvgDead {
        cands := cands + [items[i]];
      }
      i := i + 1;
    }
    assert items[..i] == items;
  }

  // ---------------------------------------------------------------- awards

  /** The winners the awards embed shows; `None` where the source prints
      its "not enough data" text. */
  datatype Awards = Awards(
    bestKda: Option<KdaCandidate>,
    worstKda: Option<KdaCandidate>,
    bestCs: Option<CsCandidate>,
    worstCs: Option<CsCandidate>,
    mayhem: Option<(string, nat)>,
    mostDead: Option<DeadCandidate>)

  function AwardsOf(kda: seq<KdaCandidate>, cs: seq<CsCandidate>, mayhem: seq<(string, nat)>, dead: seq<DeadCandidate>): (a: Awards)
    ensures a.bestKda.Some? <==> |kda| > 0
    ensures a.bestKda.Some? ==> a.bestKda == Some(kda[BestKda(kda)]) && a.worstKda == Some(kda[WorstKda(kda)])
    ensures a.bestCs.Some? <==> |cs| > 0
    ensures a.bestCs.Some? ==> a.bestCs == Some(cs[BestCs(cs)]) && a.worstCs == Some(cs[WorstCs(cs)])
    ensures a.mayhem == MayhemWinner(mayhem)
    ensures a.mostDead.Some? <==> |dead| > 0
    ensures a.mostDead.Some? ==> a.mostDead == Some(dead[MostTimeDead(dead)])
  {
    Awards(
      if |kda| > 0 then Some(kda[BestKda(kda)]) else None,
      if |kda| > 0 then Some(kda[WorstKda(kda)]) else None,
      if |cs| > 0 then Some(cs[BestCs(cs)]) else None,
      if |cs| > 0 then Some(cs[WorstCs(cs)]) else None,
      MayhemWinner(mayhem),
      if |dead| > 0 then Some(dead[MostTimeDead(dead)]) else None)
  }

  // ---------------------------------------------------------------- summaries and embeds

  /** `summaries.sort(key=lambda x: x[1], reverse=True)` with every entry a
      (riot id, games, text) triple: most games first, ties in roster order. */
  function SortSummaries(ss: seq<Summary>): (r: seq<Summary>)
    ensures multiset(r) == multiset(ss)
    ensures forall i, j :: 0 <= i < j < |r| ==> r[i].games >= r[j].games
  {
    var key := (s: Summary) => [-(s.games as real)];
    var r := SortBy(ss, key);
    forall i, j | 0 <= i < j < |r|
      ensures r[i].games >= r[j].games
    {
      LexLeSingle(-(r[i].games as real), -(r[j].games as real));
    }
    r
  }

  /** Summaries with the same number of games keep their roster order. */
  lemma SortSummariesStable(ss: seq<Summary>, g: nat)
    ensures WithKey(SortSummaries(ss), (s: Summary) => [-(s.games as real)], [-(g as real)])
         == WithKey(ss, (s: Summary) => [-(s.games as real)], [-(g as real)])
  {
  }

  /** `f"**{riot_id}**\n{text}\n\n"`. */
  function Entry(s: Summary, render: Block -> string): (e: string)
    ensures !IsBlank(e)
  {
    var e := "**" + s.riotId + "**\n" + render(s.block) + "\n\n";
    assert !IsSpace(e[0]);
    e
  }

  /** The description limit of a player-stats embed. */
  const ChunkLimit := 3500
  /** Embeds per webhook post. */
  const EmbedsPerPost := 10

  /** The embeds of the report; `part` numbers the player-stats embeds from 1. */
  datatype Embed =
    | TimeOfTheWeek
    | AwardsEmbed(lookbackDays: int, awards: Awards)
    | LeaderboardEmbed(top: seq<LeaderEntry>)
    | PlayerStats(part: nat, description: string)

  /** One player-stats embed per chunk, numbered from 1, described by the
      stripped chunk. */
  function PlayerStatsEmbeds(chunks: seq<string>): (es: seq<Embed>)
    ensures |es| == |chunks|
    ensures forall i :: 0 <= i < |chunks| ==> es[i] == PlayerStats(i + 1, Strip(chunks[i]))
  {
    seq(|chunks|, i requires 0 <= i < |chunks| => PlayerStats(i + 1, Strip(chunks[i])))
  }

  datatype ReportError = NoPlayers

  /** The week a run at time `now` reports on: the last `lookback_days`
      days, stat queues without and fun queues with an "aram" label. */
  function WeekOf(db: WeekDb, cfg: Cfg, now: int): (w: Week)
    ensures w.db == db && w.lookbackDays == cfg.LookbackDays()
    ensures w.start == now - cfg.LookbackDays() * SecondsPerDay
    ensures w.statQueues == QueueIdsExcludingLabels(cfg.enabledQueues, ["aram"])
    ensures w.funQueues == QueueIdsIncludingLabels(cfg.enabledQueues, ["aram"])
  {
    var lookback := cfg.LookbackDays();
    Week(db, now - lookback * SecondsPerDay, lookback,
         QueueIdsExcludingLabels(cfg.enabledQueues, ["aram"]),
         QueueIdsIncludingLabels(cfg.enabledQueues, ["aram"]))
  }

  /** The winners of the week's awards. */
  function WeekAwards(w: Week): Awards {
    AwardsOf(KdaCandidates(w, w.db.players),
             CsCandidates(w, Positions(w, w.db.players), w.db.players),
             MayhemItems(w.db, w.start, w.funQueues),
             DeadCandidates(w.db, w.start, w.statQueues))
  }

  /** The week's leaderboard. */
  function WeekTop(w: Week): seq<LeaderEntry> {
    TopPlayers(Map(w.db.players, (p: Player) => LeaderOf(w, p)))
  }

  /** The player blocks, most games first. */
  function WeekEntries(w: Week, render: Block -> string): seq<string> {
    Map(SortSummaries(Map(w.db.players, (p: Player) => SummaryOf(w, p))), (s: Summary) => Entry(s, render))
  }

  /** The three fixed embeds, then one player-stats embed per chunk. */
  function WeekEmbeds(w: Week, chunks: seq<string>): seq<Embed> {
    [TimeOfTheWeek, AwardsEmbed(w.lookbackDays, WeekAwards(w)), LeaderboardEmbed(WeekTop(w))] + PlayerStatsEmbeds(chunks)
  }

  /** Every entry of the report is a non-blank player block. */
  lemma EntriesNotBlank(w: Week, render: Block -> string)
    ensures forall i :: 0 <= i < |WeekEntries(w, render)| ==> !IsBlank(WeekEntries(w, render)[i])
  {
  }

  /** The report of one run at time `now`: an error when the roster is
      empty, else the batches of embeds to post. */
  method WeeklyReport(db: WeekDb, cfg: Cfg, now: int, render: Block -> string)
      returns (r: Result<seq<seq<Embed>>, ReportError>, chunks: seq<string>)
    ensures r.Failure? <==> db.players == []
    ensures r.Success? ==>
      var w := WeekOf(db, cfg, now);
      && chunks == PackChunks(WeekEntries(w, render), ChunkLimit)
      // every player block is in exactly one chunk, in order
      && Concat(chunks) == Concat(WeekEntries(w, render))
      // the fixed embeds and the player-stats embeds, in posts of at most 10
      && Flatten(r.value) == WeekEmbeds(w, chunks)
      && (forall b :: b in r.value ==> 0 < |b| <= EmbedsPerPost)
      && (forall i :: 0 <= i < |r.value| - 1 ==> |r.value[i]| == EmbedsPerPost)
  {
    var w := WeekOf(db, cfg, now);
    if db.players == [] {
      return Failure(NoPlayers), [];
    }
    var summaries, leaderboard, positions, kdaCands := CollectPlayers(w);
    var csCands := CollectCsCandidates(w, positions);
    summaries := SortSummaries(summaries);
    var deadCands := CollectDeadCandidates(w);
    var awards := AwardsOf(kdaCands, csCands, MayhemItems(db, w.start, w.funQueues), deadCands);
    assert awards == WeekAwards(w);
    var top := TopPlayers(leaderboard);

    var entries := Map(summaries, (s: Summary) => Entry(s, render));
    assert entries == WeekEntries(w, render);
    EntriesNotBlank(w, render);
    ghost var cuts;
    chunks, cuts := PackEntries(entries, ChunkLimit);
    NothingDropped(entries, ChunkLimit, chunks, cuts);
    var embeds := [TimeOfTheWeek, AwardsEmbed(w.lookbackDays, awards), LeaderboardEmbed(top)] + PlayerStatsEmbeds(chunks);
    var batches := Batches(embeds, EmbedsPerPost);
    r := Success(batches);
  }

  // ---------------------------------------------------------------- the tuples as written

  /** The entries `summaries` really holds: 2-tuples for a player with no
      enabled queue or no games (weekly_report.py:284, 312), 3-tuples
      otherwise (weekly_report.py:378). */
  datatype SummaryTuple = Pair(riotId: string, text: string) | Triple(riotId: string, games: nat, text: string)

  datatype PyError = TypeError | ValueError

  function TupleAsWritten(s: Summary, render: Block -> string): SummaryTuple {
    if s.block.Stats? then Triple(s.riotId, s.games, render(s.block)) else Pair(s.riotId, render(s.block))
  }

  /** The sort at weekly_report.py:409 followed by the three-name unpacking
      at weekly_report.py:550. The sort key `x[1]` is a string for a pair
      and an int for a triple: with both present, any comparison sort must
      compare some str key with some int key, which raises `TypeError`;
      with pairs only the sort succeeds and unpacking the first pair raises
      `ValueError`. */
  function SortAndUnpackAsWritten(ts: seq<SummaryTuple>): (r: Result<seq<SummaryTuple>, PyError>)
    ensures r.Success? <==> forall i :: 0 <= i < |ts| ==> ts[i].Triple?
  {
    if exists i :: 0 <= i < |ts| && ts[i].Pair? then
      if exists j :: 0 <= j < |ts| && ts[j].Triple? then Failure(TypeError) else Failure(ValueError)
    else Success(SortBy(ts, (t: SummaryTuple) => [-(if t.Triple? then t.games as real else 0.0)]))
  }

  /** As written, the report crashes before anything is posted as soon as
      one player had no game in the stat queues this week. */
  lemma IdlePlayerCrashesAsWritten(w: Week, render: Block -> string, k: nat)
    requires k < |w.db.players| && SummaryOf(w, w.db.players[k]).games == 0
    ensures SortAndUnpackAsWritten(Map(Map(w.db.players, (p: Player) => SummaryOf(w, p)),
                                       (s: Summary) => TupleAsWritten(s, render))).Failure?
  {
    var ts := Map(Map(w.db.players, (p: Player) => SummaryOf(w, p)), (s: Summary) => TupleAsWritten(s, render));
    assert ts[k].Pair?;
  }

  /** A concrete case: a one-player roster whose player has no rows. */
  lemma OnePlayerNoRowsAsWritten(render: Block -> string)
    ensures var w := Week(WeekDb([Player("p", "A#1")], [], map[]), 0, 7, [420], []);
      SortAndUnpackAsWritten(Map(Map(w.db.players, (p: Player) => SummaryOf(w, p)),
                                 (s: Summary) => TupleAsWritten(s, render))) == Failure(ValueError)
  {
    var w := Week(WeekDb([Player("p", "A#1")], [], map[]), 0, 7, [420], []);
    var ss := Map(w.db.players, (p: Player) => SummaryOf(w, p));
    assert ss[0].block == NoGames(7);
  }
}
