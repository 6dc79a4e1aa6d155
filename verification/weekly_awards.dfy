/** The award and leaderboard rules of weekly_report.py's `main`: who is a
    candidate, and which candidate each `max`, `min` or `sorted` call picks.
    Keys are the source's own tuples; `max` and `min` keep the first of
    equal keys, in roster order. */
module WeeklyAwards {
  import opened Common
  import opened Order
  import opened WeeklyStats

  /** `MIN_GAMES_FOR_AWARDS`, `MIN_GAMES_FOR_CSM`, `MIN_GAMES_FOR_AVG_DEAD`,
      and the leaderboard's `min_games`. */
  const MinGamesForAwards := 3
  const MinGamesForCsm := 3
  const MinGamesForAvgDead := 1
  const LeaderboardMinGames := 3
  /** Lines shown on the leaderboard. */
  const LeaderboardSize := 10

  // ---------------------------------------------------------------- KDA awards

  /** An entry of `candidates_for_awards`. */
  datatype KdaCandidate = KdaCandidate(riotId: string, games: nat, kda: real, kills: int, deaths: int, assists: int)

  /** `a` ranks above `b` for Player of the Week: higher KDA, then more games. */
  predicate KdaAbove(a: KdaCandidate, b: KdaCandidate) {
    a.kda > b.kda || (a.kda == b.kda && a.games > b.games)
  }

  /** `a` ranks below `b` for Most Boosted: lower KDA, then MORE games. */
  predicate KdaBelow(a: KdaCandidate, b: KdaCandidate) {
    a.kda < b.kda || (a.kda == b.kda && a.games > b.games)
  }

  /** `max(candidates, key=lambda x: (x[2], x[1]))`, as an index. */
  function BestKda(cands: seq<KdaCandidate>): (i: nat)
    requires |cands| > 0
    ensures i < |cands|
    ensures forall j :: 0 <= j < |cands| ==> !KdaAbove(cands[j], cands[i])
    ensures forall j :: 0 <= j < i ==> KdaAbove(cands[i], cands[j])
  {
    var key := (c: KdaCandidate) => [c.kda, c.games as real];
    var i := ArgMaxFirst(cands, key);
    forall j | 0 <= j < |cands|
      ensures !KdaAbove(cands[j], cands[i]) && (j < i ==> KdaAbove(cands[i], cands[j]))
    {
      LexLePair(cands[j].kda, cands[j].games as real, cands[i].kda, cands[i].games as real);
      LexLePair(cands[i].kda, cands[i].games as real, cands[j].kda, cands[j].games as real);
    }
    i
  }

  /** `min(candidates, key=lambda x: (x[2], -x[1]))`, as an index. */
  function WorstKda(cands: seq<KdaCandidate>): (i: nat)
    requires |cands| > 0
    ensures i < |cands|
    ensures forall j :: 0 <= j < |cands| ==> !KdaBelow(cands[j], cands[i])
    ensures forall j :: 0 <= j < i ==> KdaBelow(cands[i], cands[j])
  {
    var key := (c: KdaCandidate) => [c.kda, -(c.games as real)];
    var i := ArgMinFirst(cands, key);
    forall j | 0 <= j < |cands|
      ensures !KdaBelow(cands[j], cands[i]) && (j < i ==> KdaBelow(cands[i], cands[j]))
    {
      LexLePair(cands[j].kda, -(cands[j].games as real), cands[i].kda, -(cands[i].games as real));
      LexLePair(cands[i].kda, -(cands[i].games as real), cands[j].kda, -(cands[j].games as real));
    }
    i
  }

  /** When every candidate has the same KDA, both keys prefer the most games
      and then the earliest player, so the same player gets both awards. */
  lemma TiedKdaSameWinner(cands: seq<KdaCandidate>)
    requires |cands| > 0
    requires forall j :: 0 <= j < |cands| ==> cands[j].kda == cands[0].kda
    ensures BestKda(cands) == WorstKda(cands)
  {
    var b, w := BestKda(cands), WorstKda(cands);
    assert cands[b].games >= cands[w].games && cands[w].games >= cands[b].games;
    assert !(b < w) && !(w < b);
  }

  /** With two different KDAs among the candidates, the two awards go to
      different entries. */
  lemma DistinctKdaDistinctWinners(cands: seq<KdaCandidate>, j: nat, k: nat)
    requires j < |cands| && k < |cands| && cands[j].kda < cands[k].kda
    ensures BestKda(cands) != WorstKda(cands)
    ensures cands[WorstKda(cands)].kda <= cands[j].kda < cands[k].kda <= cands[BestKda(cands)].kda
  {
  }

  // ---------------------------------------------------------------- CS/min awards

  /** An entry of `cs_candidates`. */
  datatype CsCandidate = CsCandidate(riotId: string, games: nat, csmin: real)

  /** `max(cs_candidates, key=lambda x: x[2])`, as an index. */
  function BestCs(cands: seq<CsCandidate>): (i: nat)
    requires |cands| > 0
    ensures i < |cands|
    ensures forall j :: 0 <= j < |cands| ==> cands[j].csmin <= cands[i].csmin
    ensures forall j :: 0 <= j < i ==> cands[j].csmin < cands[i].csmin
  {
    ArgMaxFirstBy(cands, (c: CsCandidate) => c.csmin)
  }

  /** `min(cs_candidates, key=lambda x: x[2])`, as an index. */
  function WorstCs(cands: seq<CsCandidate>): (i: nat)
    requires |cands| > 0
    ensures i < |cands|
    ensures forall j :: 0 <= j < |cands| ==> cands[i].csmin <= cands[j].csmin
    ensures forall j :: 0 <= j < i ==> cands[i].csmin < cands[j].csmin
  {
    ArgMinFirstBy(cands, (c: CsCandidate) => c.csmin)
  }

  // ---------------------------------------------------------------- Mayhem and time-dead awards

  /** `aram_like_games.items()`: one (riot id, games) item per group, in
      group order; only riot ids with at least one row form a group. */
  function MayhemItems(db: WeekDb, start: int, funQueues: seq<int>): (items: seq<(string, nat)>)
    ensures forall i :: 0 <= i < |items| ==>
      items[i].1 > 0 && items[i].0 in RiotIds(db.players) && items[i].1 == QueueGames(db, Group(items[i].0, start, funQueues))
    ensures forall r :: r in RiotIds(db.players) && QueueGames(db, Group(r, start, funQueues)) > 0 ==>
      (r, QueueGames(db, Group(r, start, funQueues))) in items
  {
    var all := Map(RiotIds(db.players), (r: string) => (r, QueueGames(db, Group(r, start, funQueues))));
    assert forall r :: r in RiotIds(db.players) ==> (r, QueueGames(db, Group(r, start, funQueues))) in all by {
      forall r | r in RiotIds(db.players)
        ensures (r, QueueGames(db, Group(r, start, funQueues))) in all
      {
        var i :| 0 <= i < |RiotIds(db.players)| && RiotIds(db.players)[i] == r;
        assert all[i] == (r, QueueGames(db, Group(r, start, funQueues)));
      }
    }
    Filter(all, (x: (string, nat)) => x.1 > 0)
  }

  /** The Mayhem Warrior: the item with the most games (the first such), if
      there is an item and its count is above 0. */
  function MayhemWinner(items: seq<(string, nat)>): (r: Option<(string, nat)>)
    ensures r.Some? ==> r.value in items && r.value.1 > 0
    ensures r.Some? ==> forall i :: 0 <= i < |items| ==> items[i].1 <= r.value.1
    ensures r.Some? ==> exists i :: 0 <= i < |items| && items[i] == r.value && forall j :: 0 <= j < i ==> items[j].1 < r.value.1
    ensures r.None? ==> forall i :: 0 <= i < |items| ==> items[i].1 == 0
  {
    if items == [] then None
    else
      var i := ArgMaxFirstBy(items, (x: (string, nat)) => x.1 as real);
      if items[i].1 > 0 then Some(items[i]) else None
  }

  /** An entry of `avg_dead_candidates`: riot id, games with data, total and
      average seconds dead. */
  datatype DeadCandidate = DeadCandidate(riotId: string, games: nat, totalS: int, avgS: real)

  /** The entry `compute_weekly_time_dead` gives a riot id. */
  function DeadCandidateOf(db: WeekDb, start: int, statQueues: seq<int>, r: string): DeadCandidate {
    var t := TimeDead(db, Group(r, start, statQueues));
    DeadCandidate(r, t.0, t.1, t.2)
  }

  /** `if games >= MIN_GAMES_FOR_AVG_DEAD`. */
  predicate HasDeadData(c: DeadCandidate) {
    c.games >= MinGamesForAvgDead
  }

  /** The candidates of the time-dead award: the groups of
      `compute_weekly_time_dead` with at least one game with data, in group
      order. */
  function DeadCandidates(db: WeekDb, start: int, statQueues: seq<int>): (cands: seq<DeadCandidate>)
    ensures forall c :: c in cands ==>
      c.riotId in RiotIds(db.players) && c.games >= MinGamesForAvgDead && c == DeadCandidateOf(db, start, statQueues, c.riotId)
    ensures forall r :: r in RiotIds(db.players) && DeadCandidateOf(db, start, statQueues, r).games >= MinGamesForAvgDead ==>
      DeadCandidateOf(db, start, statQueues, r) in cands
  {
    var ids := RiotIds(db.players);
    var all := Map(ids, (r: string) => DeadCandidateOf(db, start, statQueues, r));
    forall r | r in ids
      ensures DeadCandidateOf(db, start, statQueues, r) in all
    {
      MapMember(ids, (r: string) => DeadCandidateOf(db, start, statQueues, r), r);
    }
    Filter(all, HasDeadData)
  }

  /** `max(avg_dead_candidates, key=lambda x: x[3])`, as an index. */
  function MostTimeDead(cands: seq<DeadCandidate>): (i: nat)
    requires |cands| > 0
    ensures i < |cands|
    ensures forall j :: 0 <= j < |cands| ==> cands[j].avgS <= cands[i].avgS
    ensures forall j :: 0 <= j < i ==> cands[j].avgS < cands[i].avgS
  {
    ArgMaxFirstBy(cands, (c: DeadCandidate) => c.avgS)
  }

  // ---------------------------------------------------------------- leaderboard

  /** An entry of `leaderboard`: riot id, games, win rate, KDA. */
  datatype LeaderEntry = LeaderEntry(riotId: string, games: nat, winrate: real, kda: real)

  predicate Qualified(e: LeaderEntry) {
    e.games >= LeaderboardMinGames
  }

  /** `(0 if games >= 3 else 1, -(wr if games >= 3 else -1), -games, -kda)`. */
  function LeaderKey(e: LeaderEntry): seq<real> {
    [if Qualified(e) then 0.0 else 1.0,
     -(if Qualified(e) then e.winrate else -1.0),
     -(e.games as real),
     -e.kda]
  }

  /** What it means for `a` to be listed no later than `b`. */
  predicate RanksFirst(a: LeaderEntry, b: LeaderEntry) {
    && (Qualified(b) ==> Qualified(a))
    && (Qualified(a) && Qualified(b) ==>
          a.winrate > b.winrate ||
          (a.winrate == b.winrate && (a.games > b.games || (a.games == b.games && a.kda >= b.kda))))
    && (!Qualified(a) && !Qualified(b) ==> a.games > b.games || (a.games == b.games && a.kda >= b.kda))
  }

  lemma LeaderKeyMeaning(a: LeaderEntry, b: LeaderEntry)
    ensures LexLe(LeaderKey(a), LeaderKey(b)) <==> RanksFirst(a, b)
  {
    var ka, kb := LeaderKey(a), LeaderKey(b);
    LexLeHead(ka, kb);
    LexLeHead(ka[1..], kb[1..]);
    assert ka[1..][1..] == [ka[2], ka[3]] && kb[1..][1..] == [kb[2], kb[3]];
    LexLePair(ka[2], ka[3], kb[2], kb[3]);
  }

  /** `sorted(leaderboard, key=...)[:10]`. */
  function TopPlayers(entries: seq<LeaderEntry>): (top: seq<LeaderEntry>)
    ensures |top| == if |entries| < LeaderboardSize then |entries| else LeaderboardSize
    ensures forall i, j :: 0 <= i < j < |top| ==> RanksFirst(top[i], top[j])
    // the lines shown are the best ones: everything left out ranks no earlier
    ensures forall e :: e in entries && e !in top ==> forall i :: 0 <= i < |top| ==> RanksFirst(top[i], e)
    ensures multiset(top) <= multiset(entries)
  {
    var sorted := SortBy(entries, LeaderKey);
    var top := Take(sorted, LeaderboardSize);
    SortedRanksFirst(sorted);
    TakeRanksFirst(entries, sorted, |top|);
    TakeSubMultiset(sorted, |top|);
    top
  }

  lemma SortedRanksFirst(s: seq<LeaderEntry>)
    requires SortedBy(s, LeaderKey)
    ensures forall i, j :: 0 <= i < j < |s| ==> RanksFirst(s[i], s[j])
  {
    forall i, j | 0 <= i < j < |s|
      ensures RanksFirst(s[i], s[j])
    {
      LeaderKeyMeaning(s[i], s[j]);
    }
  }

  lemma TakeRanksFirst(entries: seq<LeaderEntry>, sorted: seq<LeaderEntry>, n: nat)
    requires multiset(sorted) == multiset(entries) && n <= |sorted|
    requires forall i, j :: 0 <= i < j < |sorted| ==> RanksFirst(sorted[i], sorted[j])
    ensures forall e :: e in entries && e !in sorted[..n] ==> forall i :: 0 <= i < n ==> RanksFirst(sorted[i], e)
  {
    forall e | e in entries && e !in sorted[..n]
      ensures forall i :: 0 <= i < n ==> RanksFirst(sorted[i], e)
    {
      assert e in multiset(sorted);
      var k :| 0 <= k < |sorted| && sorted[k] == e;
      assert forall i :: 0 <= i < n ==> sorted[..n][i] == sorted[i];
    }
  }

  lemma TakeSubMultiset<T>(s: seq<T>, n: nat)
    requires n <= |s|
    ensures multiset(s[..n]) <= multiset(s)
  {
    assert s == s[..n] + s[n..];
  }

  /** Entries with equal keys keep their roster order (Python's sort is stable). */
  lemma TopPlayersStable(entries: seq<LeaderEntry>, k: seq<real>)
    ensures WithKey(SortBy(entries, LeaderKey), LeaderKey, k) == WithKey(entries, LeaderKey, k)
  {
  }
}
