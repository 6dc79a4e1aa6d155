/** What the ingest run guarantees: the three dedup branches, the queue
    filter, insert-only growth of the tables, counters that count the rows
    added, the checkpoint rule, and that re-running a successful match loop
    over the same ids changes nothing. */
module IngestFacts {
  import opened Common
  import opened Config
  import opened Payload
  import opened Storage
  import opened Ingest

  /** Both rows present: nothing is fetched (the result does not depend on
      the upstream) and nothing is written. */
  lemma BothPresentUntouched(p: Progress, puuid: string, routing: string, enabled: set<int>,
                             up1: Upstream, up2: Upstream, id: string)
    requires id in p.t.matches && (puuid, id) in p.t.stats
    ensures StepMatch(p, puuid, routing, enabled, up1, id) == p
    ensures StepMatch(p, puuid, routing, enabled, up2, id) == p
  {
  }

  /** A fetched match outside the enabled queues is counted as skipped and
      writes nothing; a null queue id is never skipped. */
  lemma SkippedByQueue(p: Progress, puuid: string, routing: string, enabled: set<int>, up: Upstream, id: string)
    requires p.ok
    requires !(id in p.t.matches && (puuid, id) in p.t.stats)
    requires up.matchJson(routing, id).Success?
    ensures var m := up.matchJson(routing, id).value;
      var q := StepMatch(p, puuid, routing, enabled, up, id);
      && (InfoOf(m).queueId.Some? && InfoOf(m).queueId.value !in enabled <==> q.c.skippedByQueue == p.c.skippedByQueue + 1)
      && (InfoOf(m).queueId.Some? && InfoOf(m).queueId.value !in enabled ==> q.t == p.t && q.ok)
  {
  }

  /** A known match without this player's row: only the stat row is added. */
  lemma KnownMatchOnlyStat(p: Progress, puuid: string, routing: string, enabled: set<int>, up: Upstream, id: string)
    requires id in p.t.matches && (puuid, id) !in p.t.stats
    requires up.matchJson(routing, id).Success? && Accepted(up.matchJson(routing, id).value, enabled)
    ensures var m := up.matchJson(routing, id).value;
      var q := StepMatch(p, puuid, routing, enabled, up, id);
      && q.ok && q.t.matches == p.t.matches && q.c.newMatches == p.c.newMatches
      && (StatRowOf(puuid, id, m).Some? ==> q.t.stats == p.t.stats[(puuid, id) := StatRowOf(puuid, id, m).value])
      && (StatRowOf(puuid, id, m).None? ==> q.t.stats == p.t.stats)
  {
  }

  /** A new accepted match: its row is kept and counted even when no stat row
      can be derived from it. */
  lemma NewMatchKept(p: Progress, puuid: string, routing: string, enabled: set<int>, up: Upstream, id: string)
    requires id !in p.t.matches
    requires up.matchJson(routing, id).Success? && Accepted(up.matchJson(routing, id).value, enabled)
    ensures var m := up.matchJson(routing, id).value;
      var q := StepMatch(p, puuid, routing, enabled, up, id);
      && q.ok && q.t.matches == p.t.matches[id := MatchRowOf(id, routing, m)]
      && q.c.newMatches == p.c.newMatches + 1
      && q.c.newPlayerRows == p.c.newPlayerRows + (if StatRowOf(puuid, id, m).Some? then 1 else 0)
  {
  }

  /** One step only adds rows, and never touches players or checkpoints. */
  lemma StepKeepsRows(p: Progress, puuid: string, routing: string, enabled: set<int>, up: Upstream, id: string)
    ensures var q := StepMatch(p, puuid, routing, enabled, up, id);
      && KeepsRows(p.t, q.t) && q.t.players == p.t.players && q.t.checkpoints == p.t.checkpoints
      && q.c.newMatches >= p.c.newMatches && q.c.newPlayerRows >= p.c.newPlayerRows
      && q.c.skippedByQueue >= p.c.skippedByQueue
  {
    if !(id in p.t.matches && (puuid, id) in p.t.stats) && up.matchJson(routing, id).Success? {
      var m := up.matchJson(routing, id).value;
      if Accepted(m, enabled) {
        StoreKeepsRows(p, puuid, routing, id, m, id !in p.t.matches);
      }
    }
  }

  /** Storing a match adds rows and changes nothing else. */
  lemma StoreKeepsRows(p: Progress, puuid: string, routing: string, id: string, m: MatchPayload, newMatch: bool)
    ensures var q := Store(p, puuid, routing, id, m, newMatch);
      && KeepsRows(p.t, q.t) && q.t.players == p.t.players && q.t.checkpoints == p.t.checkpoints
  {
    var t1 := if newMatch then p.t.WithMatch(MatchRowOf(id, routing, m)) else p.t;
    assert KeepsRows(p.t, t1);
    var row := StatRowOf(puuid, id, m);
    var t2 := if row.Some? then t1.WithStat(row.value) else t1;
    assert KeepsRows(t1, t2);
    KeepsRowsTrans(p.t, t1, t2);
  }

  lemma KeepsRowsTrans(a: Tables, b: Tables, c: Tables)
    requires KeepsRows(a, b) && KeepsRows(b, c)
    ensures KeepsRows(a, c)
  {
  }

  /** The match loop only adds rows; players and checkpoints are untouched. */
  lemma {:induction false} RunMatchesKeepsRows(p: Progress, puuid: string, routing: string, enabled: set<int>,
                                               up: Upstream, ids: seq<string>)
    ensures var q := RunMatches(p, puuid, routing, enabled, up, ids);
      KeepsRows(p.t, q.t) && q.t.players == p.t.players && q.t.checkpoints == p.t.checkpoints
    decreases |ids|
  {
    if ids != [] {
      var prefix := ids[..|ids| - 1];
      RunMatchesKeepsRows(p, puuid, routing, enabled, up, prefix);
      StepKeepsRows(RunMatches(p, puuid, routing, enabled, up, prefix), puuid, routing, enabled, up, ids[|ids| - 1]);
    }
  }

  /** Rows added by a step passed the queue filter. */
  ghost predicate AddedRowsAccepted(t1: Tables, t2: Tables, enabled: set<int>) {
    && (forall id :: id in t2.matches && id !in t1.matches ==>
          t2.matches[id].queueId.None? || t2.matches[id].queueId.value in enabled)
    && (forall k :: k in t2.stats && k !in t1.stats ==>
          t2.stats[k].queueId.None? || t2.stats[k].queueId.value in enabled)
  }

  /** The stored counters equal the rows added, and the store stays consistent. */
  ghost predicate CountsRows(p: Progress, q: Progress) {
    && |q.t.matches| == |p.t.matches| + (q.c.newMatches - p.c.newMatches)
    && |q.t.stats| == |p.t.stats| + (q.c.newPlayerRows - p.c.newPlayerRows)
  }

  lemma StepCounts(p: Progress, puuid: string, routing: string, enabled: set<int>, up: Upstream, id: string)
    requires p.t.Consistent()
    ensures var q := StepMatch(p, puuid, routing, enabled, up, id);
      q.t.Consistent() && CountsRows(p, q) && AddedRowsAccepted(p.t, q.t, enabled)
  {
    if !(id in p.t.matches && (puuid, id) in p.t.stats) && up.matchJson(routing, id).Success? {
      var m := up.matchJson(routing, id).value;
      if Accepted(m, enabled) {
        StoreCounts(p, puuid, routing, enabled, id, m);
      }
    }
  }

  lemma StoreCounts(p: Progress, puuid: string, routing: string, enabled: set<int>, id: string, m: MatchPayload)
    requires p.t.Consistent() && !(id in p.t.matches && (puuid, id) in p.t.stats) && Accepted(m, enabled)
    ensures var q := Store(p, puuid, routing, id, m, id !in p.t.matches);
      q.t.Consistent() && CountsRows(p, q) && AddedRowsAccepted(p.t, q.t, enabled)
  {
    var newMatch := id !in p.t.matches;
    var t1 := if newMatch then p.t.WithMatch(MatchRowOf(id, routing, m)) else p.t;
    if newMatch {
      AddMatch(p.t, MatchRowOf(id, routing, m), enabled);
    }
    var row := StatRowOf(puuid, id, m);
    if row.Some? {
      AddStat(p.t, t1, row.value, enabled);
    }
  }

  lemma AddMatch(t: Tables, row: MatchRow, enabled: set<int>)
    requires t.Consistent() && row.matchId !in t.matches
    requires row.queueId.None? || row.queueId.value in enabled
    ensures var t1 := t.WithMatch(row);
      && t1.Consistent() && |t1.matches| == |t.matches| + 1 && t1.stats == t.stats
      && AddedRowsAccepted(t, t1, enabled)
  {
  }

  lemma AddStat(t0: Tables, t1: Tables, row: StatRow, enabled: set<int>)
    requires t1.Consistent() && row.matchId in t1.matches && (row.puuid, row.matchId) !in t1.stats
    requires row.queueId.None? || row.queueId.value in enabled
    requires t1.stats == t0.stats && AddedRowsAccepted(t0, t1, enabled)
    ensures var t2 := t1.WithStat(row);
      && t2.Consistent() && |t2.stats| == |t1.stats| + 1 && t2.matches == t1.matches
      && AddedRowsAccepted(t0, t2, enabled)
  {
  }

  lemma {:induction false} RunMatchesCounts(p: Progress, puuid: string, routing: string, enabled: set<int>,
                                            up: Upstream, ids: seq<string>)
    requires p.t.Consistent()
    ensures var q := RunMatches(p, puuid, routing, enabled, up, ids);
      q.t.Consistent() && CountsRows(p, q) && AddedRowsAccepted(p.t, q.t, enabled)
    decreases |ids|
  {
    if ids != [] {
      var prefix := ids[..|ids| - 1];
      RunMatchesCounts(p, puuid, routing, enabled, up, prefix);
      var q := RunMatches(p, puuid, routing, enabled, up, prefix);
      RunMatchesKeepsRows(p, puuid, routing, enabled, up, prefix);
      if q.ok {
        StepCounts(q, puuid, routing, enabled, up, ids[|ids| - 1]);
        StepKeepsRows(q, puuid, routing, enabled, up, ids[|ids| - 1]);
      }
    }
  }

  /** The checkpoint rule: a player whose run succeeds gets checkpoint `now`;
      a player whose run raises keeps the old checkpoints. */
  lemma PlayerCheckpoint(t: Tables, c: Counters, cfg: Cfg, player: PlayerCfg, up: Upstream, now: int)
    ensures var q := RunPlayer(t, c, cfg, player, up, now);
      && (q.ok ==> Resolve(cfg, player, up).Some? &&
                   q.t.checkpoints == t.checkpoints[Resolve(cfg, player, up).value.puuid := now])
      && (!q.ok ==> q.t.checkpoints == t.checkpoints)
  {
    var q := RunPlayer(t, c, cfg, player, up, now);
    match Resolve(cfg, player, up)
    case None =>
    case Some(r) =>
      var t1 := t.WithPlayer(r.puuid, PlayerRow(r.riotId, r.platform, r.routing));
      var w := WindowFor(t1, r.puuid, cfg, now);
      match up.matchIds(r.puuid, r.routing, w.start, w.end, w.count)
      case Failure(_) =>
      case Success(ids) =>
        RunMatchesKeepsRows(Progress(t1, c, true), r.puuid, r.routing, EnabledQueueIds(cfg, player), up, ids);
  }

  /** Windows are contiguous: after a successful run at `now`, the next run
      of the same player starts its window exactly at `now`. */
  lemma NextWindowStartsAtNow(t: Tables, c: Counters, cfg: Cfg, player: PlayerCfg, up: Upstream, now: int, later: int)
    requires RunPlayer(t, c, cfg, player, up, now).ok
    ensures var puuid := Resolve(cfg, player, up).value.puuid;
      WindowFor(RunPlayer(t, c, cfg, player, up, now).t, puuid, cfg, later) == Window(now, later, Min(cfg.MaxMatchesPerPlayer(), 100))
  {
    PlayerCheckpoint(t, c, cfg, player, up, now);
  }

  /** A player's run keeps the stored rows, counts what it adds, and keeps the
      store consistent, whether it succeeds or raises. */
  lemma PlayerCounts(t: Tables, c: Counters, cfg: Cfg, player: PlayerCfg, up: Upstream, now: int)
    requires t.Consistent()
    ensures var q := RunPlayer(t, c, cfg, player, up, now);
      q.t.Consistent() && KeepsRows(t, q.t) && CountsRows(Progress(t, c, true), q)
  {
    match Resolve(cfg, player, up)
    case None =>
    case Some(r) =>
      var t1 := t.WithPlayer(r.puuid, PlayerRow(r.riotId, r.platform, r.routing));
      var w := WindowFor(t1, r.puuid, cfg, now);
      match up.matchIds(r.puuid, r.routing, w.start, w.end, w.count)
      case Failure(_) =>
        ConsistentSameRows(t, t1);
        KeepsSameRows(t, t, t, t1);
      case Success(ids) =>
        var enabled := EnabledQueueIds(cfg, player);
        var q := RunMatches(Progress(t1, c, true), r.puuid, r.routing, enabled, up, ids);
        var fin := if !q.ok then q else Progress(q.t.WithCheckpoint(r.puuid, w.end), q.c, true);
        assert RunPlayer(t, c, cfg, player, up, now) == fin;
        ConsistentSameRows(t, t1);
        RunMatchesKeepsRows(Progress(t1, c, true), r.puuid, r.routing, enabled, up, ids);
        RunMatchesCounts(Progress(t1, c, true), r.puuid, r.routing, enabled, up, ids);
        ConsistentSameRows(q.t, fin.t);
        KeepsSameRows(t1, t, q.t, fin.t);
  }

  /** Consistency depends on the match and stat tables only. */
  lemma ConsistentSameRows(a: Tables, b: Tables)
    requires a.Consistent() && b.matches == a.matches && b.stats == a.stats
    ensures b.Consistent()
  {
  }

  /** So does keeping rows. */
  lemma KeepsSameRows(a: Tables, a2: Tables, b: Tables, b2: Tables)
    requires KeepsRows(a, b)
    requires a2.matches == a.matches && a2.stats == a.stats && b2.matches == b.matches && b2.stats == b.stats
    ensures KeepsRows(a2, b2)
  {
  }

  /** The whole run: rows are only added, the store stays consistent, and the
      returned counters are exactly the numbers of match and stat rows added. */
  lemma {:induction false} RunAllCounts(t: Tables, c: Counters, cfg: Cfg, players: seq<PlayerCfg>, up: Upstream, now: int)
    requires t.Consistent()
    ensures var q := RunAll(t, c, cfg, players, up, now);
      q.t.Consistent() && KeepsRows(t, q.t) && CountsRows(Progress(t, c, true), q)
    decreases |players|
  {
    if players != [] {
      var prefix := players[..|players| - 1];
      RunAllCounts(t, c, cfg, prefix, up, now);
      var q := RunAll(t, c, cfg, prefix, up, now);
      PlayerCounts(q.t, q.c, cfg, players[|players| - 1], up, now);
    }
  }

  lemma IngestCounts(t: Tables, cfg: Cfg, up: Upstream, now: int)
    requires t.Consistent()
    ensures var q := RunIngest(t, cfg, up, now);
      && q.t.Consistent() && KeepsRows(t, q.t)
      && |q.t.matches| == |t.matches| + q.c.newMatches
      && |q.t.stats| == |t.stats| + q.c.newPlayerRows
  {
    RunAllCounts(t, Counters(0, 0, 0), cfg, cfg.players, up, now);
  }

  /** A match id is settled in `t` when processing it again writes nothing:
      both rows are present, or the match is skipped by queue, or it is known
      and yields no stat row. */
  ghost predicate Settled(t: Tables, puuid: string, routing: string, enabled: set<int>, up: Upstream, id: string) {
    || (id in t.matches && (puuid, id) in t.stats)
    || (up.matchJson(routing, id).Success? &&
        var m := up.matchJson(routing, id).value;
        !Accepted(m, enabled) || (id in t.matches && StatRowOf(puuid, id, m).None?))
  }

  lemma SettledStep(p: Progress, puuid: string, routing: string, enabled: set<int>, up: Upstream, id: string)
    requires p.ok && Settled(p.t, puuid, routing, enabled, up, id)
    ensures StepMatch(p, puuid, routing, enabled, up, id).t == p.t
    ensures StepMatch(p, puuid, routing, enabled, up, id).ok
  {
  }

  lemma StepSettles(p: Progress, puuid: string, routing: string, enabled: set<int>, up: Upstream, id: string)
    requires StepMatch(p, puuid, routing, enabled, up, id).ok
    ensures Settled(StepMatch(p, puuid, routing, enabled, up, id).t, puuid, routing, enabled, up, id)
  {
  }

  lemma SettledKept(t1: Tables, t2: Tables, puuid: string, routing: string, enabled: set<int>, up: Upstream, id: string)
    requires Settled(t1, puuid, routing, enabled, up, id) && KeepsRows(t1, t2)
    ensures Settled(t2, puuid, routing, enabled, up, id)
  {
  }

  lemma {:induction false} RunMatchesSettles(p: Progress, puuid: string, routing: string, enabled: set<int>,
                                             up: Upstream, ids: seq<string>)
    requires RunMatches(p, puuid, routing, enabled, up, ids).ok
    ensures forall id :: id in ids ==> Settled(RunMatches(p, puuid, routing, enabled, up, ids).t, puuid, routing, enabled, up, id)
    decreases |ids|
  {
    if ids != [] {
      var prefix := ids[..|ids| - 1];
      var last := ids[|ids| - 1];
      var q := RunMatches(p, puuid, routing, enabled, up, prefix);
      RunMatchesSettles(p, puuid, routing, enabled, up, prefix);
      var r := StepMatch(q, puuid, routing, enabled, up, last);
      StepKeepsRows(q, puuid, routing, enabled, up, last);
      StepSettles(q, puuid, routing, enabled, up, last);
      forall id | id in ids
        ensures Settled(r.t, puuid, routing, enabled, up, id)
      {
        if id != last {
          assert id in prefix;
          SettledKept(q.t, r.t, puuid, routing, enabled, up, id);
        }
      }
    }
  }

  lemma {:induction false} RunSettledIds(p: Progress, puuid: string, routing: string, enabled: set<int>,
                                         up: Upstream, ids: seq<string>)
    requires p.ok
    requires forall id :: id in ids ==> Settled(p.t, puuid, routing, enabled, up, id)
    ensures RunMatches(p, puuid, routing, enabled, up, ids).t == p.t
    ensures RunMatches(p, puuid, routing, enabled, up, ids).ok
    decreases |ids|
  {
    if ids != [] {
      var prefix := ids[..|ids| - 1];
      assert forall id :: id in prefix ==> id in ids;
      RunSettledIds(p, puuid, routing, enabled, up, prefix);
      var q := RunMatches(p, puuid, routing, enabled, up, prefix);
      SettledStep(q, puuid, routing, enabled, up, ids[|ids| - 1]);
    }
  }

  /** Idempotence: re-running a successful match loop over the same ids, with
      the same upstream answers, leaves the tables as they are. */
  lemma MatchLoopIdempotent(p: Progress, puuid: string, routing: string, enabled: set<int>,
                            up: Upstream, ids: seq<string>, c: Counters)
    requires RunMatches(p, puuid, routing, enabled, up, ids).ok
    ensures var t := RunMatches(p, puuid, routing, enabled, up, ids).t;
      RunMatches(Progress(t, c, true), puuid, routing, enabled, up, ids).t == t
  {
    RunMatchesSettles(p, puuid, routing, enabled, up, ids);
    var t := RunMatches(p, puuid, routing, enabled, up, ids).t;
    RunSettledIds(Progress(t, c, true), puuid, routing, enabled, up, ids);
  }
}
