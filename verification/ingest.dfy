/** The ingest run of ingest.py (`ingest`, lines 250-343): for every
    configured player, resolve the PUUID, upsert the player, fetch the match
    ids of the window since the last checkpoint, store each new match and
    stat row that passes the queue filter, and advance the checkpoint.

    The Riot endpoints are the functions of an `Upstream`; each already went
    through `riot_get` (see RiotClient), so a call either returns the decoded
    JSON or fails. Any exception stops the current player only: everything
    committed before it stays, its checkpoint is not advanced, and the next
    player is processed. `RunIngest` is the specification; `Ingest` is the
    loop over the connection that is proved to follow it. */
module Ingest {
  import opened Common
  import opened Config
  import opened RiotClient
  import opened Payload
  import opened Storage

  datatype Upstream = Upstream(
    /** account-v1 by Riot ID: (routing, name, tag) to the `puuid` key of the reply. */
    account: (string, string, string) -> Result<Option<string>, FetchError>,
    /** match-v5 ids: (puuid, routing, startTime, endTime, count). */
    matchIds: (string, string, int, int, int) -> Result<seq<string>, FetchError>,
    /** match-v5 match: (routing, match id). */
    matchJson: (string, string) -> Result<MatchPayload, FetchError>)

  /** The three totals `ingest` returns. */
  datatype Counters = Counters(newMatches: nat, newPlayerRows: nat, skippedByQueue: nat)

  /** The store and the totals so far; `ok` is false once an exception ended
      the current player. */
  datatype Progress = Progress(t: Tables, c: Counters, ok: bool)

  /** The fetch window of a player (ingest.py:251-254, 276-285). */
  datatype Window = Window(start: int, end: int, count: int)

  function WindowFor(t: Tables, puuid: string, cfg: Cfg, now: int): (w: Window)
    ensures puuid in t.checkpoints ==> w.start == t.checkpoints[puuid]
    ensures puuid !in t.checkpoints ==> w.start == now - cfg.LookbackDays() * 86400
    ensures w.end == now
    ensures w.count <= 100 && w.count <= cfg.MaxMatchesPerPlayer()
    ensures w.count == 100 || w.count == cfg.MaxMatchesPerPlayer()
  {
    var checkpoint := t.Checkpoint(puuid);
    var start := if checkpoint.Some? then checkpoint.value else now - cfg.LookbackDays() * SecondsPerDay;
    Window(start, now, Min(cfg.MaxMatchesPerPlayer(), 100))
  }

  /** The queue filter: a null queue id passes. */
  predicate Accepted(m: MatchPayload, enabled: set<int>) {
    var q := InfoOf(m).queueId;
    q.None? || q.value in enabled
  }

  /** Store a fetched, accepted match for `puuid`: the match row when it is
      new, then the stat row if one can be derived (one `with conn` block). */
  function Store(p: Progress, puuid: string, routing: string, id: string, m: MatchPayload, newMatch: bool): Progress {
    var t1 := if newMatch then p.t.WithMatch(MatchRowOf(id, routing, m)) else p.t;
    var row := StatRowOf(puuid, id, m);
    var t2 := if row.Some? then t1.WithStat(row.value) else t1;
    var c := p.c.(newMatches := p.c.newMatches + (if newMatch then 1 else 0),
                  newPlayerRows := p.c.newPlayerRows + (if row.Some? then 1 else 0));
    Progress(t2, c, true)
  }

  /** One candidate match id (ingest.py:291-323): a new match, a known match
      without this player's row, or both present. */
  function StepMatch(p: Progress, puuid: string, routing: string, enabled: set<int>, up: Upstream, id: string): Progress {
    if id in p.t.matches && (puuid, id) in p.t.stats then p
    else
      match up.matchJson(routing, id)
      case Failure(_) => p.(ok := false)
      case Success(m) =>
        if !Accepted(m, enabled) then p.(c := p.c.(skippedByQueue := p.c.skippedByQueue + 1))
        else Store(p, puuid, routing, id, m, id !in p.t.matches)
  }

  /** The match loop over `ids`, stopping at the first exception. */
  function RunMatches(p: Progress, puuid: string, routing: string, enabled: set<int>, up: Upstream, ids: seq<string>): Progress
    decreases |ids|
  {
    if ids == [] then p
    else
      var q := RunMatches(p, puuid, routing, enabled, up, ids[..|ids| - 1]);
      if !q.ok then q else StepMatch(q, puuid, routing, enabled, up, ids[|ids| - 1])
  }

  /** The PUUID `get_puuid` resolves for a configured player, with the
      routing value and the Riot ID it used; None when a step before the
      upsert raises. */
  datatype Resolved = Resolved(puuid: string, riotId: string, platform: string, routing: string)

  function Resolve(cfg: Cfg, player: PlayerCfg, up: Upstream): Option<Resolved> {
    var riotId := player.riotId.GetOr("?");
    if player.platform.None? then None
    else
      var platform := player.platform.value;
      match RoutingForPlatform(cfg.regions, platform)
      case Failure(_) => None
      case Success(routing) =>
        match ParseRiotId(riotId)
        case Failure(_) => None
        case Success(parts) =>
          match up.account(routing, parts.0, parts.1)
          case Failure(_) => None
          case Success(puuid) =>
            if puuid.None? then None else Some(Resolved(puuid.value, riotId, platform, routing))
  }

  /** One player of the loop at ingest.py:262-337. */
  function RunPlayer(t: Tables, c: Counters, cfg: Cfg, player: PlayerCfg, up: Upstream, now: int): Progress {
    match Resolve(cfg, player, up)
    case None => Progress(t, c, false)
    case Some(r) =>
      var t1 := t.WithPlayer(r.puuid, PlayerRow(r.riotId, r.platform, r.routing));
      var w := WindowFor(t1, r.puuid, cfg, now);
      match up.matchIds(r.puuid, r.routing, w.start, w.end, w.count)
      case Failure(_) => Progress(t1, c, false)
      case Success(ids) =>
        var q := RunMatches(Progress(t1, c, true), r.puuid, r.routing, EnabledQueueIds(cfg, player), up, ids);
        if !q.ok then q else Progress(q.t.WithCheckpoint(r.puuid, w.end), q.c, true)
  }

  /** All players in order; a failed player does not stop the others. */
  function RunAll(t: Tables, c: Counters, cfg: Cfg, players: seq<PlayerCfg>, up: Upstream, now: int): Progress
    decreases |players|
  {
    if players == [] then Progress(t, c, true)
    else
      var q := RunAll(t, c, cfg, players[..|players| - 1], up, now);
      var r := RunPlayer(q.t, q.c, cfg, players[|players| - 1], up, now);
      Progress(r.t, r.c, true)
  }

  /** `ingest(cfg, conn, api_key)` with the clock read as `now`. */
  function RunIngest(t: Tables, cfg: Cfg, up: Upstream, now: int): Progress {
    RunAll(t, Counters(0, 0, 0), cfg, cfg.players, up, now)
  }

  /** Once a player's match loop failed, later ids are not looked at. */
  lemma {:induction false} FailureSticks(p: Progress, puuid: string, routing: string, enabled: set<int>, up: Upstream,
                                         ids: seq<string>, i: nat)
    requires i <= |ids| && !RunMatches(p, puuid, routing, enabled, up, ids[..i]).ok
    ensures RunMatches(p, puuid, routing, enabled, up, ids) == RunMatches(p, puuid, routing, enabled, up, ids[..i])
    decreases |ids| - i
  {
    if i < |ids| {
      assert ids[..i + 1][..i] == ids[..i];
      FailureSticks(p, puuid, routing, enabled, up, ids, i + 1);
    } else {
      assert ids[..i] == ids;
    }
  }

  /** The player step on the connection. */
  method IngestPlayer(db: Database, cfg: Cfg, player: PlayerCfg, up: Upstream, now: int, c0: Counters)
      returns (c: Counters, ok: bool)
    modifies db
    ensures Progress(db.State(), c, ok) == RunPlayer(old(db.State()), c0, cfg, player, up, now)
  {
    c := c0;
    var riotId := player.riotId.GetOr("?");
    if player.platform.None? {
      return c, false;
    }
    var platform := player.platform.value;
    var routing := RoutingForPlatform(cfg.regions, platform);
    if routing.Failure? {
      return c, false;
    }
    var parsed := ParseRiotId(riotId);
    if parsed.Failure? {
      return c, false;
    }
    var account := up.account(routing.value, parsed.value.0, parsed.value.1);
    if account.Failure? || account.value.None? {
      return c, false;
    }
    var puuid := account.value.value;
    db.UpsertPlayer(puuid, riotId, platform, routing.value);
    ghost var t1 := db.State();

    var checkpoint := db.GetCheckpoint(puuid);
    var startTime := if checkpoint.Some? then checkpoint.value else now - cfg.LookbackDays() * SecondsPerDay;
    var endTime := now;
    var fetchedIds := up.matchIds(puuid, routing.value, startTime, endTime, Min(cfg.MaxMatchesPerPlayer(), 100));
    if fetchedIds.Failure? {
      return c, false;
    }
    var ids := fetchedIds.value;
    var enabled := EnabledQueueIds(cfg, player);
    c, ok := IngestMatches(db, puuid, routing.value, enabled, up, ids, c);
    if !ok {
      return c, false;
    }
    db.SetCheckpoint(puuid, endTime);
    ok := true;
  }

  /** The match loop at ingest.py:291-323 for one player. */
  method IngestMatches(db: Database, puuid: string, routing: string, enabled: set<int>, up: Upstream,
                       ids: seq<string>, c0: Counters) returns (c: Counters, ok: bool)
    modifies db
    ensures Progress(db.State(), c, ok) == RunMatches(Progress(old(db.State()), c0, true), puuid, routing, enabled, up, ids)
  {
    ghost var t0 := db.State();
    c := c0;
    var i := 0;
    while i < |ids|
      invariant i <= |ids|
      invariant Progress(db.State(), c, true) == RunMatches(Progress(t0, c0, true), puuid, routing, enabled, up, ids[..i])
    {
      assert ids[..i + 1][..i] == ids[..i];
      c, ok := IngestMatch(db, puuid, routing, enabled, up, ids[i], c);
      if !ok {
        FailureSticks(Progress(t0, c0, true), puuid, routing, enabled, up, ids, i + 1);
        return c, false;
      }
      i := i + 1;
    }
    assert ids[..i] == ids;
    ok := true;
  }

  /** One candidate match id: the three-way dedup decision. */
  method IngestMatch(db: Database, puuid: string, routing: string, enabled: set<int>, up: Upstream,
                     id: string, c0: Counters) returns (c: Counters, ok: bool)
    modifies db
    ensures Progress(db.State(), c, ok) == StepMatch(Progress(old(db.State()), c0, true), puuid, routing, enabled, up, id)
  {
    c := c0;
    var known := db.MatchExists(id);
    if known {
      var hasRow := db.StatExists(puuid, id);
      if hasRow {
        return c, true;
      }
    }
    var fetched := up.matchJson(routing, id);
    if fetched.Failure? {
      return c, false;
    }
    var m := fetched.value;
    var queueId := InfoOf(m).queueId;
    if queueId.Some? && queueId.value !in enabled {
      return c.(skippedByQueue := c.skippedByQueue + 1), true;
    }
    if !known {
      db.InsertMatchRow(id, routing, m);
    }
    var inserted := db.InsertPlayerMatchStats(puuid, id, m);
    c := c.(newMatches := c.newMatches + (if known then 0 else 1),
            newPlayerRows := c.newPlayerRows + (if inserted then 1 else 0));
    ok := true;
  }

  /** `ingest`: every configured player in order, summing the counters. */
  method Ingest(db: Database, cfg: Cfg, up: Upstream, now: int) returns (c: Counters)
    modifies db
    ensures Progress(db.State(), c, true) == RunIngest(old(db.State()), cfg, up, now)
  {
    c := Counters(0, 0, 0);
    ghost var t0 := db.State();
    var players := cfg.players;
    var i := 0;
    while i < |players|
      invariant i <= |players|
      invariant Progress(db.State(), c, true) == RunAll(t0, Counters(0, 0, 0), cfg, players[..i], up, now)
    {
      assert players[..i + 1][..i] == players[..i];
      var ok;
      c, ok := IngestPlayer(db, cfg, players[i], up, now, c);
      i := i + 1;
    }
    assert players[..i] == players;
  }
}
