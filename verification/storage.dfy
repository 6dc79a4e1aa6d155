/** The four tables the ingester writes, as maps keyed by their primary keys,
    and the SQL helpers of ingest.py over them. `Tables` is the value the
    specifications talk about; `Database` is the connection whose fields the
    helpers update in place. Every `with conn:` block is one atomic update. */
module Storage {
  import opened Common
  import opened Payload

  /** A row of `players` (`added_at` is not modelled). */
  datatype PlayerRow = PlayerRow(riotId: string, platform: string, routing: string)

  /** The primary key of `player_match_stats`: (puuid, match_id). */
  type StatKey = (string, string)

  datatype Tables = Tables(
    players: map<string, PlayerRow>,
    matches: map<string, MatchRow>,
    stats: map<StatKey, StatRow>,
    checkpoints: map<string, int>)
  {
    /** `upsert_player`: insert, or overwrite riot_id/platform/routing of the
        existing row with that puuid. */
    function WithPlayer(puuid: string, row: PlayerRow): (t: Tables)
      ensures puuid in t.players && t.players[puuid] == row
      ensures forall p :: p != puuid ==> (p in t.players <==> p in players)
      ensures forall p :: p != puuid && p in players ==> t.players[p] == players[p]
      ensures t.matches == matches && t.stats == stats && t.checkpoints == checkpoints
    {
      this.(players := players[puuid := row])
    }

    /** `INSERT OR IGNORE INTO matches`: an existing row is never changed. */
    function WithMatch(row: MatchRow): (t: Tables)
      ensures row.matchId in t.matches
      ensures row.matchId in matches ==> t == this
      ensures row.matchId !in matches ==> t.matches == matches[row.matchId := row]
      ensures t.players == players && t.stats == stats && t.checkpoints == checkpoints
    {
      if row.matchId in matches then this else this.(matches := matches[row.matchId := row])
    }

    /** `INSERT OR IGNORE INTO player_match_stats`. */
    function WithStat(row: StatRow): (t: Tables)
      ensures (row.puuid, row.matchId) in t.stats
      ensures (row.puuid, row.matchId) in stats ==> t == this
      ensures (row.puuid, row.matchId) !in stats ==> t.stats == stats[(row.puuid, row.matchId) := row]
      ensures t.players == players && t.matches == matches && t.checkpoints == checkpoints
    {
      var key := (row.puuid, row.matchId);
      if key in stats then this else this.(stats := stats[key := row])
    }

    /** `set_checkpoint`: insert or overwrite `last_end_time_ts`. */
    function WithCheckpoint(puuid: string, endTs: int): (t: Tables)
      ensures t.checkpoints == checkpoints[puuid := endTs]
      ensures t.players == players && t.matches == matches && t.stats == stats
    {
      this.(checkpoints := checkpoints[puuid := endTs])
    }

    /** `get_checkpoint`. */
    function Checkpoint(puuid: string): (c: Option<int>)
      ensures c.Some? <==> puuid in checkpoints
      ensures c.Some? ==> c.value == checkpoints[puuid]
    {
      if puuid in checkpoints then Some(checkpoints[puuid]) else None
    }

    /** Every row is stored under its own key, and every stat row's match is
        stored (the foreign key of `player_match_stats`). */
    ghost predicate Consistent() {
      && (forall id :: id in matches ==> matches[id].matchId == id)
      && (forall k :: k in stats ==> stats[k].puuid == k.0 && stats[k].matchId == k.1 && k.1 in matches)
    }
  }

  /** `t2` keeps every match and stat row of `t1` unchanged (it may add rows). */
  ghost predicate KeepsRows(t1: Tables, t2: Tables) {
    && (forall id :: id in t1.matches ==> id in t2.matches && t2.matches[id] == t1.matches[id])
    && (forall k :: k in t1.stats ==> k in t2.stats && t2.stats[k] == t1.stats[k])
  }

  /** The SQLite connection: its tables, updated in place. */
  class Database {
    var players: map<string, PlayerRow>
    var matches: map<string, MatchRow>
    var stats: map<StatKey, StatRow>
    var checkpoints: map<string, int>

    function State(): Tables
      reads this
    {
      Tables(players, matches, stats, checkpoints)
    }

    constructor (t: Tables)
      ensures State() == t
    {
      players, matches, stats, checkpoints := t.players, t.matches, t.stats, t.checkpoints;
    }

    method UpsertPlayer(puuid: string, riotId: string, platform: string, routing: string)
      modifies this
      ensures State() == old(State()).WithPlayer(puuid, PlayerRow(riotId, platform, routing))
    {
      players := players[puuid := PlayerRow(riotId, platform, routing)];
    }

    method GetCheckpoint(puuid: string) returns (c: Option<int>)
      ensures c == State().Checkpoint(puuid)
    {
      c := if puuid in checkpoints then Some(checkpoints[puuid]) else None;
    }

    method SetCheckpoint(puuid: string, endTs: int)
      modifies this
      ensures State() == old(State()).WithCheckpoint(puuid, endTs)
    {
      checkpoints := checkpoints[puuid := endTs];
    }

    method MatchExists(matchId: string) returns (b: bool)
      ensures b <==> matchId in State().matches
    {
      b := matchId in matches;
    }

    /** The `SELECT 1 FROM player_match_stats WHERE puuid=? AND match_id=?` probe. */
    method StatExists(puuid: string, matchId: string) returns (b: bool)
      ensures b <==> (puuid, matchId) in State().stats
    {
      b := (puuid, matchId) in stats;
    }

    method InsertMatchRow(matchId: string, routing: string, m: MatchPayload)
      modifies this
      ensures State() == old(State()).WithMatch(MatchRowOf(matchId, routing, m))
    {
      var row := MatchRowOf(matchId, routing, m);
      if matchId !in matches {
        matches := matches[matchId := row];
      }
    }

    /** Returns True when it issued the insert, even if the insert was ignored. */
    method InsertPlayerMatchStats(puuid: string, matchId: string, m: MatchPayload) returns (inserted: bool)
      modifies this
      ensures inserted <==> StatRowOf(puuid, matchId, m).Some?
      ensures State() == if inserted then old(State()).WithStat(StatRowOf(puuid, matchId, m).value) else old(State())
    {
      var row := StatRowOf(puuid, matchId, m);
      if row.None? {
        return false;
      }
      if (puuid, matchId) !in stats {
        stats := stats[(puuid, matchId) := row.value];
      }
      inserted := true;
    }
  }
}
