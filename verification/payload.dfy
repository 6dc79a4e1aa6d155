/** The Match-v5 JSON the ingester reads and the table rows it derives from
    it (`find_participant`, `insert_match_row`, `insert_player_match_stats`
    in ingest.py). A JSON key that may be absent is an `Option`; numbers are
    integers. */
module Payload {
  import opened Common

  /** One entry of `info.participants`. */
  datatype Participant = Participant(
    puuid: Option<string>,
    win: Option<bool>,
    teamId: Option<int>,
    role: Option<string>,
    lane: Option<string>,
    teamPosition: Option<string>,
    championId: Option<int>,
    championName: Option<string>,
    kills: Option<int>,
    deaths: Option<int>,
    assists: Option<int>,
    totalMinionsKilled: Option<int>,
    neutralMinionsKilled: Option<int>,
    goldEarned: Option<int>,
    goldSpent: Option<int>,
    totalDamageDealtToChampions: Option<int>,
    totalDamageTaken: Option<int>,
    visionScore: Option<int>,
    wardsPlaced: Option<int>,
    wardsKilled: Option<int>,
    turretKills: Option<int>,
    totalTimeSpentDead: Option<int>)

  /** The `info` object; `participants` may be absent. */
  datatype MatchInfo = MatchInfo(
    queueId: Option<int>,
    gameStartTimestamp: Option<int>,
    gameDuration: Option<int>,
    gameMode: Option<string>,
    gameType: Option<string>,
    mapId: Option<int>,
    participants: Option<seq<Participant>>)

  /** A match document; `info` may be absent. */
  datatype MatchPayload = MatchPayload(info: Option<MatchInfo>)

  /** A row of `matches` (`ingested_at` is not modelled). */
  datatype MatchRow = MatchRow(
    matchId: string,
    routing: string,
    queueId: Option<int>,
    gameStartTs: Option<int>,
    durationS: Option<int>,
    gameMode: Option<string>,
    gameType: Option<string>,
    mapId: Option<int>)

  /** A row of `player_match_stats`. */
  datatype StatRow = StatRow(
    puuid: string,
    matchId: string,
    win: int,
    teamId: Option<int>,
    role: Option<string>,
    lane: Option<string>,
    position: Option<string>,
    championId: Option<int>,
    championName: Option<string>,
    kills: int,
    deaths: int,
    assists: int,
    cs: int,
    goldEarned: Option<int>,
    goldSpent: Option<int>,
    dmgToChamps: Option<int>,
    dmgTaken: Option<int>,
    visionScore: Option<int>,
    wardsPlaced: Option<int>,
    wardsKilled: Option<int>,
    turretKills: Option<int>,
    timeDeadS: Option<int>,
    gameStartTs: int,
    queueId: Option<int>)

  /** `match_json.get("info", {})`: a missing `info` reads as an empty object. */
  function InfoOf(m: MatchPayload): (info: MatchInfo)
    ensures m.info.None? ==> info == MatchInfo(None, None, None, None, None, None, None)
    ensures m.info.Some? ==> info == m.info.value
  {
    m.info.GetOr(MatchInfo(None, None, None, None, None, None, None))
  }

  /** `.get("participants", [])`. */
  function ParticipantsOf(m: MatchPayload): seq<Participant> {
    InfoOf(m).participants.GetOr([])
  }

  /** Index of the first participant whose `puuid` is `puuid`. */
  function FirstParticipant(ps: seq<Participant>, puuid: string): (r: Option<nat>)
    ensures r.None? <==> forall i :: 0 <= i < |ps| ==> ps[i].puuid != Some(puuid)
    ensures r.Some? ==> r.value < |ps| && ps[r.value].puuid == Some(puuid)
    ensures r.Some? ==> forall i :: 0 <= i < r.value ==> ps[i].puuid != Some(puuid)
    decreases |ps|
  {
    if ps == [] then None
    else if ps[0].puuid == Some(puuid) then Some(0)
    else
      var r := FirstParticipant(ps[1..], puuid);
      if r.None? then None else Some(r.value + 1)
  }

  /** `find_participant(match_json, puuid)`. */
  function FindParticipant(m: MatchPayload, puuid: string): (r: Option<Participant>)
    ensures r.None? <==> forall p :: p in ParticipantsOf(m) ==> p.puuid != Some(puuid)
    ensures r.Some? ==> r.value.puuid == Some(puuid) && r.value in ParticipantsOf(m)
  {
    var ps := ParticipantsOf(m);
    match FirstParticipant(ps, puuid)
    case None => None
    case Some(i) => Some(ps[i])
  }

  /** Python's `int(x)` of a float: truncation toward zero. */
  function TruncDiv(a: int, b: int): (q: int)
    requires b > 0
    ensures a >= 0 ==> 0 <= a - b * q < b
    ensures a < 0 ==> -b < a - b * q <= 0
  {
    if a >= 0 then a / b else -((-a) / b)
  }

  /** `int(game_start_ms / 1000)`, or NULL when the timestamp is absent. */
  function StartSeconds(info: MatchInfo): (ts: Option<int>)
    ensures ts.Some? <==> info.gameStartTimestamp.Some?
    ensures ts.Some? && info.gameStartTimestamp.value >= 0 ==> 0 <= info.gameStartTimestamp.value - 1000 * ts.value < 1000
    ensures ts.Some? && info.gameStartTimestamp.value < 0 ==> -1000 < info.gameStartTimestamp.value - 1000 * ts.value <= 0
  {
    match info.gameStartTimestamp
    case None => None
    case Some(ms) => Some(TruncDiv(ms, 1000))
  }

  /** The row `insert_match_row` writes. */
  function MatchRowOf(matchId: string, routing: string, m: MatchPayload): (row: MatchRow)
    ensures row.matchId == matchId && row.routing == routing
    ensures row.queueId == InfoOf(m).queueId && row.gameStartTs == StartSeconds(InfoOf(m))
    ensures row.durationS == InfoOf(m).gameDuration
    ensures row.gameMode == InfoOf(m).gameMode && row.gameType == InfoOf(m).gameType
    ensures row.mapId == InfoOf(m).mapId
  {
    var info := InfoOf(m);
    MatchRow(matchId, routing, info.queueId, StartSeconds(info), info.gameDuration,
             info.gameMode, info.gameType, info.mapId)
  }

  /** The row `insert_player_match_stats` writes, or None when it returns
      False without writing: no participant with that puuid, or no start
      timestamp. */
  function StatRowOf(puuid: string, matchId: string, m: MatchPayload): (row: Option<StatRow>)
    ensures row.None? <==> FindParticipant(m, puuid).None? || StartSeconds(InfoOf(m)).None?
    ensures row.Some? ==>
      var p := FindParticipant(m, puuid).value;
      && row.value.puuid == puuid && row.value.matchId == matchId
      && row.value.win == (if p.win == Some(true) then 1 else 0)
      && row.value.kills == p.kills.GetOr(0)
      && row.value.deaths == p.deaths.GetOr(0)
      && row.value.assists == p.assists.GetOr(0)
      && row.value.cs == p.totalMinionsKilled.GetOr(0) + p.neutralMinionsKilled.GetOr(0)
      && row.value.teamId == p.teamId && row.value.role == p.role && row.value.lane == p.lane
      && row.value.position == p.teamPosition
      && row.value.championId == p.championId && row.value.championName == p.championName
      && row.value.goldEarned == p.goldEarned && row.value.goldSpent == p.goldSpent
      && row.value.dmgToChamps == p.totalDamageDealtToChampions
      && row.value.dmgTaken == p.totalDamageTaken
      && row.value.visionScore == p.visionScore
      && row.value.wardsPlaced == p.wardsPlaced && row.value.wardsKilled == p.wardsKilled
      && row.value.turretKills == p.turretKills
      && row.value.timeDeadS == p.totalTimeSpentDead
      && Some(row.value.gameStartTs) == StartSeconds(InfoOf(m))
      && row.value.queueId == InfoOf(m).queueId
  {
    var info := InfoOf(m);
    var part := FindParticipant(m, puuid);
    var ts := StartSeconds(info);
    if part.None? || ts.None? then None
    else
      var p := part.value;
      Some(StatRow(
        puuid, matchId,
        if p.win == Some(true) then 1 else 0,
        p.teamId, p.role, p.lane, p.teamPosition,
        p.championId, p.championName,
        p.kills.GetOr(0), p.deaths.GetOr(0), p.assists.GetOr(0),
        p.totalMinionsKilled.GetOr(0) + p.neutralMinionsKilled.GetOr(0),
        p.goldEarned, p.goldSpent,
        p.totalDamageDealtToChampions, p.totalDamageTaken,
        p.visionScore, p.wardsPlaced, p.wardsKilled, p.turretKills,
        p.totalTimeSpentDead,
        ts.value, info.queueId))
  }

  /** The participant used is the first one with that puuid. */
  lemma FirstParticipantChosen(m: MatchPayload, puuid: string, i: nat)
    requires i < |ParticipantsOf(m)| && ParticipantsOf(m)[i].puuid == Some(puuid)
    requires forall k :: 0 <= k < i ==> ParticipantsOf(m)[k].puuid != Some(puuid)
    ensures FindParticipant(m, puuid) == Some(ParticipantsOf(m)[i])
  {
    var k := FirstParticipant(ParticipantsOf(m), puuid);
    assert k.Some?;
    assert !(k.value < i) && !(i < k.value);
  }
}
