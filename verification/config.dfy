/** The parsed configuration the ingester and the report read, and the small
    pure helpers of ingest.py over it: splitting a Riot ID, looking up a
    platform's routing value and choosing the enabled queue ids of a player. */
module Config {
  import opened Common

  /** One entry of `riot.enabled_queues` (the dict's values, in order). */
  datatype QueueCfg = QueueCfg(id: int, labelText: Option<string>)

  /** One entry of `players`. `overrideQueues` holds the values of
      `overrides.enabled_queues`, empty when that key is absent. */
  datatype PlayerCfg = PlayerCfg(riotId: Option<string>, platform: Option<string>, overrideQueues: seq<QueueCfg>)

  /** `riot.regions` maps a platform to its entry, whose `routing` key may be
      missing; `app.lookback_days` and `app.max_matches_per_player` are optional. */
  datatype Cfg = Cfg(
    regions: map<string, Option<string>>,
    enabledQueues: seq<QueueCfg>,
    players: seq<PlayerCfg>,
    lookbackDays: Option<int>,
    maxMatchesPerPlayer: Option<int>)
  {
    function LookbackDays(): int {
      lookbackDays.GetOr(7)
    }

    function MaxMatchesPerPlayer(): int {
      maxMatchesPerPlayer.GetOr(70)
    }
  }

  /** A look-back of `d` days spans `d * SecondsPerDay` seconds. */
  const SecondsPerDay := 24 * 60 * 60

  /** The ways the helpers below raise. */
  datatype ConfigError =
    | NoHashInRiotId        // ValueError in parse_riot_id
    | PlatformMissing       // KeyError on p["platform"]
    | UnknownPlatform       // KeyError raised by routing_for_platform
    | RoutingMissing        // KeyError on regions[platform]["routing"]

  /** Index of the first occurrence of `c` in `s`. */
  function FirstIndex(s: string, c: char): (r: Option<nat>)
    ensures r.None? <==> c !in s
    ensures r.Some? ==> r.value < |s| && s[r.value] == c && c !in s[..r.value]
    decreases |s|
  {
    if s == [] then None
    else if s[0] == c then Some(0)
    else
      var r := FirstIndex(s[1..], c);
      if r.None? then None
      else
        assert s[..r.value + 1] == [s[0]] + s[1..][..r.value];
        Some(r.value + 1)
  }

  /** `riot_id.split("#", 1)` after the check that a `#` is present. */
  function ParseRiotId(riotId: string): (r: Result<(string, string), ConfigError>)
    ensures r.Failure? <==> '#' !in riotId
    ensures r.Failure? ==> r.error == NoHashInRiotId
    ensures r.Success? ==> '#' !in r.value.0 && r.value.0 + "#" + r.value.1 == riotId
  {
    match FirstIndex(riotId, '#')
    case None => Failure(NoHashInRiotId)
    case Some(i) =>
      assert riotId == riotId[..i] + "#" + riotId[i + 1..];
      Success((riotId[..i], riotId[i + 1..]))
  }

  /** The split is unique: any name without `#` and any tag that rebuild the
      input are the ones returned. */
  lemma ParseRiotIdUnique(name: string, tag: string)
    requires '#' !in name
    ensures ParseRiotId(name + "#" + tag) == Success((name, tag))
  {
    var s := name + "#" + tag;
    assert s[|name|] == '#';
    assert s[..|name|] == name && s[|name| + 1..] == tag;
  }

  /** `routing_for_platform`: the routing value of a configured platform. */
  function RoutingForPlatform(regions: map<string, Option<string>>, platform: string): (r: Result<string, ConfigError>)
    ensures r.Success? <==> platform in regions && regions[platform].Some?
    ensures r.Success? ==> r.value == regions[platform].value
    ensures platform !in regions ==> r == Failure(UnknownPlatform)
  {
    if platform !in regions then Failure(UnknownPlatform)
    else if regions[platform].None? then Failure(RoutingMissing)
    else Success(regions[platform].value)
  }

  /** The ids of a list of queue entries. */
  function QueueIds(queues: seq<QueueCfg>): (r: set<int>)
    ensures forall id :: id in r <==> exists q :: q in queues && q.id == id
    decreases |queues|
  {
    if queues == [] then {}
    else
      var rest := QueueIds(queues[1..]);
      assert forall q :: q in queues[1..] ==> q in queues;
      assert forall q :: q in queues ==> q == queues[0] || q in queues[1..];
      {queues[0].id} + rest
  }

  /** `enabled_queue_ids(cfg, player)`: the player's override list when it is
      present and non-empty, else the global list. */
  function EnabledQueueIds(cfg: Cfg, player: PlayerCfg): (r: set<int>)
    ensures |player.overrideQueues| > 0 ==>
      forall id :: id in r <==> exists q :: q in player.overrideQueues && q.id == id
    ensures |player.overrideQueues| == 0 ==>
      forall id :: id in r <==> exists q :: q in cfg.enabledQueues && q.id == id
  {
    if |player.overrideQueues| > 0 then QueueIds(player.overrideQueues) else QueueIds(cfg.enabledQueues)
  }
}
