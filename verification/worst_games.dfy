/** inspect_worst_games.py: each player's all-time worst stored game and the
    "Hall of Shame" embeds built from them. */
module WorstGames {
  import opened Common
  import opened Text
  import opened Order
  import opened Payload
  import opened Packing
  import opened WeeklyStats

  /** A row of the player's that is not a 0/0/0 game; no queue or time filter. */
  predicate Eligible(puuid: string, s: StatRow) {
    s.puuid == puuid && !(s.kills == 0 && s.deaths == 0 && s.assists == 0)
  }

  /** The `kda` column of the query: `k + a` without deaths, else `(k + a) / d`. */
  function GameKda(s: StatRow): (r: real)
    ensures r == KdaRatio(s.kills, s.deaths, s.assists)
  {
    if s.deaths == 0 then (s.kills + s.assists) as real else (s.kills + s.assists) as real / s.deaths as real
  }

  /** `ORDER BY kda ASC, deaths DESC, kills + assists ASC`. */
  function ShameKey(s: StatRow): seq<real> {
    [GameKda(s), -(s.deaths as real), (s.kills + s.assists) as real]
  }

  /** `a` is at least as bad a game as `b`: lower KDA, then more deaths, then
      fewer kills plus assists. */
  predicate NoBetterThan(a: StatRow, b: StatRow) {
    || GameKda(a) < GameKda(b)
    || (GameKda(a) == GameKda(b) && (a.deaths > b.deaths || (a.deaths == b.deaths && a.kills + a.assists <= b.kills + b.assists)))
  }

  lemma ShameKeyMeaning(a: StatRow, b: StatRow)
    ensures LexLe(ShameKey(a), ShameKey(b)) <==> NoBetterThan(a, b)
  {
    LexLeTriple(GameKda(a), -(a.deaths as real), (a.kills + a.assists) as real,
                GameKda(b), -(b.deaths as real), (b.kills + b.assists) as real);
  }

  /** `worst_game_for_player`: the first row in table order among the least
      by `ShameKey` (SQLite leaves the order of full ties open). */
  function WorstGameFor(stats: seq<StatRow>, puuid: string): (r: Option<StatRow>)
    ensures r.None? <==> forall i :: 0 <= i < |stats| ==> !Eligible(puuid, stats[i])
    ensures r.Some? ==> r.value in stats && Eligible(puuid, r.value)
    ensures r.Some? ==> forall i :: 0 <= i < |stats| && Eligible(puuid, stats[i]) ==> NoBetterThan(r.value, stats[i])
  {
    var rows := Filter(stats, (s: StatRow) => Eligible(puuid, s));
    if rows == [] then None
    else
      var k := ArgMinFirst(rows, ShameKey);
      forall i | 0 <= i < |stats| && Eligible(puuid, stats[i])
        ensures NoBetterThan(rows[k], stats[i])
      {
        var j :| 0 <= j < |rows| && rows[j] == stats[i];
        ShameKeyMeaning(rows[k], rows[j]);
      }
      Some(rows[k])
  }

  /** A 0/0/0 game is never shown, even when it is the player's only game. */
  lemma ZeroGameNeverShown(s: StatRow)
    requires s.kills == 0 && s.deaths == 0 && s.assists == 0
    ensures WorstGameFor([s], s.puuid) == None
  {
  }

  /** The facts a line shows about the selected row: champion ("Unknown"
      when NULL or empty), K/D/A, KDA, result, match, queue and start. */
  datatype ShownGame = ShownGame(
    matchId: string, champion: string, kills: int, deaths: int, assists: int,
    kda: real, win: bool, queueId: Option<int>, gameStartTs: int)

  function ShownGameOf(s: StatRow): (g: ShownGame)
    ensures g.champion == "Unknown" <==> s.championName.None? || s.championName.value in {"", "Unknown"}
    ensures g.champion != "Unknown" ==> s.championName == Some(g.champion)
    ensures g.kda == KdaRatio(s.kills, s.deaths, s.assists) && (g.win <==> s.win != 0)
  {
    var champion := if s.championName.Some? && s.championName.value != "" then s.championName.value else "Unknown";
    ShownGame(s.matchId, champion, s.kills, s.deaths, s.assists,
              GameKda(s), s.win != 0, s.queueId, s.gameStartTs)
  }

  /** The line of one player; `render` stands for the f-string of a game. */
  function ShameLine(db: WeekDb, p: Player, render: ShownGame -> string): string {
    var body := match WorstGameFor(db.stats, p.puuid)
      case None => "No games recorded."
      case Some(s) => render(ShownGameOf(s));
    "**" + p.riotId + "**\n" + body + "\n"
  }

  /** The loop that builds `lines`. */
  method CollectLines(db: WeekDb, render: ShownGame -> string) returns (lines: seq<string>)
    ensures lines == Map(db.players, (p: Player) => ShameLine(db, p, render))
  {
    lines := [];
    var i := 0;
    while i < |db.players|
      invariant i <= |db.players|
      invariant lines == Map(db.players[..i], (p: Player) => ShameLine(db, p, render))
    {
      MapSnoc(db.players, (p: Player) => ShameLine(db, p, render), i);
      lines := lines + [ShameLine(db, db.players[i], render)];
      i := i + 1;
    }
    assert db.players[..i] == db.players;
  }

  /** Written as two literals: the verifier reads the characters of short
      literals only. */
  const Header := "All-time worst stored" + " game per player (lowest KDA)."
  const Divider := "```─────────────────── ❖ ───────────────────```"
  /** `MAX_DESC`: compared with the chunk alone. */
  const MaxDesc := 3500

  /** `f"{header}\n{divider}\n{chunk}".strip()`. */
  function Description(chunk: string): (d: string)
    ensures |d| <= |Header| + |Divider| + 2 + |chunk|
  {
    var full := Header + "\n" + Divider + "\n" + chunk;
    var d := Strip(full);
    assert |d| <= |full|;
    d
  }

  /** The header and divider are not counted against `MAX_DESC`: a full
      chunk of non-space text gives a description longer than the limit. */
  lemma DescriptionCanExceedLimit(chunk: string)
    requires |chunk| == MaxDesc && forall i :: 0 <= i < |chunk| ==> !IsSpace(chunk[i])
    ensures |Description(chunk)| > MaxDesc
  {
    var full := Header + "\n" + Divider + "\n" + chunk;
    assert Header[0] == "All-time worst stored"[0] == 'A';
    assert full[0] == Header[0];
    assert full[|full| - 1] == chunk[|chunk| - 1];
    StripUntrimmed(full);
  }

  /** One "Hall of Shame" embed. */
  datatype ShameEmbed = ShameEmbed(part: nat, description: string)

  function ShameEmbeds(chunks: seq<string>): (es: seq<ShameEmbed>)
    ensures |es| == |chunks|
    ensures forall i :: 0 <= i < |chunks| ==> es[i] == ShameEmbed(i + 1, Description(chunks[i]))
  {
    seq(|chunks|, i requires 0 <= i < |chunks| => ShameEmbed(i + 1, Description(chunks[i])))
  }

  /** `entry = entry + "\n"`. */
  function ShameEntries(lines: seq<string>): (es: seq<string>)
    ensures |es| == |lines|
    ensures forall i :: 0 <= i < |lines| ==> es[i] == lines[i] + "\n"
  {
    Map(lines, (l: string) => l + "\n")
  }

  lemma EntriesNotBlank(db: WeekDb, render: ShownGame -> string)
    ensures var es := ShameEntries(Map(db.players, (p: Player) => ShameLine(db, p, render)));
      forall i :: 0 <= i < |es| ==> !IsBlank(es[i])
  {
    var es := ShameEntries(Map(db.players, (p: Player) => ShameLine(db, p, render)));
    forall i | 0 <= i < |es|
      ensures !IsBlank(es[i])
    {
      assert es[i][0] == '*';
    }
  }

  datatype ShameError = NoPlayers

  /** `main` after the connection is open: an error for an empty roster, else
      the batches of embeds to post. */
  method HallOfShame(db: WeekDb, render: ShownGame -> string)
      returns (r: Result<seq<seq<ShameEmbed>>, ShameError>, chunks: seq<string>)
    ensures r.Failure? <==> db.players == []
    ensures r.Success? ==>
      var entries := ShameEntries(Map(db.players, (p: Player) => ShameLine(db, p, render)));
      && chunks == PackChunks(entries, MaxDesc)
      // every player's line is in exactly one chunk, in roster order
      && Concat(chunks) == Concat(entries)
      && Flatten(r.value) == ShameEmbeds(chunks)
      && (forall b :: b in r.value ==> 0 < |b| <= 10)
      && (forall i :: 0 <= i < |r.value| - 1 ==> |r.value[i]| == 10)
  {
    if db.players == [] {
      return Failure(NoPlayers), [];
    }
    var lines := CollectLines(db, render);
    var entries := ShameEntries(lines);
    EntriesNotBlank(db, render);
    ghost var cuts;
    chunks, cuts := PackEntries(entries, MaxDesc);
    NothingDropped(entries, MaxDesc, chunks, cuts);
    var batches := Batches(ShameEmbeds(chunks), 10);
    r := Success(batches);
  }
}
