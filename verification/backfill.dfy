/** backlog_deadtime.py: fills the NULL `time_dead_s` cells of last week's
    rows from the match documents, committing every 50 updates. */
module Backfill {
  import opened Common
  import opened Text
  import opened Config
  import opened Payload
  import opened Storage

  /** `LOOKBACK_DAYS`. */
  const BackfillLookbackDays := 7
  /** Updates between two commits. */
  const CommitEvery := 50

  /** A row of the selection: `s.puuid, s.match_id, m.routing`. */
  datatype Pending = Pending(puuid: string, matchId: string, routing: string)

  function KeyOf(r: Pending): StatKey {
    (r.puuid, r.matchId)
  }

  /** The rows of `player_match_stats` the backfill selects at `start`. */
  ghost predicate Wanted(t: Tables, start: int, k: StatKey) {
    k in t.stats && k.1 in t.matches && t.stats[k].gameStartTs >= start && t.stats[k].timeDeadS.None?
  }

  /** `rows` is the result of the selection: the stat rows of the window
      whose `time_dead_s` is NULL, each once, joined with their match's
      routing, newest first (ties in any order). */
  ghost predicate Selected(t: Tables, start: int, rows: seq<Pending>) {
    && (forall i :: 0 <= i < |rows| ==>
          Wanted(t, start, KeyOf(rows[i])) && t.matches[rows[i].matchId].routing == rows[i].routing)
    && (forall i, j :: 0 <= i < |rows| && 0 <= j < |rows| && KeyOf(rows[i]) == KeyOf(rows[j]) ==> i == j)
    && (forall k :: Wanted(t, start, k) ==> exists i :: 0 <= i < |rows| && KeyOf(rows[i]) == k)
    && (forall i, j :: 0 <= i < j < |rows| ==>
          t.stats[KeyOf(rows[i])].gameStartTs >= t.stats[KeyOf(rows[j])].gameStartTs)
  }

  /** What the loop does with one row's match document. */
  datatype Action = Crash | Skip | Fill(seconds: int)

  /** `riot_get` then the participant lookup: an HTTP error (`None`) or a
      document without `info` or `participants` (a `KeyError`) ends the
      run; a missing participant or a missing `totalTimeSpentDead` skips
      the row. */
  function ActionOf(fetched: Option<MatchPayload>, puuid: string): (a: Action)
    ensures a.Crash? <==> fetched.None? || fetched.value.info.None? || fetched.value.info.value.participants.None?
    ensures a.Fill? <==> (
      && fetched.Some? && fetched.value.info.Some? && fetched.value.info.value.participants.Some?
      && FindParticipant(fetched.value, puuid).Some? && FindParticipant(fetched.value, puuid).value.totalTimeSpentDead.Some?)
    ensures a.Skip? ==> (
      && fetched.Some?
      && (FindParticipant(fetched.value, puuid).None? || FindParticipant(fetched.value, puuid).value.totalTimeSpentDead.None?))
    ensures a.Fill? ==> (
      && fetched.Some? && FindParticipant(fetched.value, puuid).Some?
      && FindParticipant(fetched.value, puuid).value.totalTimeSpentDead == Some(a.seconds))
  {
    match fetched
    case None => Crash
    case Some(m) =>
      if m.info.None? || m.info.value.participants.None? then Crash
      else
        match FindParticipant(m, puuid)
        case None => Skip
        case Some(p) =>
          match p.totalTimeSpentDead
          case None => Skip
          case Some(v) => Fill(v)
  }

  /** The state of a run: the connection's rows, the `updated` counter, the
      rows as of the last commit and how many updates it held, and whether
      the run ended early. */
  datatype Run = Run(stats: map<StatKey, StatRow>, updated: nat, committed: map<StatKey, StatRow>, commits: nat, crashed: bool)

  /** The `UPDATE ... WHERE puuid = ? AND match_id = ?`: sets
      `time_dead_s` of row `k`; no row matches when `k` is not stored. */
  function SetTimeDead(stats: map<StatKey, StatRow>, k: StatKey, v: int): (s: map<StatKey, StatRow>)
    ensures s.Keys == stats.Keys
    ensures k in stats ==> s[k] == stats[k].(timeDeadS := Some(v))
    ensures forall k' :: k' in stats && k' != k ==> s[k'] == stats[k']
  {
    if k in stats then stats[k := stats[k].(timeDeadS := Some(v))] else stats
  }

  /** The action the loop takes on a row. */
  function RowAction(row: Pending, fetch: (string, string) -> Option<MatchPayload>): Action {
    ActionOf(fetch(Lower(row.routing), row.matchId), row.puuid)
  }

  /** A row's key with the action its match document calls for. */
  datatype Attempt = Attempt(key: StatKey, action: Action)

  /** The attempts of the loop, one per selected row, in order; `fetch`
      answers the match request for a lower-cased routing and a match id. */
  function Attempts(rows: seq<Pending>, fetch: (string, string) -> Option<MatchPayload>): (ats: seq<Attempt>)
    ensures |ats| == |rows|
    ensures forall i :: 0 <= i < |rows| ==> ats[i] == Attempt(KeyOf(rows[i]), RowAction(rows[i], fetch))
  {
    Map(rows, (row: Pending) => Attempt(KeyOf(row), RowAction(row, fetch)))
  }

  /** One iteration of the loop. */
  function Step(r: Run, at: Attempt): Run {
    if r.crashed then r
    else
      match at.action
      case Crash => r.(crashed := true)
      case Skip => r
      case Fill(v) =>
        var s := SetTimeDead(r.stats, at.key, v);
        var u := r.updated + 1;
        if u % CommitEvery == 0 then Run(s, u, s, u, false) else r.(stats := s, updated := u)
  }

  /** Only a fill changes the connection's rows; the committed rows stay or
      catch up with them. */
  lemma StepStates(r: Run, at: Attempt)
    ensures var r' := Step(r, at);
      && (r'.stats == r.stats || (at.action.Fill? && r'.stats == SetTimeDead(r.stats, at.key, at.action.seconds)))
      && (r'.committed == r.committed || (at.action.Fill? && r'.committed == SetTimeDead(r.stats, at.key, at.action.seconds)))
  {
  }

  /** A step either keeps the last commit or commits its own state. */
  lemma StepCommit(r: Run, at: Attempt)
    ensures var r' := Step(r, at);
      || (r'.committed == r.committed && r'.commits == r.commits)
      || (r'.committed == r'.stats && r'.commits == r'.updated)
  {
  }

  /** The run over a sequence of attempts. */
  function RunAll(stats: map<StatKey, StatRow>, ats: seq<Attempt>): (r: Run)
    ensures r.stats.Keys == stats.Keys && r.committed.Keys == stats.Keys
    decreases |ats|
  {
    if ats == [] then Run(stats, 0, stats, 0, false)
    else Step(RunAll(stats, ats[..|ats| - 1]), ats[|ats| - 1])
  }

  lemma RunAllSnoc(stats: map<StatKey, StatRow>, ats: seq<Attempt>, i: nat)
    requires i < |ats|
    ensures RunAll(stats, ats[..i + 1]) == Step(RunAll(stats, ats[..i]), ats[i])
  {
    assert ats[..i + 1][..i] == ats[..i];
  }

  /** What the database file holds afterwards: everything after the final
      commit, or the last commit when the run ended early. */
  function Outcome(r: Run): map<StatKey, StatRow> {
    if r.crashed then r.committed else r.stats
  }

  /** One row of the loop that does not end the run: the `UPDATE` and,
      every 50 updates, the commit. */
  method ApplyAttempt(db: Database, at: Attempt, ghost r: Run, updated: nat, committed: map<StatKey, StatRow>, commits: nat)
      returns (updated': nat, committed': map<StatKey, StatRow>, commits': nat)
    requires !r.crashed && !at.action.Crash?
    requires db.stats == r.stats && updated == r.updated && committed == r.committed && commits == r.commits
    modifies db
    ensures var r' := Step(r, at);
      && !r'.crashed && db.stats == r'.stats && updated' == r'.updated && committed' == r'.committed && commits' == r'.commits
    ensures db.players == old(db.players) && db.matches == old(db.matches) && db.checkpoints == old(db.checkpoints)
  {
    updated', committed', commits' := updated, committed, commits;
    if at.action.Fill? {
      db.stats := SetTimeDead(db.stats, at.key, at.action.seconds);
      updated' := updated + 1;
      if updated' % CommitEvery == 0 {
        committed' := db.stats;
        commits' := updated';
      }
    }
  }

  /** The script after its selection: walks the rows, updates the
      connection in place and commits every 50 updates and at the end. When
      the run ends early the uncommitted updates are lost, which the method
      shows by restoring the committed rows. */
  method BackfillDeadTime(db: Database, rows: seq<Pending>, fetch: (string, string) -> Option<MatchPayload>)
      returns (updated: nat, crashed: bool)
    modifies db
    ensures var r := RunAll(old(db.stats), Attempts(rows, fetch));
      && db.stats == Outcome(r) && updated == r.updated && crashed == r.crashed
    ensures db.players == old(db.players) && db.matches == old(db.matches) && db.checkpoints == old(db.checkpoints)
  {
    ghost var stats0 := db.stats;
    ghost var ats := Attempts(rows, fetch);
    ghost var run := Run(stats0, 0, stats0, 0, false);
    var committed := db.stats;
    var commits := 0;
    updated := 0;
    var i := 0;
    while i < |rows|
      invariant i <= |rows|
      invariant run == RunAll(stats0, ats[..i]) && !run.crashed
      invariant db.stats == run.stats && updated == run.updated
      invariant committed == run.committed && commits == run.commits
      invariant db.players == old(db.players) && db.matches == old(db.matches) && db.checkpoints == old(db.checkpoints)
    {
      var row := rows[i];
      var action := RowAction(row, fetch);
      assert ats[i] == Attempt(KeyOf(row), action);
      RunAllSnoc(stats0, ats, i);
      if action.Crash? {
        db.stats := committed;
        crashed := true;
        run := Step(run, ats[i]);
        RunStaysCrashed(stats0, ats, i + 1);
        return;
      }
      updated, committed, commits := ApplyAttempt(db, Attempt(KeyOf(row), action), run, updated, committed, commits);
      run := Step(run, ats[i]);
      i := i + 1;
    }
    assert ats[..i] == ats;
    crashed := false;
  }

  /** Once the run has ended early, later rows change nothing. */
  lemma {:induction false} RunStaysCrashed(stats: map<StatKey, StatRow>, ats: seq<Attempt>, i: nat)
    requires i <= |ats| && RunAll(stats, ats[..i]).crashed
    ensures RunAll(stats, ats) == RunAll(stats, ats[..i])
    decreases |ats| - i
  {
    if i < |ats| {
      RunAllSnoc(stats, ats, i);
      RunStaysCrashed(stats, ats, i + 1);
    } else {
      assert ats[..i] == ats;
    }
  }

  /** The keys of the attempts that found a value. */
  function FillKeys(ats: seq<Attempt>): set<StatKey>
    decreases |ats|
  {
    if ats == [] then {}
    else
      var last := ats[|ats| - 1];
      FillKeys(ats[..|ats| - 1]) + (if last.action.Fill? then {last.key} else {})
  }

  lemma {:induction false} FillKeysFrom(ats: seq<Attempt>, k: StatKey)
    ensures k in FillKeys(ats) ==> exists j :: 0 <= j < |ats| && ats[j].key == k && ats[j].action.Fill?
    decreases |ats|
  {
    if ats != [] {
      var n := |ats| - 1;
      FillKeysFrom(ats[..n], k);
      assert forall j :: 0 <= j < n ==> ats[..n][j] == ats[j];
    }
  }

  /** `after` differs from `before` only in `time_dead_s` cells of rows in
      `keys`, each now holding a value. */
  ghost predicate OnlyFilled(before: map<StatKey, StatRow>, after: map<StatKey, StatRow>, keys: set<StatKey>) {
    && after.Keys == before.Keys
    && forall k :: k in before ==>
         || after[k] == before[k]
         || (k in keys && after[k].timeDeadS.Some? && after[k] == before[k].(timeDeadS := after[k].timeDeadS))
  }

  lemma FillKeepsOnlyFilled(before: map<StatKey, StatRow>, after: map<StatKey, StatRow>, keys: set<StatKey>, key: StatKey, v: int)
    requires OnlyFilled(before, after, keys)
    ensures OnlyFilled(before, SetTimeDead(after, key, v), keys + {key})
    ensures OnlyFilled(before, after, keys + {key})
  {
    var s := SetTimeDead(after, key, v);
    forall k | k in before
      ensures || s[k] == before[k]
              || (k in keys + {key} && s[k].timeDeadS.Some? && s[k] == before[k].(timeDeadS := s[k].timeDeadS))
    {
      if k == key {
        assert s[k] == before[k].(timeDeadS := Some(v));
      }
    }
  }

  /** The connection's rows and the committed rows differ from the rows
      before the run only in cells the run filled. */
  lemma {:induction false} RunOnlyFills(stats: map<StatKey, StatRow>, ats: seq<Attempt>)
    ensures OnlyFilled(stats, RunAll(stats, ats).stats, FillKeys(ats))
    ensures OnlyFilled(stats, RunAll(stats, ats).committed, FillKeys(ats))
    decreases |ats|
  {
    if ats != [] {
      var n := |ats| - 1;
      var init := ats[..n];
      RunOnlyFills(stats, init);
      var r := RunAll(stats, init);
      var last := ats[n];
      assert RunAll(stats, ats) == Step(r, last);
      StepStates(r, last);
      var keys := FillKeys(init);
      if last.action.Fill? {
        assert FillKeys(ats) == keys + {last.key};
        FillKeepsOnlyFilled(stats, r.stats, keys, last.key, last.action.seconds);
        FillKeepsOnlyFilled(stats, r.committed, keys, last.key, last.action.seconds);
      } else {
        assert FillKeys(ats) == keys;
      }
    }
  }

  /** Over a selection, the file afterwards differs from before only in
      `time_dead_s` cells of selected rows, each going from NULL to a
      value: rows already filled and rows outside the window are never
      modified, and no row is added or removed. */
  lemma BackfillOnlyFillsNull(t: Tables, now: int, rows: seq<Pending>, fetch: (string, string) -> Option<MatchPayload>)
    requires Selected(t, now - BackfillLookbackDays * SecondsPerDay, rows)
    ensures var out := Outcome(RunAll(t.stats, Attempts(rows, fetch)));
      && out.Keys == t.stats.Keys
      && forall k :: k in t.stats ==>
           || out[k] == t.stats[k]
           || (&& Wanted(t, now - BackfillLookbackDays * SecondsPerDay, k)
               && out[k].timeDeadS.Some?
               && out[k] == t.stats[k].(timeDeadS := out[k].timeDeadS))
  {
    var ats := Attempts(rows, fetch);
    RunOnlyFills(t.stats, ats);
    forall k | k in FillKeys(ats)
      ensures Wanted(t, now - BackfillLookbackDays * SecondsPerDay, k)
    {
      FillKeysFrom(ats, k);
    }
  }

  /** A selected row whose participant or `totalTimeSpentDead` is missing
      stays NULL. */
  lemma SkippedStayNull(t: Tables, now: int, rows: seq<Pending>, fetch: (string, string) -> Option<MatchPayload>, i: nat)
    requires Selected(t, now - BackfillLookbackDays * SecondsPerDay, rows)
    requires i < |rows| && RowAction(rows[i], fetch).Skip?
    ensures KeyOf(rows[i]) in Outcome(RunAll(t.stats, Attempts(rows, fetch)))
    ensures Outcome(RunAll(t.stats, Attempts(rows, fetch)))[KeyOf(rows[i])] == t.stats[KeyOf(rows[i])]
    ensures Outcome(RunAll(t.stats, Attempts(rows, fetch)))[KeyOf(rows[i])].timeDeadS.None?
  {
    var ats := Attempts(rows, fetch);
    var r := RunAll(t.stats, ats);
    RunOnlyFills(t.stats, ats);
    var k := KeyOf(rows[i]);
    assert Wanted(t, now - BackfillLookbackDays * SecondsPerDay, k);
    FillKeysFrom(ats, k);
    forall j | 0 <= j < |ats| && ats[j].key == k
      ensures !ats[j].action.Fill?
    {
      assert KeyOf(rows[j]) == KeyOf(rows[i]);
    }
    assert OnlyFilled(t.stats, Outcome(r), FillKeys(ats));
  }

  /** `updated` never exceeds the number of rows; the last commit holds a
      multiple of 50 updates, fewer than 50 behind `updated`. */
  lemma {:induction false} RunCounts(stats: map<StatKey, StatRow>, ats: seq<Attempt>)
    ensures var r := RunAll(stats, ats);
      && r.updated <= |ats|
      && r.commits % CommitEvery == 0 && r.commits <= r.updated < r.commits + CommitEvery
      && r.updated == Fills(ats[..CrashIndex(ats)])
    decreases |ats|
  {
    RunUpdates(stats, ats);
    if ats != [] {
      RunCounts(stats, ats[..|ats| - 1]);
      StepCounts(RunAll(stats, ats[..|ats| - 1]), ats[|ats| - 1]);
    }
  }

  lemma StepCounts(r: Run, at: Attempt)
    requires r.commits % CommitEvery == 0 && r.commits <= r.updated < r.commits + CommitEvery
    ensures var r' := Step(r, at);
      && r'.updated <= r.updated + 1
      && r'.commits % CommitEvery == 0 && r'.commits <= r'.updated < r'.commits + CommitEvery
  {
    var c := r.commits / CommitEvery;
    assert r.commits == c * CommitEvery;
    var u := r.updated + 1;
    if u % CommitEvery != 0 {
      assert u < r.commits + CommitEvery;
    }
  }

  /** The index of the first attempt whose fetch raises, or the number of
      attempts when none does. */
  function CrashIndex(ats: seq<Attempt>): (c: nat)
    ensures c <= |ats|
    ensures forall j :: 0 <= j < c ==> !ats[j].action.Crash?
    ensures c < |ats| ==> ats[c].action.Crash?
    decreases |ats|
  {
    if ats == [] then 0
    else
      var n := |ats| - 1;
      var c := CrashIndex(ats[..n]);
      assert forall j :: 0 <= j < n ==> ats[..n][j] == ats[j];
      if c < n then c else if ats[n].action.Crash? then n else |ats|
  }

  /** The number of attempts that found a value. */
  function Fills(ats: seq<Attempt>): (n: nat)
    ensures n <= |ats|
    decreases |ats|
  {
    if ats == [] then 0 else Fills(ats[..|ats| - 1]) + (if ats[|ats| - 1].action.Fill? then 1 else 0)
  }

  /** `updated` as the loop counts it: the fills up to the first attempt
      that raises. */
  function FillsUntilCrash(ats: seq<Attempt>): nat
    decreases |ats|
  {
    if ats == [] then 0
    else
      var init := ats[..|ats| - 1];
      var last := ats[|ats| - 1];
      if CrashIndex(init) < |init| || !last.action.Fill? then FillsUntilCrash(init) else FillsUntilCrash(init) + 1
  }

  /** That count is the number of fills before the first attempt that raises. */
  lemma {:induction false} FillsUntilCrashCounts(ats: seq<Attempt>)
    ensures FillsUntilCrash(ats) == Fills(ats[..CrashIndex(ats)])
    decreases |ats|
  {
    if ats == [] {
      assert ats[..0] == [];
    } else {
      var n := |ats| - 1;
      var init := ats[..n];
      FillsUntilCrashCounts(init);
      var c := CrashIndex(init);
      if c < n {
        assert ats[..c] == init[..c];
      } else if ats[n].action.Crash? {
        assert init[..c] == init;
      } else {
        assert ats[..|ats|] == ats;
        assert init[..c] == init;
      }
    }
  }

  lemma {:induction false} RunTally(stats: map<StatKey, StatRow>, ats: seq<Attempt>)
    ensures var r := RunAll(stats, ats);
      && (r.crashed <==> CrashIndex(ats) < |ats|) && r.updated == FillsUntilCrash(ats)
    decreases |ats|
  {
    if ats != [] {
      var init := ats[..|ats| - 1];
      RunTally(stats, init);
      StepTally(RunAll(stats, init), ats[|ats| - 1]);
    }
  }

  /** The run ends early exactly when some fetch raises, and `updated` is the
      number of rows given a value before the first one that raises. */
  lemma RunUpdates(stats: map<StatKey, StatRow>, ats: seq<Attempt>)
    ensures var r := RunAll(stats, ats);
      && (r.crashed <==> CrashIndex(ats) < |ats|)
      && r.updated == Fills(ats[..CrashIndex(ats)])
  {
    RunTally(stats, ats);
    FillsUntilCrashCounts(ats);
  }

  lemma StepTally(r: Run, at: Attempt)
    ensures Step(r, at).crashed == (r.crashed || at.action.Crash?)
    ensures Step(r, at).updated == r.updated + (if !r.crashed && at.action.Fill? then 1 else 0)
  {
  }

  /** Without a fetch that raises, the run never ends early. */
  lemma {:induction false} NeverCrashes(stats: map<StatKey, StatRow>, ats: seq<Attempt>)
    requires forall j :: 0 <= j < |ats| ==> !ats[j].action.Crash?
    ensures !RunAll(stats, ats).crashed
    decreases |ats|
  {
    if ats != [] {
      var n := |ats| - 1;
      assert forall j :: 0 <= j < n ==> ats[..n][j] == ats[j];
      NeverCrashes(stats, ats[..n]);
    }
  }

  lemma NeverCrashesPrefix(stats: map<StatKey, StatRow>, ats: seq<Attempt>, j: nat)
    requires j <= |ats| && forall m :: 0 <= m < |ats| ==> !ats[m].action.Crash?
    ensures !RunAll(stats, ats[..j]).crashed
  {
    assert forall m :: 0 <= m < j ==> ats[..j][m] == ats[m];
    NeverCrashes(stats, ats[..j]);
  }

  /** Row `k`, which only attempt `i` touches, holds that attempt's value
      from then on, and its stored value before. */
  lemma {:induction false} FillSticks(stats: map<StatKey, StatRow>, ats: seq<Attempt>, i: nat, k: StatKey, v: int, j: nat)
    requires i < |ats| && ats[i] == Attempt(k, Fill(v)) && k in stats && j <= |ats|
    requires forall m :: 0 <= m < |ats| ==> !ats[m].action.Crash?
    requires forall m :: 0 <= m < |ats| && m != i ==> ats[m].key != k
    ensures RunAll(stats, ats[..j]).stats[k] == if j <= i then stats[k] else stats[k].(timeDeadS := Some(v))
    decreases j
  {
    if j == 0 {
      assert ats[..0] == [];
    } else {
      FillSticks(stats, ats, i, k, v, j - 1);
      RunAllSnoc(stats, ats, j - 1);
      NeverCrashesPrefix(stats, ats, j - 1);
      if j - 1 == i {
        StepFillsKey(RunAll(stats, ats[..j - 1]), k, v);
      } else {
        StepOtherKey(RunAll(stats, ats[..j - 1]), ats[j - 1], k);
      }
    }
  }

  lemma StepFillsKey(r: Run, k: StatKey, v: int)
    requires !r.crashed && k in r.stats
    ensures Step(r, Attempt(k, Fill(v))).stats[k] == r.stats[k].(timeDeadS := Some(v))
  {
  }

  lemma StepOtherKey(r: Run, at: Attempt, k: StatKey)
    requires !r.crashed && !at.action.Crash? && at.key != k && k in r.stats
    ensures Step(r, at).stats[k] == r.stats[k]
  {
  }

  /** The headline of the script: when no fetch raises, a selected row whose
      participant has `totalTimeSpentDead` = v ends holding v, the rest of
      the row unchanged. */
  lemma FilledRowHolds(t: Tables, now: int, rows: seq<Pending>, fetch: (string, string) -> Option<MatchPayload>, i: nat, v: int)
    requires Selected(t, now - BackfillLookbackDays * SecondsPerDay, rows)
    requires i < |rows| && RowAction(rows[i], fetch) == Fill(v)
    requires forall j :: 0 <= j < |rows| ==> !RowAction(rows[j], fetch).Crash?
    ensures KeyOf(rows[i]) in Outcome(RunAll(t.stats, Attempts(rows, fetch)))
    ensures Outcome(RunAll(t.stats, Attempts(rows, fetch)))[KeyOf(rows[i])]
      == t.stats[KeyOf(rows[i])].(timeDeadS := Some(v))
  {
    var ats := Attempts(rows, fetch);
    var k := KeyOf(rows[i]);
    assert Wanted(t, now - BackfillLookbackDays * SecondsPerDay, k);
    FillSticks(t.stats, ats, i, k, v, |ats|);
    assert ats[..|ats|] == ats;
    NeverCrashes(t.stats, ats);
  }

  /** The last commit is the state the loop had reached after some prefix
      of the rows, with `commits` updates done. */
  lemma {:induction false} CommitIsPrefix(stats: map<StatKey, StatRow>, ats: seq<Attempt>)
    ensures var r := RunAll(stats, ats);
      exists m :: 0 <= m <= |ats| && RunAll(stats, ats[..m]).stats == r.committed &&
        RunAll(stats, ats[..m]).updated == r.commits
    decreases |ats|
  {
    if ats == [] {
      assert ats[..0] == ats;
    } else {
      var n := |ats| - 1;
      var init := ats[..n];
      CommitIsPrefix(stats, init);
      var ri := RunAll(stats, init);
      var m :| 0 <= m <= n && RunAll(stats, init[..m]).stats == ri.committed && RunAll(stats, init[..m]).updated == ri.commits;
      assert init[..m] == ats[..m];
      assert ats[..|ats|] == ats;
      assert RunAll(stats, ats) == Step(ri, ats[n]);
      StepCommit(ri, ats[n]);
    }
  }
}
