/**
 * Lucky winners and unlucky losers (analyze.py, the query under the heading
 * MOST LUCKY WINS, UNLUCKY LOSSES): a winner whose score is below the median
 * of its week, and a loser whose score is above it.
 */
module Luck {
  import opened Rel
  import opened Order
  import opened Schema
  import opened Medians

  // ------------------------------------------------------------ weekly_median

  /** A row of `match m join match_team mt on m.week = mt.week` that the WHERE clause keeps. */
  datatype WeekScore = WeekScore(week: int, score: real)

  /**
   * The rows of one match: every positive box score of its week. The join is
   * on the week only, so a box score occurs once per match of its week.
   */
  function MatchWeekScores(db: Database, m: Match): seq<WeekScore> {
    Map(Filter(db.matchTeams, (mt: MatchTeam) => m.week == mt.week && mt.actualScore > 0.0),
      (mt: MatchTeam) => WeekScore(m.week, mt.actualScore))
  }

  function WeekScoreRows(db: Database): seq<WeekScore> {
    FlatMap(db.matches, (m: Match) => MatchWeekScores(db, m))
  }

  /** The scores in the group of week w. */
  function GroupScores(db: Database, w: int): seq<real> {
    Map(Filter(WeekScoreRows(db), (r: WeekScore) => r.week == w), (r: WeekScore) => r.score)
  }

  /** median(mt.actual_score) over the group of week w (every group the query forms is non-empty). */
  function GroupMedian(db: Database, w: int): real {
    var s := GroupScores(db, w);
    if s == [] then 0.0 else Median(s)
  }

  datatype WeeklyMedian = WeeklyMedian(week: int, medianScore: real)

  /** weekly_median: one row per week that has a match and a positive score. */
  function WeeklyMedians(db: Database): seq<WeeklyMedian> {
    Map(GroupKeys(WeekScoreRows(db), (r: WeekScore) => r.week), (w: int) => WeeklyMedian(w, GroupMedian(db, w)))
  }

  /** The positive box scores of week w, each once. */
  function WeekPositiveScores(db: Database, w: int): seq<real> {
    Map(Filter(db.matchTeams, (mt: MatchTeam) => mt.week == w && mt.actualScore > 0.0), (mt: MatchTeam) => mt.actualScore)
  }

  /** The number of matches of week w. */
  function MatchesInWeek(db: Database, w: int): nat {
    |Filter(db.matches, (m: Match) => m.week == w)|
  }

  /** A match contributes the week's positive scores to its own week's group and nothing to another's. */
  lemma MatchGroupScores(db: Database, m: Match, w: int)
    ensures Map(Filter(MatchWeekScores(db, m), (r: WeekScore) => r.week == w), (r: WeekScore) => r.score)
      == if m.week == w then WeekPositiveScores(db, w) else []
  {
    var boxes := Filter(db.matchTeams, (mt: MatchTeam) => m.week == mt.week && mt.actualScore > 0.0);
    var f := (mt: MatchTeam) => WeekScore(m.week, mt.actualScore);
    FilterMap(boxes, f, (r: WeekScore) => r.week == w, (mt: MatchTeam) => m.week == w);
    if m.week == w {
      FilterAll(boxes, (mt: MatchTeam) => m.week == w);
      MapMap(boxes, f, (r: WeekScore) => r.score, (mt: MatchTeam) => mt.actualScore);
      FilterPointwise(db.matchTeams, (mt: MatchTeam) => m.week == mt.week && mt.actualScore > 0.0,
        (mt: MatchTeam) => mt.week == w && mt.actualScore > 0.0);
    } else {
      FilterNone(boxes, (mt: MatchTeam) => m.week == w);
    }
  }

  lemma {:induction false} RepeatedScores(db: Database, ms: seq<Match>, w: int)
    ensures Map(Filter(FlatMap(ms, (m: Match) => MatchWeekScores(db, m)), (r: WeekScore) => r.week == w), (r: WeekScore) => r.score)
      == Repeat(WeekPositiveScores(db, w), |Filter(ms, (m: Match) => m.week == w)|)
  {
    if ms != [] {
      var g := (m: Match) => MatchWeekScores(db, m);
      var wk := (r: WeekScore) => r.week == w;
      var sc := (r: WeekScore) => r.score;
      RepeatedScores(db, ms[1..], w);
      FilterAppend(g(ms[0]), FlatMap(ms[1..], g), wk);
      MapAppend(Filter(g(ms[0]), wk), Filter(FlatMap(ms[1..], g), wk), sc);
      MatchGroupScores(db, ms[0], w);
    }
  }

  /**
   * The group of week w holds the week's positive box scores once per match of
   * that week: the join on the week alone repeats each of them.
   */
  lemma GroupScoresRepeat(db: Database, w: int)
    ensures GroupScores(db, w) == Repeat(WeekPositiveScores(db, w), MatchesInWeek(db, w))
  {
    RepeatedScores(db, db.matches, w);
  }

  /**
   * The repetition leaves the weekly median unchanged: it is the median of the
   * week's positive box scores, each taken once.
   */
  lemma WeeklyMedianOnce(db: Database, w: int)
    requires GroupScores(db, w) != []
    ensures MatchesInWeek(db, w) > 0 && WeekPositiveScores(db, w) != []
    ensures GroupMedian(db, w) == Median(WeekPositiveScores(db, w))
  {
    GroupScoresRepeat(db, w);
    MedianRepeat(WeekPositiveScores(db, w), MatchesInWeek(db, w));
  }

  // ----------------------------------------------------- box_diff_from_median

  datatype BoxDiff = BoxDiff(week: int, teamId: string, medianDiff: real)

  /** The positive box scores of a weekly median's week, less that median. */
  function MedianDiffs(db: Database, wm: WeeklyMedian): seq<BoxDiff> {
    Map(Filter(db.matchTeams, (mt: MatchTeam) => mt.week == wm.week && mt.actualScore > 0.0),
      (mt: MatchTeam) => BoxDiff(mt.week, mt.teamId, mt.actualScore - wm.medianScore))
  }

  function BoxDiffFromMedian(db: Database): seq<BoxDiff> {
    FlatMap(WeeklyMedians(db), (wm: WeeklyMedian) => MedianDiffs(db, wm))
  }

  // ---------------------------------------------------------------- box_score

  datatype BoxScore = BoxScore(week: int, homeScore: real, homeTeamId: string, awayScore: real, awayTeamId: string)

  /** The joined rows of one match: one per home and away box score. */
  function MatchBoxScores(db: Database, m: Match): seq<BoxScore> {
    FlatMap(BoxesAt(db, m.week, m.homeTeamId), (home: MatchTeam) =>
      Map(BoxesAt(db, m.week, m.awayTeamId), (away: MatchTeam) =>
        BoxScore(m.week, home.actualScore, m.homeTeamId, away.actualScore, m.awayTeamId)))
  }

  /** box_score: the joined rows whose two scores differ. */
  function BoxScores(db: Database): seq<BoxScore> {
    Filter(FlatMap(db.matches, (m: Match) => MatchBoxScores(db, m)), (b: BoxScore) => b.homeScore != b.awayScore)
  }

  // ------------------------------------------------------------ winner, loser

  /** A row of winner or loser; a CASE with no branch taken and no ELSE is NULL. */
  datatype Outcome = Outcome(week: int, teamId: Option<string>)

  function WinnerOf(b: BoxScore): Outcome {
    Outcome(b.week,
      if b.homeScore > b.awayScore then Some(b.homeTeamId)
      else if b.homeScore < b.awayScore then Some(b.awayTeamId)
      else None)
  }

  function LoserOf(b: BoxScore): Outcome {
    Outcome(b.week,
      if b.homeScore < b.awayScore then Some(b.homeTeamId)
      else if b.homeScore > b.awayScore then Some(b.awayTeamId)
      else None)
  }

  function Winners(db: Database): seq<Outcome> {
    Map(BoxScores(db), WinnerOf)
  }

  function Losers(db: Database): seq<Outcome> {
    Map(BoxScores(db), LoserOf)
  }

  // ------------------------------------------------ lucky_winner, unlucky_loser

  /** A row of lucky_winner or unlucky_loser: status, the outcome's week and team, the team row and the median difference. */
  datatype Tagged = Tagged(status: string, week: int, teamId: string, team: Team, medianDiff: real)

  /**
   * `w join box_diff_from_median bdm on w.team_id = bdm.team_id and w.week =
   * bdm.week join team t on t.id = w.team_id` for one outcome row w. A NULL
   * team id equals nothing, so it joins no row.
   */
  function TagOutcome(db: Database, status: string, o: Outcome): seq<Tagged> {
    match o.teamId
    case None => []
    case Some(id) =>
      FlatMap(Filter(BoxDiffFromMedian(db), (d: BoxDiff) => id == d.teamId && o.week == d.week), (d: BoxDiff) =>
        Map(TeamsWithId(db, id), (t: Team) => Tagged(status, o.week, id, t, d.medianDiff)))
  }

  /** lucky_winner: winners below their week's median. (Its ORDER BY does not order the union that reads it.) */
  function LuckyWinners(db: Database): seq<Tagged> {
    Filter(FlatMap(Winners(db), (o: Outcome) => TagOutcome(db, "WIN", o)), (r: Tagged) => r.medianDiff < 0.0)
  }

  /** unlucky_loser: losers above their week's median. */
  function UnluckyLosers(db: Database): seq<Tagged> {
    Filter(FlatMap(Losers(db), (o: Outcome) => TagOutcome(db, "LOSS", o)), (r: Tagged) => r.medianDiff > 0.0)
  }

  // -------------------------------------------------------------- the result

  /** A row of the result: a tagged row and the team `join team t on w.team_id = t.id` adds. */
  datatype LuckRow = LuckRow(tagged: Tagged, team: Team)

  predicate StatusLe(a: LuckRow, b: LuckRow) {
    LexLe(a.tagged.status, b.tagged.status)
  }

  /** `result w join team t on w.team_id = t.id`, result being lucky_winner UNION ALL unlucky_loser. */
  function LuckRows(db: Database): seq<LuckRow> {
    FlatMap(LuckyWinners(db) + UnluckyLosers(db), (r: Tagged) =>
      Map(TeamsWithId(db, r.teamId), (t: Team) => LuckRow(r, t)))
  }

  /** MOST LUCKY WINS, UNLUCKY LOSSES, ordered by status. */
  function LuckResult(db: Database): seq<LuckRow> {
    SortBy(LuckRows(db), StatusLe)
  }

  // ------------------------------------------------------- where rows come from

  /** A row of box_score comes from a match and one box score of each of its teams, with different scores. */
  lemma BoxScoreSource(db: Database, b: BoxScore) returns (m: Match, home: MatchTeam, away: MatchTeam)
    requires b in BoxScores(db)
    ensures m in db.matches
    ensures home in db.matchTeams && home.week == m.week && home.teamId == m.homeTeamId
    ensures away in db.matchTeams && away.week == m.week && away.teamId == m.awayTeamId
    ensures b == BoxScore(m.week, home.actualScore, m.homeTeamId, away.actualScore, m.awayTeamId)
    ensures home.actualScore != away.actualScore
  {
    FilterIn(FlatMap(db.matches, (m: Match) => MatchBoxScores(db, m)), (b: BoxScore) => b.homeScore != b.awayScore, b);
    m := FlatMapSource(db.matches, (m: Match) => MatchBoxScores(db, m), b);
    home := FlatMapSource(BoxesAt(db, m.week, m.homeTeamId), (home: MatchTeam) =>
      Map(BoxesAt(db, m.week, m.awayTeamId), (away: MatchTeam) =>
        BoxScore(m.week, home.actualScore, m.homeTeamId, away.actualScore, m.awayTeamId)), b);
    away := MapSource(BoxesAt(db, m.week, m.awayTeamId), (away: MatchTeam) =>
      BoxScore(m.week, home.actualScore, m.homeTeamId, away.actualScore, m.awayTeamId), b);
  }

  /** Every match with a home and an away box score of different scores has its row in box_score. */
  lemma BoxScoreMember(db: Database, m: Match, home: MatchTeam, away: MatchTeam)
    requires m in db.matches
    requires home in db.matchTeams && home.week == m.week && home.teamId == m.homeTeamId
    requires away in db.matchTeams && away.week == m.week && away.teamId == m.awayTeamId
    requires home.actualScore != away.actualScore
    ensures BoxScore(m.week, home.actualScore, m.homeTeamId, away.actualScore, m.awayTeamId) in BoxScores(db)
  {
    var b := BoxScore(m.week, home.actualScore, m.homeTeamId, away.actualScore, m.awayTeamId);
    MapMember(BoxesAt(db, m.week, m.awayTeamId), (away: MatchTeam) =>
      BoxScore(m.week, home.actualScore, m.homeTeamId, away.actualScore, m.awayTeamId), away);
    FlatMapMember(BoxesAt(db, m.week, m.homeTeamId), (home: MatchTeam) =>
      Map(BoxesAt(db, m.week, m.awayTeamId), (away: MatchTeam) =>
        BoxScore(m.week, home.actualScore, m.homeTeamId, away.actualScore, m.awayTeamId)), home, b);
    FlatMapMember(db.matches, (m: Match) => MatchBoxScores(db, m), m, b);
    FilterIn(FlatMap(db.matches, (m: Match) => MatchBoxScores(db, m)), (b: BoxScore) => b.homeScore != b.awayScore, b);
  }

  /**
   * A tied match has no row in box_score, so the CASE of winner and loser
   * always names a team: the winner scored strictly more than the loser.
   */
  lemma OutcomeDecided(db: Database, b: BoxScore)
    requires b in BoxScores(db)
    ensures WinnerOf(b).teamId != None && LoserOf(b).teamId != None
    ensures || (WinnerOf(b).teamId == Some(b.homeTeamId) && LoserOf(b).teamId == Some(b.awayTeamId) && b.homeScore > b.awayScore)
            || (WinnerOf(b).teamId == Some(b.awayTeamId) && LoserOf(b).teamId == Some(b.homeTeamId) && b.awayScore > b.homeScore)
  {
    var m, home, away := BoxScoreSource(db, b);
  }

  /** A row of box_diff_from_median is a positive box score less the median of its week, whose group is not empty. */
  lemma DiffSource(db: Database, d: BoxDiff) returns (mt: MatchTeam)
    requires d in BoxDiffFromMedian(db)
    ensures mt in db.matchTeams && mt.actualScore > 0.0
    ensures GroupScores(db, mt.week) != []
    ensures d == BoxDiff(mt.week, mt.teamId, mt.actualScore - Median(GroupScores(db, mt.week)))
  {
    var wm := FlatMapSource(WeeklyMedians(db), (wm: WeeklyMedian) => MedianDiffs(db, wm), d);
    mt := MapSource(Filter(db.matchTeams, (mt: MatchTeam) => mt.week == wm.week && mt.actualScore > 0.0),
      (mt: MatchTeam) => BoxDiff(mt.week, mt.teamId, mt.actualScore - wm.medianScore), d);
    FilterIn(db.matchTeams, (mt: MatchTeam) => mt.week == wm.week && mt.actualScore > 0.0, mt);
    var w := MapSource(GroupKeys(WeekScoreRows(db), (r: WeekScore) => r.week),
      (w: int) => WeeklyMedian(w, GroupMedian(db, w)), wm);
    var row := GroupKeysSource(WeekScoreRows(db), (r: WeekScore) => r.week, w);
    FilterIn(WeekScoreRows(db), (r: WeekScore) => r.week == w, row);
    MapMember(Filter(WeekScoreRows(db), (r: WeekScore) => r.week == w), (r: WeekScore) => r.score, row);
  }

  /** Every week with a match and a positive box score has its row in weekly_median. */
  lemma WeekMember(db: Database, m: Match, mt: MatchTeam)
    requires m in db.matches && mt in db.matchTeams && m.week == mt.week && mt.actualScore > 0.0
    ensures WeeklyMedian(mt.week, GroupMedian(db, mt.week)) in WeeklyMedians(db)
  {
    var row := WeekScore(m.week, mt.actualScore);
    FilterIn(db.matchTeams, (mt: MatchTeam) => m.week == mt.week && mt.actualScore > 0.0, mt);
    MapMember(Filter(db.matchTeams, (mt: MatchTeam) => m.week == mt.week && mt.actualScore > 0.0),
      (mt: MatchTeam) => WeekScore(m.week, mt.actualScore), mt);
    FlatMapMember(db.matches, (m: Match) => MatchWeekScores(db, m), m, row);
    GroupKeysMember(WeekScoreRows(db), (r: WeekScore) => r.week, row);
    MapMember(GroupKeys(WeekScoreRows(db), (r: WeekScore) => r.week), (w: int) => WeeklyMedian(w, GroupMedian(db, w)), mt.week);
  }

  /** Every positive box score of a weekly median's week, less that median, is one of its differences. */
  lemma MedianDiffsMember(db: Database, wm: WeeklyMedian, mt: MatchTeam)
    requires mt in db.matchTeams && mt.week == wm.week && mt.actualScore > 0.0
    ensures BoxDiff(mt.week, mt.teamId, mt.actualScore - wm.medianScore) in MedianDiffs(db, wm)
  {
    FilterIn(db.matchTeams, (mt: MatchTeam) => mt.week == wm.week && mt.actualScore > 0.0, mt);
    MapMember(Filter(db.matchTeams, (mt: MatchTeam) => mt.week == wm.week && mt.actualScore > 0.0),
      (mt: MatchTeam) => BoxDiff(mt.week, mt.teamId, mt.actualScore - wm.medianScore), mt);
  }

  /** Every positive box score of a week with a match has its row in box_diff_from_median. */
  lemma DiffMember(db: Database, m: Match, mt: MatchTeam)
    requires m in db.matches && mt in db.matchTeams && m.week == mt.week && mt.actualScore > 0.0
    ensures BoxDiff(mt.week, mt.teamId, mt.actualScore - GroupMedian(db, mt.week)) in BoxDiffFromMedian(db)
  {
    var wm := WeeklyMedian(mt.week, GroupMedian(db, mt.week));
    WeekMember(db, m, mt);
    MedianDiffsMember(db, wm, mt);
    FlatMapMember(WeeklyMedians(db), (wm: WeeklyMedian) => MedianDiffs(db, wm), wm,
      BoxDiff(mt.week, mt.teamId, mt.actualScore - wm.medianScore));
  }

  /** A tagged row of an outcome joins a box_diff_from_median row of the outcome's week and team with a team of that id. */
  lemma TaggedSource(db: Database, status: string, o: Outcome, r: Tagged) returns (mt: MatchTeam)
    requires r in TagOutcome(db, status, o)
    ensures o.teamId == Some(r.teamId) && r.week == o.week && r.status == status
    ensures r.team in db.teams && r.team.id == r.teamId
    ensures mt in db.matchTeams && mt.week == r.week && mt.teamId == r.teamId && mt.actualScore > 0.0
    ensures GroupScores(db, r.week) != []
    ensures r.medianDiff == mt.actualScore - Median(GroupScores(db, r.week))
  {
    var id := o.teamId.value;
    var d := FlatMapSource(Filter(BoxDiffFromMedian(db), (d: BoxDiff) => id == d.teamId && o.week == d.week), (d: BoxDiff) =>
      Map(TeamsWithId(db, id), (t: Team) => Tagged(status, o.week, id, t, d.medianDiff)), r);
    var t := MapSource(TeamsWithId(db, id), (t: Team) => Tagged(status, o.week, id, t, d.medianDiff), r);
    FilterIn(BoxDiffFromMedian(db), (d: BoxDiff) => id == d.teamId && o.week == d.week, d);
    mt := DiffSource(db, d);
  }

  /** An outcome's tagged rows include every box_diff_from_median row of its week and team, with every team of that id. */
  lemma TaggedMember(db: Database, status: string, o: Outcome, d: BoxDiff, t: Team)
    requires d in BoxDiffFromMedian(db) && o.teamId == Some(d.teamId) && o.week == d.week
    requires t in db.teams && t.id == d.teamId
    ensures Tagged(status, o.week, d.teamId, t, d.medianDiff) in TagOutcome(db, status, o)
  {
    var id := d.teamId;
    var r := Tagged(status, o.week, id, t, d.medianDiff);
    MapMember(TeamsWithId(db, id), (t: Team) => Tagged(status, o.week, id, t, d.medianDiff), t);
    FilterIn(BoxDiffFromMedian(db), (d: BoxDiff) => id == d.teamId && o.week == d.week, d);
    FlatMapMember(Filter(BoxDiffFromMedian(db), (d: BoxDiff) => id == d.teamId && o.week == d.week), (d: BoxDiff) =>
      Map(TeamsWithId(db, id), (t: Team) => Tagged(status, o.week, id, t, d.medianDiff)), d, r);
  }

  // ------------------------------------------------------- the tagged outcomes

  /**
   * A row of lucky_winner is the winner of a box_score row in that week, whose
   * own positive score lies strictly below the median of the week.
   */
  lemma LuckyWinnerSource(db: Database, r: Tagged) returns (b: BoxScore, mt: MatchTeam)
    requires r in LuckyWinners(db)
    ensures r.status == "WIN"
    ensures b in BoxScores(db) && b.week == r.week && WinnerOf(b).teamId == Some(r.teamId)
    ensures r.team in db.teams && r.team.id == r.teamId
    ensures mt in db.matchTeams && mt.week == r.week && mt.teamId == r.teamId && mt.actualScore > 0.0
    ensures GroupScores(db, r.week) != [] && mt.actualScore < Median(GroupScores(db, r.week))
    ensures r.medianDiff == mt.actualScore - Median(GroupScores(db, r.week))
  {
    FilterIn(FlatMap(Winners(db), (o: Outcome) => TagOutcome(db, "WIN", o)), (r: Tagged) => r.medianDiff < 0.0, r);
    var o := FlatMapSource(Winners(db), (o: Outcome) => TagOutcome(db, "WIN", o), r);
    b := MapSource(BoxScores(db), WinnerOf, o);
    mt := TaggedSource(db, "WIN", o, r);
  }

  /** Every winner whose positive score lies below its week's median is a row of lucky_winner, once per team of its id. */
  lemma LuckyWinnerMember(db: Database, b: BoxScore, mt: MatchTeam, t: Team)
    requires b in BoxScores(db) && WinnerOf(b).teamId == Some(mt.teamId)
    requires mt in db.matchTeams && mt.week == b.week && mt.actualScore > 0.0
    requires t in db.teams && t.id == mt.teamId
    requires mt.actualScore < GroupMedian(db, b.week)
    ensures Tagged("WIN", b.week, mt.teamId, t, mt.actualScore - GroupMedian(db, b.week)) in LuckyWinners(db)
  {
    var m, home, away := BoxScoreSource(db, b);
    DiffMember(db, m, mt);
    var o := WinnerOf(b);
    var d := BoxDiff(mt.week, mt.teamId, mt.actualScore - GroupMedian(db, mt.week));
    var r := Tagged("WIN", b.week, mt.teamId, t, d.medianDiff);
    assert r == Tagged("WIN", b.week, mt.teamId, t, mt.actualScore - GroupMedian(db, b.week));
    MapMember(BoxScores(db), WinnerOf, b);
    TaggedMember(db, "WIN", o, d, t);
    assert o in Winners(db) && r in TagOutcome(db, "WIN", o);
    FlatMapMember(Winners(db), (o: Outcome) => TagOutcome(db, "WIN", o), o, r);
    FilterIn(FlatMap(Winners(db), (o: Outcome) => TagOutcome(db, "WIN", o)), (r: Tagged) => r.medianDiff < 0.0, r);
  }

  /**
   * A row of unlucky_loser is the loser of a box_score row in that week, whose
   * own positive score lies strictly above the median of the week.
   */
  lemma UnluckyLoserSource(db: Database, r: Tagged) returns (b: BoxScore, mt: MatchTeam)
    requires r in UnluckyLosers(db)
    ensures r.status == "LOSS"
    ensures b in BoxScores(db) && b.week == r.week && LoserOf(b).teamId == Some(r.teamId)
    ensures r.team in db.teams && r.team.id == r.teamId
    ensures mt in db.matchTeams && mt.week == r.week && mt.teamId == r.teamId && mt.actualScore > 0.0
    ensures GroupScores(db, r.week) != [] && mt.actualScore > Median(GroupScores(db, r.week))
    ensures r.medianDiff == mt.actualScore - Median(GroupScores(db, r.week))
  {
    FilterIn(FlatMap(Losers(db), (o: Outcome) => TagOutcome(db, "LOSS", o)), (r: Tagged) => r.medianDiff > 0.0, r);
    var o := FlatMapSource(Losers(db), (o: Outcome) => TagOutcome(db, "LOSS", o), r);
    b := MapSource(BoxScores(db), LoserOf, o);
    mt := TaggedSource(db, "LOSS", o, r);
  }

  /** Every loser whose positive score lies above its week's median is a row of unlucky_loser, once per team of its id. */
  lemma UnluckyLoserMember(db: Database, b: BoxScore, mt: MatchTeam, t: Team)
    requires b in BoxScores(db) && LoserOf(b).teamId == Some(mt.teamId)
    requires mt in db.matchTeams && mt.week == b.week && mt.actualScore > 0.0
    requires t in db.teams && t.id == mt.teamId
    requires mt.actualScore > GroupMedian(db, b.week)
    ensures Tagged("LOSS", b.week, mt.teamId, t, mt.actualScore - GroupMedian(db, b.week)) in UnluckyLosers(db)
  {
    var m, home, away := BoxScoreSource(db, b);
    DiffMember(db, m, mt);
    var o := LoserOf(b);
    var d := BoxDiff(mt.week, mt.teamId, mt.actualScore - GroupMedian(db, mt.week));
    var r := Tagged("LOSS", b.week, mt.teamId, t, d.medianDiff);
    assert r == Tagged("LOSS", b.week, mt.teamId, t, mt.actualScore - GroupMedian(db, b.week));
    MapMember(BoxScores(db), LoserOf, b);
    TaggedMember(db, "LOSS", o, d, t);
    assert o in Losers(db) && r in TagOutcome(db, "LOSS", o);
    FlatMapMember(Losers(db), (o: Outcome) => TagOutcome(db, "LOSS", o), o, r);
    FilterIn(FlatMap(Losers(db), (o: Outcome) => TagOutcome(db, "LOSS", o)), (r: Tagged) => r.medianDiff > 0.0, r);
  }

  /** Under the key of match_team, no team is tagged both lucky and unlucky in the same week. */
  lemma NotTaggedTwice(db: Database, w: Tagged, l: Tagged)
    requires MatchTeamKey(db) && w in LuckyWinners(db) && l in UnluckyLosers(db)
    ensures w.week != l.week || w.teamId != l.teamId
  {
    var bw, mtw := LuckyWinnerSource(db, w);
    var bl, mtl := UnluckyLoserSource(db, l);
    if w.week == l.week && w.teamId == l.teamId {
      BoxesAtKey(db, w.week, w.teamId);
    }
  }

  /** The winner of box_score row b is tagged lucky in that week. */
  predicate WinnerTagged(db: Database, b: BoxScore) {
    exists r {:trigger r in LuckyWinners(db)} :: r in LuckyWinners(db) && r.week == b.week && WinnerOf(b).teamId == Some(r.teamId)
  }

  /** The loser of box_score row b is tagged unlucky in that week. */
  predicate LoserTagged(db: Database, b: BoxScore) {
    exists r {:trigger r in UnluckyLosers(db)} :: r in UnluckyLosers(db) && r.week == b.week && LoserOf(b).teamId == Some(r.teamId)
  }

  /**
   * Under the key of match_team, at most one side of a match is tagged: a
   * lucky winner scored below the median, an unlucky loser above it, and the
   * winner scored more than the loser.
   */
  lemma OneSidePerMatch(db: Database, b: BoxScore)
    requires MatchTeamKey(db) && b in BoxScores(db)
    ensures !(WinnerTagged(db, b) && LoserTagged(db, b))
  {
    if WinnerTagged(db, b) && LoserTagged(db, b) {
      var w :| w in LuckyWinners(db) && w.week == b.week && WinnerOf(b).teamId == Some(w.teamId);
      var l :| l in UnluckyLosers(db) && l.week == b.week && LoserOf(b).teamId == Some(l.teamId);
      var bw, mtw := LuckyWinnerSource(db, w);
      var bl, mtl := UnluckyLoserSource(db, l);
      var m, home, away := BoxScoreSource(db, b);
      BoxesAtKey(db, b.week, b.homeTeamId);
      BoxesAtKey(db, b.week, b.awayTeamId);
    }
  }

  // ------------------------------------------------------------ the result rows

  /** The result rows are exactly the tagged rows, each with a team of its id. */
  lemma LuckResultMember(db: Database, x: LuckRow)
    ensures x in LuckResult(db) <==>
      && (x.tagged in LuckyWinners(db) || x.tagged in UnluckyLosers(db))
      && x.team in db.teams && x.team.id == x.tagged.teamId
  {
    var tagged := LuckyWinners(db) + UnluckyLosers(db);
    var g := (r: Tagged) => Map(TeamsWithId(db, r.teamId), (t: Team) => LuckRow(r, t));
    SortByMember(LuckRows(db), StatusLe, x);
    if x in LuckRows(db) {
      var r := FlatMapSource(tagged, g, x);
      var t := MapSource(TeamsWithId(db, r.teamId), (t: Team) => LuckRow(r, t), x);
    }
    if (x.tagged in tagged) && x.team in db.teams && x.team.id == x.tagged.teamId {
      MapMember(TeamsWithId(db, x.tagged.teamId), (t: Team) => LuckRow(x.tagged, t), x.team);
      FlatMapMember(tagged, g, x.tagged, x);
    }
  }

  lemma StatusOrder()
    ensures TotalPreorder(StatusLe)
  {
    forall a: LuckRow, b: LuckRow ensures StatusLe(a, b) || StatusLe(b, a) {
      LexLeTotal(a.tagged.status, b.tagged.status);
    }
    forall a: LuckRow, b: LuckRow, c: LuckRow | StatusLe(a, b) && StatusLe(b, c) ensures StatusLe(a, c) {
      LexLeTransitive(a.tagged.status, b.tagged.status, c.tagged.status);
    }
  }

  /** Every result row is tagged LOSS or WIN, and no WIN row comes before a LOSS row. */
  lemma LuckResultOrdered(db: Database)
    ensures forall x :: x in LuckResult(db) ==> x.tagged.status == "LOSS" || x.tagged.status == "WIN"
    ensures forall i, j :: 0 <= i < j < |LuckResult(db)| ==>
      !(LuckResult(db)[i].tagged.status == "WIN" && LuckResult(db)[j].tagged.status == "LOSS")
  {
    var res := LuckResult(db);
    forall x | x in res ensures x.tagged.status == "LOSS" || x.tagged.status == "WIN" {
      LuckResultMember(db, x);
      if x.tagged in LuckyWinners(db) {
        var b, mt := LuckyWinnerSource(db, x.tagged);
      } else {
        var b, mt := UnluckyLoserSource(db, x.tagged);
      }
    }
    StatusOrder();
    SortBySorted(LuckRows(db), StatusLe);
    assert !LexLe("WIN", "LOSS");
  }
}
