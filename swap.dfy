/**
 * Number of wins if schedules were swapped (analyze.py, the last query): for
 * every ordered pair of different teams A and B, how many of B's weeks A would
 * have won had A met B's opponent of that week with A's own score.
 */
module Swap {
  import opened Rel
  import opened Order
  import opened Schema

  /** A row of alternate_results_by_team. */
  datatype AltResult = AltResult(
    week: int,
    teamId: string, teamName: string, actualScore: real,
    otherScheduleTeamId: string, otherScheduleTeamName: string,
    opponentId: string, opponentName: string, opponentScore: real,
    isWin: bool)

  /** `case when m.home_team_id = id then m.away_team_id else m.home_team_id end`: the other side of m. */
  function Opponent(m: Match, id: string): string {
    if m.homeTeamId == id then m.awayTeamId else m.homeTeamId
  }

  /** The select list of alternate_results_by_team for one combination of joined rows. */
  function AltRow(m: Match, ta: Team, tb: Team, mta: MatchTeam, mtb: MatchTeam, tc: Team): AltResult {
    AltResult(m.week, ta.id, ta.name, mta.actualScore, tb.id, tb.name, tc.id, tc.name, mtb.actualScore,
      mta.actualScore > mtb.actualScore)
  }

  // The WHERE conditions `mta.actual_score > 0.0` and `mtb.actual_score > 0.0`
  // read only one joined table each and are applied where that table is joined.

  /** `join team tc on tc.id = <opponent>` */
  function OpponentRows(db: Database, m: Match, ta: Team, tb: Team, mta: MatchTeam, mtb: MatchTeam): seq<AltResult> {
    Map(TeamsWithId(db, Opponent(m, tb.id)), (tc: Team) => AltRow(m, ta, tb, mta, mtb, tc))
  }

  /** `join match_team mtb on mtb.team_id = <opponent> and mtb.week = m.week` */
  function OpponentBoxRows(db: Database, m: Match, ta: Team, tb: Team, mta: MatchTeam): seq<AltResult> {
    FlatMap(Filter(BoxesAt(db, m.week, Opponent(m, tb.id)), (mtb: MatchTeam) => mtb.actualScore > 0.0), (mtb: MatchTeam) =>
      OpponentRows(db, m, ta, tb, mta, mtb))
  }

  /** `join match_team mta on ta.id = mta.team_id and mta.week = m.week` */
  function MatchRows(db: Database, ta: Team, tb: Team, m: Match): seq<AltResult> {
    FlatMap(Filter(BoxesAt(db, m.week, ta.id), (mta: MatchTeam) => mta.actualScore > 0.0), (mta: MatchTeam) =>
      OpponentBoxRows(db, m, ta, tb, mta))
  }

  /** `join match m on m.home_team_id = tb.id or m.away_team_id = tb.id` */
  function PairRows(db: Database, ta: Team, tb: Team): seq<AltResult> {
    FlatMap(Filter(db.matches, (m: Match) => m.homeTeamId == tb.id || m.awayTeamId == tb.id), (m: Match) =>
      MatchRows(db, ta, tb, m))
  }

  /** `team ta join team tb on ta.id != tb.id` */
  function TeamRows(db: Database, ta: Team): seq<AltResult> {
    FlatMap(Filter(db.teams, (tb: Team) => ta.id != tb.id), (tb: Team) => PairRows(db, ta, tb))
  }

  /** The joined rows before `distinct`. */
  function JoinedRows(db: Database): seq<AltResult> {
    FlatMap(db.teams, (ta: Team) => TeamRows(db, ta))
  }

  /** `select distinct ...`: the alternate_results_by_team CTE. */
  function AlternateResults(db: Database): seq<AltResult> {
    Distinct(JoinedRows(db))
  }

  /** The group of (team_id, other_schedule_team_id) = (a, b). */
  function GroupOf(db: Database, a: string, b: string): seq<AltResult> {
    Filter(AlternateResults(db), (r: AltResult) => r.teamId == a && r.otherScheduleTeamId == b)
  }

  /** `count(case when is_win then 1 end)`: the rows of the group whose is_win holds. */
  function NumWins(db: Database, a: string, b: string): nat {
    Count(GroupOf(db, a, b), (r: AltResult) => r.isWin)
  }

  /** A row of alternate_reality. */
  datatype AltReality = AltReality(teamId: string, otherScheduleTeamId: string, numWins: nat)

  /** The alternate_reality CTE: one row per group. */
  function AlternateReality(db: Database): seq<AltReality> {
    Map(GroupKeys(AlternateResults(db), (r: AltResult) => (r.teamId, r.otherScheduleTeamId)), (k: (string, string)) =>
      AltReality(k.0, k.1, NumWins(db, k.0, k.1)))
  }

  /** A row of the result. */
  datatype SwapRow = SwapRow(targetTeam: string, otherScheduleTeam: string, numWins: nat)

  /** `join team ta on ar.team_id = ta.id join team tb on ar.other_schedule_team_id = tb.id` */
  function RealityRows(db: Database, ar: AltReality): seq<SwapRow> {
    FlatMap(TeamsWithId(db, ar.teamId), (ta: Team) =>
      Map(TeamsWithId(db, ar.otherScheduleTeamId), (tb: Team) => SwapRow(ta.name, tb.name, ar.numWins)))
  }

  function SwapRows(db: Database): seq<SwapRow> {
    FlatMap(AlternateReality(db), (ar: AltReality) => RealityRows(db, ar))
  }

  /** `order by num_wins desc, ta.name` */
  predicate SwapLe(x: SwapRow, y: SwapRow) {
    x.numWins > y.numWins || (x.numWins == y.numWins && LexLe(x.targetTeam, y.targetTeam))
  }

  /** NUMBER OF WINS IF SCHEDULES WERE SWAPPED */
  function SwappedWins(db: Database): seq<SwapRow> {
    SortBy(SwapRows(db), SwapLe)
  }

  // ------------------------------------------------- alternate_results_by_team

  /**
   * One combination the joins of alternate_results_by_team produce and its
   * WHERE clause keeps: different teams A and B, a match of B, A's box score
   * of that week, the box score and the team row of B's opponent, both scores
   * positive.
   */
  predicate AltCase(db: Database, m: Match, ta: Team, tb: Team, mta: MatchTeam, mtb: MatchTeam, tc: Team) {
    && ta in db.teams && tb in db.teams && ta.id != tb.id
    && m in db.matches && (m.homeTeamId == tb.id || m.awayTeamId == tb.id)
    && mta in db.matchTeams && mta.week == m.week && mta.teamId == ta.id && mta.actualScore > 0.0
    && mtb in db.matchTeams && mtb.week == m.week && mtb.teamId == Opponent(m, tb.id) && mtb.actualScore > 0.0
    && tc in db.teams && tc.id == Opponent(m, tb.id)
  }

  lemma MatchRowsSource(db: Database, ta: Team, tb: Team, m: Match, r: AltResult) returns (mta: MatchTeam, mtb: MatchTeam, tc: Team)
    requires r in MatchRows(db, ta, tb, m)
    ensures mta in db.matchTeams && mta.week == m.week && mta.teamId == ta.id && mta.actualScore > 0.0
    ensures mtb in db.matchTeams && mtb.week == m.week && mtb.teamId == Opponent(m, tb.id) && mtb.actualScore > 0.0
    ensures tc in db.teams && tc.id == Opponent(m, tb.id)
    ensures r == AltRow(m, ta, tb, mta, mtb, tc)
  {
    mta := FlatMapSource(Filter(BoxesAt(db, m.week, ta.id), (mta: MatchTeam) => mta.actualScore > 0.0), (mta: MatchTeam) =>
      OpponentBoxRows(db, m, ta, tb, mta), r);
    FilterIn(BoxesAt(db, m.week, ta.id), (mta: MatchTeam) => mta.actualScore > 0.0, mta);
    mtb := FlatMapSource(Filter(BoxesAt(db, m.week, Opponent(m, tb.id)), (mtb: MatchTeam) => mtb.actualScore > 0.0), (mtb: MatchTeam) =>
      OpponentRows(db, m, ta, tb, mta, mtb), r);
    FilterIn(BoxesAt(db, m.week, Opponent(m, tb.id)), (mtb: MatchTeam) => mtb.actualScore > 0.0, mtb);
    tc := MapSource(TeamsWithId(db, Opponent(m, tb.id)), (tc: Team) => AltRow(m, ta, tb, mta, mtb, tc), r);
  }

  /** Every row of alternate_results_by_team comes from a case, and is_win says that A outscored B's opponent. */
  lemma AltResultSource(db: Database, r: AltResult) returns (m: Match, ta: Team, tb: Team, mta: MatchTeam, mtb: MatchTeam, tc: Team)
    requires r in AlternateResults(db)
    ensures AltCase(db, m, ta, tb, mta, mtb, tc) && r == AltRow(m, ta, tb, mta, mtb, tc)
    ensures r.teamId != r.otherScheduleTeamId && r.actualScore > 0.0 && r.opponentScore > 0.0
    ensures r.isWin <==> r.actualScore > r.opponentScore
  {
    assert r in JoinedRows(db);
    ta := FlatMapSource(db.teams, (ta: Team) => TeamRows(db, ta), r);
    tb := FlatMapSource(Filter(db.teams, (tb: Team) => ta.id != tb.id), (tb: Team) => PairRows(db, ta, tb), r);
    FilterIn(db.teams, (tb: Team) => ta.id != tb.id, tb);
    m := FlatMapSource(Filter(db.matches, (m: Match) => m.homeTeamId == tb.id || m.awayTeamId == tb.id), (m: Match) =>
      MatchRows(db, ta, tb, m), r);
    FilterIn(db.matches, (m: Match) => m.homeTeamId == tb.id || m.awayTeamId == tb.id, m);
    mta, mtb, tc := MatchRowsSource(db, ta, tb, m, r);
  }

  lemma MatchRowsMember(db: Database, m: Match, ta: Team, tb: Team, mta: MatchTeam, mtb: MatchTeam, tc: Team)
    requires AltCase(db, m, ta, tb, mta, mtb, tc)
    ensures AltRow(m, ta, tb, mta, mtb, tc) in MatchRows(db, ta, tb, m)
  {
    var r := AltRow(m, ta, tb, mta, mtb, tc);
    MapMember(TeamsWithId(db, Opponent(m, tb.id)), (tc: Team) => AltRow(m, ta, tb, mta, mtb, tc), tc);
    FilterIn(BoxesAt(db, m.week, Opponent(m, tb.id)), (mtb: MatchTeam) => mtb.actualScore > 0.0, mtb);
    FlatMapMember(Filter(BoxesAt(db, m.week, Opponent(m, tb.id)), (mtb: MatchTeam) => mtb.actualScore > 0.0), (mtb: MatchTeam) =>
      OpponentRows(db, m, ta, tb, mta, mtb), mtb, r);
    FilterIn(BoxesAt(db, m.week, ta.id), (mta: MatchTeam) => mta.actualScore > 0.0, mta);
    FlatMapMember(Filter(BoxesAt(db, m.week, ta.id), (mta: MatchTeam) => mta.actualScore > 0.0), (mta: MatchTeam) =>
      OpponentBoxRows(db, m, ta, tb, mta), mta, r);
  }

  /** Every case gives a row of alternate_results_by_team. */
  lemma AltResultMember(db: Database, m: Match, ta: Team, tb: Team, mta: MatchTeam, mtb: MatchTeam, tc: Team)
    requires AltCase(db, m, ta, tb, mta, mtb, tc)
    ensures AltRow(m, ta, tb, mta, mtb, tc) in AlternateResults(db)
  {
    var r := AltRow(m, ta, tb, mta, mtb, tc);
    MatchRowsMember(db, m, ta, tb, mta, mtb, tc);
    FilterIn(db.matches, (m: Match) => m.homeTeamId == tb.id || m.awayTeamId == tb.id, m);
    FlatMapMember(Filter(db.matches, (m: Match) => m.homeTeamId == tb.id || m.awayTeamId == tb.id), (m: Match) =>
      MatchRows(db, ta, tb, m), m, r);
    FilterIn(db.teams, (tb: Team) => ta.id != tb.id, tb);
    FlatMapMember(Filter(db.teams, (tb: Team) => ta.id != tb.id), (tb: Team) => PairRows(db, ta, tb), tb, r);
    FlatMapMember(db.teams, (ta: Team) => TeamRows(db, ta), ta, r);
    assert r in JoinedRows(db);
  }

  /**
   * When B's opponent is A itself, A is compared with its own box score of
   * that week, which under the key of match_team is never a win.
   */
  lemma SelfOpponentNoWin(db: Database, r: AltResult)
    requires MatchTeamKey(db) && r in AlternateResults(db) && r.opponentId == r.teamId
    ensures !r.isWin && r.actualScore == r.opponentScore
  {
    var m, ta, tb, mta, mtb, tc := AltResultSource(db, r);
    BoxesAtKey(db, m.week, ta.id);
    assert mta in db.matchTeams && mtb in db.matchTeams;
  }

  // ------------------------------------------------------------ alternate_reality

  /** The winning rows of the group (a, b): B's weeks in which A's score beats B's opponent's. */
  ghost function WinsOf(db: Database, a: string, b: string): set<AltResult> {
    set r | r in AlternateResults(db) && r.teamId == a && r.otherScheduleTeamId == b && r.actualScore > r.opponentScore
  }

  /** The rows of the group (a, b). */
  ghost function GamesOf(db: Database, a: string, b: string): set<AltResult> {
    set r | r in AlternateResults(db) && r.teamId == a && r.otherScheduleTeamId == b
  }

  /** A row of alternate_results_by_team is a win exactly when A's score beats the opponent's. */
  lemma IsWinSpec(db: Database, r: AltResult)
    requires r in AlternateResults(db)
    ensures r.isWin <==> r.actualScore > r.opponentScore
  {
    var m, ta, tb, mta, mtb, tc := AltResultSource(db, r);
  }

  /** num_wins counts each different winning row of the group once. */
  lemma WinsCount(db: Database, a: string, b: string)
    ensures NumWins(db, a, b) == |WinsOf(db, a, b)|
  {
    var all := JoinedRows(db);
    var both := (r: AltResult) => r.teamId == a && r.otherScheduleTeamId == b && r.isWin;
    FilterFilter(Distinct(all), (r: AltResult) => r.teamId == a && r.otherScheduleTeamId == b, (r: AltResult) => r.isWin, both);
    forall x ensures x in WinsOf(db, a, b) <==> x in all && both(x) {
      if x in AlternateResults(db) {
        IsWinSpec(db, x);
      }
    }
    CountDistinct(all, both, WinsOf(db, a, b));
  }

  /** The group holds each different row of A on B's schedule once. */
  lemma GamesCount(db: Database, a: string, b: string)
    ensures |GroupOf(db, a, b)| == |GamesOf(db, a, b)|
  {
    var grp := (r: AltResult) => r.teamId == a && r.otherScheduleTeamId == b;
    CountDistinct(JoinedRows(db), grp, GamesOf(db, a, b));
  }

  /** num_wins is at most the number of different rows of the group. */
  lemma NumWinsBound(db: Database, a: string, b: string)
    ensures NumWins(db, a, b) <= |GamesOf(db, a, b)|
  {
    WinsCount(db, a, b);
    SubsetCard(WinsOf(db, a, b), GamesOf(db, a, b));
  }

  /**
   * Under the keys of team and match_team, and with one match per team and
   * week, A's row on B's schedule is fixed by the week.
   */
  lemma SameWeekSameRow(db: Database, r1: AltResult, r2: AltResult)
    requires TeamKey(db) && MatchTeamKey(db) && OneMatchPerWeek(db)
    requires r1 in AlternateResults(db) && r2 in AlternateResults(db)
    requires r1.teamId == r2.teamId && r1.otherScheduleTeamId == r2.otherScheduleTeamId && r1.week == r2.week
    ensures r1 == r2
  {
    var m1, ta1, tb1, mta1, mtb1, tc1 := AltResultSource(db, r1);
    var m2, ta2, tb2, mta2, mtb2, tc2 := AltResultSource(db, r2);
    TeamKeyUnique(db, ta1, ta2);
    TeamKeyUnique(db, tb1, tb2);
    assert Plays(m1, tb1.id) && Plays(m2, tb1.id);
    assert m1 == m2;
    BoxesAtKey(db, m1.week, ta1.id);
    assert mta1 in db.matchTeams && mta2 in db.matchTeams;
    BoxesAtKey(db, m1.week, Opponent(m1, tb1.id));
    assert mtb1 in db.matchTeams && mtb2 in db.matchTeams;
    TeamKeyUnique(db, tc1, tc2);
  }

  /** The weeks of B's schedule that give A a row. */
  ghost function WeeksOf(db: Database, a: string, b: string): set<int> {
    set r | r in GamesOf(db, a, b) :: r.week
  }

  /** Rows with pairwise different weeks are as many as their weeks. */
  lemma {:induction false} WeeksCard(rows: set<AltResult>)
    requires forall r1, r2 :: r1 in rows && r2 in rows && r1.week == r2.week ==> r1 == r2
    ensures |set r | r in rows :: r.week| == |rows|
  {
    if rows != {} {
      var x :| x in rows;
      var rest := rows - {x};
      WeeksCard(rest);
      assert (set r | r in rows :: r.week) == (set r | r in rest :: r.week) + {x.week};
    }
  }

  /**
   * Under the keys and one match per team and week, num_wins is at most the
   * number of weeks of B's schedule in which A and B's opponent both scored.
   */
  lemma NumWinsWeeks(db: Database, a: string, b: string)
    requires TeamKey(db) && MatchTeamKey(db) && OneMatchPerWeek(db)
    ensures NumWins(db, a, b) <= |WeeksOf(db, a, b)|
  {
    NumWinsBound(db, a, b);
    var games := GamesOf(db, a, b);
    forall r1, r2 | r1 in games && r2 in games && r1.week == r2.week ensures r1 == r2 {
      SameWeekSameRow(db, r1, r2);
    }
    WeeksCard(games);
  }

  // ------------------------------------------------------------------- result

  /**
   * Every result row names two different teams A and B, B's schedule gave A at
   * least one row, and the count is num_wins of their ids.
   */
  lemma SwappedWinsSource(db: Database, x: SwapRow) returns (ta: Team, tb: Team, r: AltResult)
    requires x in SwappedWins(db)
    ensures ta in db.teams && tb in db.teams && x.targetTeam == ta.name && x.otherScheduleTeam == tb.name
    ensures r in AlternateResults(db) && r.teamId == ta.id && r.otherScheduleTeamId == tb.id && ta.id != tb.id
    ensures x.numWins == NumWins(db, ta.id, tb.id)
  {
    SortByMember(SwapRows(db), SwapLe, x);
    var ar := FlatMapSource(AlternateReality(db), (ar: AltReality) => RealityRows(db, ar), x);
    var k := MapSource(GroupKeys(AlternateResults(db), (r: AltResult) => (r.teamId, r.otherScheduleTeamId)), (k: (string, string)) =>
      AltReality(k.0, k.1, NumWins(db, k.0, k.1)), ar);
    r := GroupKeysSource(AlternateResults(db), (r: AltResult) => (r.teamId, r.otherScheduleTeamId), k);
    ta := FlatMapSource(TeamsWithId(db, ar.teamId), (ta: Team) =>
      Map(TeamsWithId(db, ar.otherScheduleTeamId), (tb: Team) => SwapRow(ta.name, tb.name, ar.numWins)), x);
    tb := MapSource(TeamsWithId(db, ar.otherScheduleTeamId), (tb: Team) => SwapRow(ta.name, tb.name, ar.numWins), x);
    var m, ta', tb', mta, mtb, tc := AltResultSource(db, r);
  }

  /** For every case, the result has the row of its teams A and B with their num_wins. */
  lemma SwappedWinsMember(db: Database, m: Match, ta: Team, tb: Team, mta: MatchTeam, mtb: MatchTeam, tc: Team)
    requires AltCase(db, m, ta, tb, mta, mtb, tc)
    ensures SwapRow(ta.name, tb.name, NumWins(db, ta.id, tb.id)) in SwappedWins(db)
  {
    var r := AltRow(m, ta, tb, mta, mtb, tc);
    var x := SwapRow(ta.name, tb.name, NumWins(db, ta.id, tb.id));
    var ar := AltReality(ta.id, tb.id, NumWins(db, ta.id, tb.id));
    AltResultMember(db, m, ta, tb, mta, mtb, tc);
    GroupKeysMember(AlternateResults(db), (r: AltResult) => (r.teamId, r.otherScheduleTeamId), r);
    MapMember(GroupKeys(AlternateResults(db), (r: AltResult) => (r.teamId, r.otherScheduleTeamId)), (k: (string, string)) =>
      AltReality(k.0, k.1, NumWins(db, k.0, k.1)), (ta.id, tb.id));
    MapMember(TeamsWithId(db, ar.otherScheduleTeamId), (tb: Team) => SwapRow(ta.name, tb.name, ar.numWins), tb);
    FlatMapMember(TeamsWithId(db, ar.teamId), (ta: Team) =>
      Map(TeamsWithId(db, ar.otherScheduleTeamId), (tb: Team) => SwapRow(ta.name, tb.name, ar.numWins)), ta, x);
    FlatMapMember(AlternateReality(db), (ar: AltReality) => RealityRows(db, ar), ar, x);
    SortByMember(SwapRows(db), SwapLe, x);
  }

  lemma SwapOrder()
    ensures TotalPreorder(SwapLe)
  {
    forall x: SwapRow, y: SwapRow ensures SwapLe(x, y) || SwapLe(y, x) {
      LexLeTotal(x.targetTeam, y.targetTeam);
    }
    forall x: SwapRow, y: SwapRow, z: SwapRow | SwapLe(x, y) && SwapLe(y, z) ensures SwapLe(x, z) {
      if x.numWins == y.numWins == z.numWins {
        LexLeTransitive(x.targetTeam, y.targetTeam, z.targetTeam);
      }
    }
  }

  /** The result is non-increasing in num_wins, and rows with equal num_wins are in order of the target team's name. */
  lemma SwappedWinsSorted(db: Database)
    ensures forall i, j :: 0 <= i < j < |SwappedWins(db)| ==>
      SwappedWins(db)[i].numWins >= SwappedWins(db)[j].numWins
    ensures forall i, j :: 0 <= i < j < |SwappedWins(db)| && SwappedWins(db)[i].numWins == SwappedWins(db)[j].numWins ==>
      LexLe(SwappedWins(db)[i].targetTeam, SwappedWins(db)[j].targetTeam)
  {
    SwapOrder();
    SortBySorted(SwapRows(db), SwapLe);
  }
}
