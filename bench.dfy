/**
 * Best bench performance and highest scoring bench (analyze.py, the queries
 * under those headings).
 */
module Bench {
  import opened Rel
  import opened Order
  import opened Schema

  // ---------------------------------------------------- best bench performance

  /** A row of the best bench performance list: team name, player name, points. */
  datatype BenchRow = BenchRow(teamName: string, playerName: string, points: real)

  /** The rows one performance joins to: one per player and team of its ids. */
  function PerformanceBenchRows(db: Database, pp: PlayerPerformance): seq<BenchRow> {
    FlatMap(PlayersWithId(db, pp.playerId), (p: Player) =>
      Map(TeamsWithId(db, pp.teamId), (t: Team) => BenchRow(t.name, p.name, pp.actualPoints)))
  }

  /**
   * `player_performance pp join player p join team t where pp.benched = true`.
   * The WHERE clause reads pp only, so it is applied to pp before the join.
   */
  function BenchRows(db: Database): seq<BenchRow> {
    FlatMap(Filter(db.performances, (pp: PlayerPerformance) => pp.benched), (pp: PlayerPerformance) =>
      PerformanceBenchRows(db, pp))
  }

  predicate PointsDesc(a: BenchRow, b: BenchRow) {
    a.points >= b.points
  }

  /** BEST BENCH PERFORMANCE: the joined rows by actual points, descending. */
  function BestBench(db: Database): seq<BenchRow> {
    SortBy(BenchRows(db), PointsDesc)
  }

  /** A benched performance with its player and its team. */
  predicate BenchedWith(db: Database, pp: PlayerPerformance, p: Player, t: Team) {
    && pp in db.performances && pp.benched
    && p in db.players && p.id == pp.playerId
    && t in db.teams && t.id == pp.teamId
  }

  /** Every row of the list is a benched performance's, with its player's and its team's names. */
  lemma BestBenchSource(db: Database, r: BenchRow) returns (pp: PlayerPerformance, p: Player, t: Team)
    requires r in BestBench(db)
    ensures BenchedWith(db, pp, p, t) && r == BenchRow(t.name, p.name, pp.actualPoints)
  {
    SortByMember(BenchRows(db), PointsDesc, r);
    pp := FlatMapSource(Filter(db.performances, (pp: PlayerPerformance) => pp.benched), (pp: PlayerPerformance) =>
      PerformanceBenchRows(db, pp), r);
    FilterIn(db.performances, (pp: PlayerPerformance) => pp.benched, pp);
    p := FlatMapSource(PlayersWithId(db, pp.playerId), (p: Player) =>
      Map(TeamsWithId(db, pp.teamId), (t: Team) => BenchRow(t.name, p.name, pp.actualPoints)), r);
    t := MapSource(TeamsWithId(db, pp.teamId), (t: Team) => BenchRow(t.name, p.name, pp.actualPoints), r);
  }

  /** Every benched performance is listed, with its player's and its team's names. */
  lemma BestBenchMember(db: Database, pp: PlayerPerformance, p: Player, t: Team)
    requires BenchedWith(db, pp, p, t)
    ensures BenchRow(t.name, p.name, pp.actualPoints) in BestBench(db)
  {
    var r := BenchRow(t.name, p.name, pp.actualPoints);
    MapMember(TeamsWithId(db, pp.teamId), (t: Team) => BenchRow(t.name, p.name, pp.actualPoints), t);
    FlatMapMember(PlayersWithId(db, pp.playerId), (p: Player) =>
      Map(TeamsWithId(db, pp.teamId), (t: Team) => BenchRow(t.name, p.name, pp.actualPoints)), p, r);
    FilterIn(db.performances, (pp: PlayerPerformance) => pp.benched, pp);
    FlatMapMember(Filter(db.performances, (pp: PlayerPerformance) => pp.benched), (pp: PlayerPerformance) =>
      PerformanceBenchRows(db, pp), pp, r);
    SortByMember(BenchRows(db), PointsDesc, r);
  }

  /** The list is non-increasing in points. */
  lemma BestBenchSorted(db: Database)
    ensures forall i, j :: 0 <= i < j < |BestBench(db)| ==> BestBench(db)[i].points >= BestBench(db)[j].points
  {
    SortBySorted(BenchRows(db), PointsDesc);
  }

  // ------------------------------------------------------ highest scoring bench

  /** A row of `team t join player_performance pp on t.id = pp.team_id where pp.benched`: t.id and the points. */
  datatype BenchPoint = BenchPoint(teamId: string, points: real)

  /** The benched performances one team row joins to. */
  function TeamBenchPoints(db: Database, t: Team): seq<BenchPoint> {
    Map(Filter(db.performances, (pp: PlayerPerformance) => t.id == pp.teamId && pp.benched),
      (pp: PlayerPerformance) => BenchPoint(t.id, pp.actualPoints))
  }

  function BenchPointRows(db: Database): seq<BenchPoint> {
    FlatMap(db.teams, (t: Team) => TeamBenchPoints(db, t))
  }

  /** sum(pp.actual_points) over the group of team id `id`. */
  function BenchTotal(db: Database, id: string): real {
    Sum(Filter(BenchPointRows(db), (r: BenchPoint) => r.teamId == id), (r: BenchPoint) => r.points)
  }

  datatype BenchPerf = BenchPerf(teamId: string, points: real)

  /** bench_perf: one row per team id with a benched performance. */
  function BenchPerfs(db: Database): seq<BenchPerf> {
    Map(GroupKeys(BenchPointRows(db), (r: BenchPoint) => r.teamId), (id: string) => BenchPerf(id, BenchTotal(db, id)))
  }

  /** A row of the highest scoring bench list: the team row and its bench points. */
  datatype TeamBench = TeamBench(team: Team, points: real)

  /** The rows of one team: `t join bench_perf bp on t.id = bp.team_id`. */
  function TeamBenches(db: Database, t: Team): seq<TeamBench> {
    Map(Filter(BenchPerfs(db), (bp: BenchPerf) => t.id == bp.teamId), (bp: BenchPerf) => TeamBench(t, bp.points))
  }

  predicate PointsAsc(a: TeamBench, b: TeamBench) {
    a.points <= b.points
  }

  /** HIGHEST SCORING BENCH: each team with benched performances and their total, by total ascending. */
  function HighestScoringBench(db: Database): seq<TeamBench> {
    SortBy(FlatMap(db.teams, (t: Team) => TeamBenches(db, t)), PointsAsc)
  }

  /** A team's bench points: the actual points of its benched performances. */
  function BenchedPoints(db: Database, id: string): real {
    Sum(db.performances, (pp: PlayerPerformance) => if pp.teamId == id && pp.benched then pp.actualPoints else 0.0)
  }

  /** The team has at least one benched performance. */
  predicate HasBench(db: Database, id: string) {
    exists pp {:trigger pp in db.performances} :: pp in db.performances && pp.teamId == id && pp.benched
  }

  /** One team row's share of the total of team id `id`: the team's bench points when it has that id. */
  lemma TeamBenchShare(db: Database, t: Team, id: string)
    ensures Sum(TeamBenchPoints(db, t), (r: BenchPoint) => if r.teamId == id then r.points else 0.0)
      == if t.id == id then BenchedPoints(db, t.id) else 0.0
  {
    var share := (r: BenchPoint) => if r.teamId == id then r.points else 0.0;
    var q := (pp: PlayerPerformance) => t.id == pp.teamId && pp.benched;
    var f := (pp: PlayerPerformance) => BenchPoint(t.id, pp.actualPoints);
    var h := (pp: PlayerPerformance) => if t.id == id then pp.actualPoints else 0.0;
    SumMap(Filter(db.performances, q), f, share, h);
    SumFilter(db.performances, q, h, (pp: PlayerPerformance) => if q(pp) then h(pp) else 0.0);
    if t.id == id {
      SumPointwise(db.performances, (pp: PlayerPerformance) => if q(pp) then h(pp) else 0.0,
        (pp: PlayerPerformance) => if pp.teamId == t.id && pp.benched then pp.actualPoints else 0.0);
    } else {
      SumZero(db.performances, (pp: PlayerPerformance) => if q(pp) then h(pp) else 0.0);
    }
  }

  /** The total of a team id is its bench points, counted once per team row of that id. */
  lemma BenchTotalSpec(db: Database, id: string)
    ensures BenchTotal(db, id) == Sum(TeamsWithId(db, id), (t: Team) => BenchedPoints(db, t.id))
  {
    var share := (r: BenchPoint) => if r.teamId == id then r.points else 0.0;
    var k := (t: Team) => if t.id == id then BenchedPoints(db, t.id) else 0.0;
    SumFilter(BenchPointRows(db), (r: BenchPoint) => r.teamId == id, (r: BenchPoint) => r.points, share);
    forall t | t in db.teams ensures k(t) == Sum(TeamBenchPoints(db, t), share) {
      TeamBenchShare(db, t, id);
    }
    SumFlatMap(db.teams, (t: Team) => TeamBenchPoints(db, t), share, k);
    SumFilter(db.teams, (t: Team) => t.id == id, (t: Team) => BenchedPoints(db, t.id), k);
  }

  /** Under the key of team, the total of a team's id is its bench points. */
  lemma BenchTotalUnique(db: Database, t: Team)
    requires TeamKey(db) && t in db.teams
    ensures BenchTotal(db, t.id) == BenchedPoints(db, t.id)
  {
    BenchTotalSpec(db, t.id);
    var same := TeamsWithId(db, t.id);
    FilterAtMostOne(db.teams, (u: Team) => u.id == t.id);
    assert t in same;
    assert same == [t];
    assert Sum(same, (u: Team) => BenchedPoints(db, u.id)) == BenchedPoints(db, t.id) + Sum([], (u: Team) => BenchedPoints(db, u.id));
  }

  /** Every row of the list is a team with a benched performance, with the total of its id. */
  lemma HighestScoringBenchSource(db: Database, x: TeamBench)
    requires x in HighestScoringBench(db)
    ensures x.team in db.teams && HasBench(db, x.team.id) && x.points == BenchTotal(db, x.team.id)
  {
    SortByMember(FlatMap(db.teams, (t: Team) => TeamBenches(db, t)), PointsAsc, x);
    var t := FlatMapSource(db.teams, (t: Team) => TeamBenches(db, t), x);
    var bp := MapSource(Filter(BenchPerfs(db), (bp: BenchPerf) => t.id == bp.teamId), (bp: BenchPerf) => TeamBench(t, bp.points), x);
    FilterIn(BenchPerfs(db), (bp: BenchPerf) => t.id == bp.teamId, bp);
    var id := MapSource(GroupKeys(BenchPointRows(db), (r: BenchPoint) => r.teamId), (id: string) => BenchPerf(id, BenchTotal(db, id)), bp);
    var row := GroupKeysSource(BenchPointRows(db), (r: BenchPoint) => r.teamId, id);
    var u := FlatMapSource(db.teams, (t: Team) => TeamBenchPoints(db, t), row);
    var pp := MapSource(Filter(db.performances, (pp: PlayerPerformance) => u.id == pp.teamId && pp.benched),
      (pp: PlayerPerformance) => BenchPoint(u.id, pp.actualPoints), row);
    FilterIn(db.performances, (pp: PlayerPerformance) => u.id == pp.teamId && pp.benched, pp);
  }

  /** Every team with a benched performance is listed with the total of its id. */
  lemma HighestScoringBenchMember(db: Database, t: Team)
    requires t in db.teams && HasBench(db, t.id)
    ensures TeamBench(t, BenchTotal(db, t.id)) in HighestScoringBench(db)
  {
    var pp :| pp in db.performances && pp.teamId == t.id && pp.benched;
    var row := BenchPoint(t.id, pp.actualPoints);
    var bp := BenchPerf(t.id, BenchTotal(db, t.id));
    var x := TeamBench(t, BenchTotal(db, t.id));
    FilterIn(db.performances, (pp: PlayerPerformance) => t.id == pp.teamId && pp.benched, pp);
    MapMember(Filter(db.performances, (pp: PlayerPerformance) => t.id == pp.teamId && pp.benched),
      (pp: PlayerPerformance) => BenchPoint(t.id, pp.actualPoints), pp);
    FlatMapMember(db.teams, (t: Team) => TeamBenchPoints(db, t), t, row);
    GroupKeysMember(BenchPointRows(db), (r: BenchPoint) => r.teamId, row);
    MapMember(GroupKeys(BenchPointRows(db), (r: BenchPoint) => r.teamId), (id: string) => BenchPerf(id, BenchTotal(db, id)), t.id);
    FilterIn(BenchPerfs(db), (bp: BenchPerf) => t.id == bp.teamId, bp);
    MapMember(Filter(BenchPerfs(db), (bp: BenchPerf) => t.id == bp.teamId), (bp: BenchPerf) => TeamBench(t, bp.points), bp);
    FlatMapMember(db.teams, (t: Team) => TeamBenches(db, t), t, x);
    SortByMember(FlatMap(db.teams, (t: Team) => TeamBenches(db, t)), PointsAsc, x);
  }

  /** The list is non-decreasing in points. */
  lemma HighestScoringBenchSorted(db: Database)
    ensures forall i, j :: 0 <= i < j < |HighestScoringBench(db)| ==>
      HighestScoringBench(db)[i].points <= HighestScoringBench(db)[j].points
  {
    SortBySorted(FlatMap(db.teams, (t: Team) => TeamBenches(db, t)), PointsAsc);
  }
}
