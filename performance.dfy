/**
 * Best and worst performance against projection (analyze.py, the derived
 * table proj_point_differential and the two queries that read it).
 */
module Performance {
  import opened Rel
  import opened Order
  import opened Schema

  /** A row of the derived table proj_point_differential. */
  datatype ProjDifferential = ProjDifferential(week: int, teamId: string, differential: real)

  /** A row of the best and worst performance results. */
  datatype Performance = Performance(name: string, week: int, differential: real)

  /**
   * proj_point_differential: actual minus projected score of every box score
   * whose actual and projected scores are both positive. (The ORDER BY in its
   * definition gives a stored table no order, so it is not modelled.)
   */
  function ProjPointDifferential(db: Database): seq<ProjDifferential> {
    Map(Filter(db.matchTeams, (box: MatchTeam) => box.actualScore > 0.0 && box.projectedScore > 0.0),
        (box: MatchTeam) => ProjDifferential(box.week, box.teamId, box.actualScore - box.projectedScore))
  }

  /** `proj_point_differential pj join team t on pj.team_id = t.id`, selecting t.name, pj.week, pj.differential. */
  function PerformanceRows(db: Database): seq<Performance> {
    FlatMap(ProjPointDifferential(db), (pj: ProjDifferential) =>
      Map(TeamsWithId(db, pj.teamId), (t: Team) => Performance(t.name, pj.week, pj.differential)))
  }

  predicate DifferentialDesc(a: Performance, b: Performance) {
    a.differential >= b.differential
  }

  predicate DifferentialAsc(a: Performance, b: Performance) {
    a.differential <= b.differential
  }

  /** A team's week that both queries rank: a box score of a known team with both scores positive. */
  predicate Ranked(db: Database, box: MatchTeam, t: Team) {
    && box in db.matchTeams && t in db.teams && t.id == box.teamId
    && box.actualScore > 0.0 && box.projectedScore > 0.0
  }

  /** A row of proj_point_differential comes from a box score with both scores positive. */
  lemma ProjDifferentialSource(db: Database, pj: ProjDifferential) returns (box: MatchTeam)
    requires pj in ProjPointDifferential(db)
    ensures box in db.matchTeams && box.actualScore > 0.0 && box.projectedScore > 0.0
    ensures pj == ProjDifferential(box.week, box.teamId, box.actualScore - box.projectedScore)
  {
    box := MapSource(Filter(db.matchTeams, (box: MatchTeam) => box.actualScore > 0.0 && box.projectedScore > 0.0),
      (box: MatchTeam) => ProjDifferential(box.week, box.teamId, box.actualScore - box.projectedScore), pj);
    FilterIn(db.matchTeams, (box: MatchTeam) => box.actualScore > 0.0 && box.projectedScore > 0.0, box);
  }

  /** A joined row pairs a row of proj_point_differential with a team of its team id. */
  lemma RowSource(db: Database, r: Performance) returns (pj: ProjDifferential, t: Team)
    requires r in PerformanceRows(db)
    ensures pj in ProjPointDifferential(db) && t in db.teams && t.id == pj.teamId
    ensures r == Performance(t.name, pj.week, pj.differential)
  {
    pj := FlatMapSource(ProjPointDifferential(db), (pj: ProjDifferential) =>
      Map(TeamsWithId(db, pj.teamId), (t: Team) => Performance(t.name, pj.week, pj.differential)), r);
    t := MapSource(TeamsWithId(db, pj.teamId), (t: Team) => Performance(t.name, pj.week, pj.differential), r);
  }

  /** Every joined row is a ranked week, with differential actual - projected. */
  lemma RowIsRanked(db: Database, r: Performance)
    requires r in PerformanceRows(db)
    ensures exists box, t {:trigger Ranked(db, box, t)} :: Ranked(db, box, t) && r == Performance(t.name, box.week, box.actualScore - box.projectedScore)
  {
    var pj, t := RowSource(db, r);
    var box := ProjDifferentialSource(db, pj);
    assert Ranked(db, box, t);
  }

  /** Every ranked week is a joined row. */
  lemma RankedIsRow(db: Database, box: MatchTeam, t: Team)
    requires Ranked(db, box, t)
    ensures Performance(t.name, box.week, box.actualScore - box.projectedScore) in PerformanceRows(db)
  {
    var pj := ProjDifferential(box.week, box.teamId, box.actualScore - box.projectedScore);
    var row := Performance(t.name, box.week, box.actualScore - box.projectedScore);
    FilterIn(db.matchTeams, (box: MatchTeam) => box.actualScore > 0.0 && box.projectedScore > 0.0, box);
    MapMember(Filter(db.matchTeams, (box: MatchTeam) => box.actualScore > 0.0 && box.projectedScore > 0.0),
      (box: MatchTeam) => ProjDifferential(box.week, box.teamId, box.actualScore - box.projectedScore), box);
    MapMember(TeamsWithId(db, pj.teamId), (t: Team) => Performance(t.name, pj.week, pj.differential), t);
    FlatMapMember(ProjPointDifferential(db), (pj: ProjDifferential) =>
      Map(TeamsWithId(db, pj.teamId), (t: Team) => Performance(t.name, pj.week, pj.differential)), pj, row);
  }

  lemma DifferentialOrders()
    ensures TotalPreorder(DifferentialDesc) && TotalPreorder(DifferentialAsc)
  {
  }

  /** The joined rows are exactly the ranked weeks. */
  lemma RowsAreRanked(db: Database)
    ensures forall r :: r in PerformanceRows(db) ==>
      exists box, t {:trigger Ranked(db, box, t)} :: Ranked(db, box, t) && r == Performance(t.name, box.week, box.actualScore - box.projectedScore)
    ensures forall box, t {:trigger Ranked(db, box, t)} :: Ranked(db, box, t) ==>
      Performance(t.name, box.week, box.actualScore - box.projectedScore) in PerformanceRows(db)
  {
    forall r | r in PerformanceRows(db)
      ensures exists box, t {:trigger Ranked(db, box, t)} :: Ranked(db, box, t) && r == Performance(t.name, box.week, box.actualScore - box.projectedScore)
    {
      RowIsRanked(db, r);
    }
    forall box, t {:trigger Ranked(db, box, t)} | Ranked(db, box, t)
      ensures Performance(t.name, box.week, box.actualScore - box.projectedScore) in PerformanceRows(db)
    {
      RankedIsRow(db, box, t);
    }
  }

  /**
   * BEST PERFORMANCE: some ranked week with the largest actual - projected,
   * or no row exactly when no week is ranked.
   */
  function BestPerformance(db: Database): (r: Option<Performance>)
    ensures r == None <==> forall box, t {:trigger Ranked(db, box, t)} :: !Ranked(db, box, t)
  {
    RowsAreRanked(db);
    Top(PerformanceRows(db), DifferentialDesc)
  }

  /** The best performance is a ranked week's. */
  lemma BestPerformanceRanked(db: Database)
    ensures var r := BestPerformance(db);
      r != None ==> exists box, t {:trigger Ranked(db, box, t)} :: Ranked(db, box, t) && r.value == Performance(t.name, box.week, box.actualScore - box.projectedScore)
  {
    RowsAreRanked(db);
  }

  /** No ranked week beats the best performance. */
  lemma BestPerformanceMaximal(db: Database, box: MatchTeam, t: Team)
    requires Ranked(db, box, t)
    ensures BestPerformance(db) != None
    ensures BestPerformance(db).value.differential >= box.actualScore - box.projectedScore
  {
    RankedIsRow(db, box, t);
    DifferentialOrders();
    TopFirst(PerformanceRows(db), DifferentialDesc, Performance(t.name, box.week, box.actualScore - box.projectedScore));
  }

  /**
   * WORST PERFORMANCE: some ranked week with the smallest actual - projected,
   * or no row exactly when no week is ranked.
   */
  function WorstPerformance(db: Database): (r: Option<Performance>)
    ensures r == None <==> forall box, t {:trigger Ranked(db, box, t)} :: !Ranked(db, box, t)
  {
    RowsAreRanked(db);
    Top(PerformanceRows(db), DifferentialAsc)
  }

  /** The worst performance is a ranked week's. */
  lemma WorstPerformanceRanked(db: Database)
    ensures var r := WorstPerformance(db);
      r != None ==> exists box, t {:trigger Ranked(db, box, t)} :: Ranked(db, box, t) && r.value == Performance(t.name, box.week, box.actualScore - box.projectedScore)
  {
    RowsAreRanked(db);
  }

  /** No ranked week falls below the worst performance. */
  lemma WorstPerformanceMinimal(db: Database, box: MatchTeam, t: Team)
    requires Ranked(db, box, t)
    ensures WorstPerformance(db) != None
    ensures WorstPerformance(db).value.differential <= box.actualScore - box.projectedScore
  {
    RankedIsRow(db, box, t);
    DifferentialOrders();
    TopFirst(PerformanceRows(db), DifferentialAsc, Performance(t.name, box.week, box.actualScore - box.projectedScore));
  }
}
