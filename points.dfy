/**
 * Most points for and most points against (analyze.py, the two queries under
 * those headings).
 */
module Points {
  import opened Rel
  import opened Order
  import opened Schema

  /** A row of the common table team_score. */
  datatype TeamScore = TeamScore(teamId: string, points: real)

  /** A row of the points-for and points-against results. */
  datatype TeamPoints = TeamPoints(name: string, points: real)

  predicate PointsDesc(a: TeamPoints, b: TeamPoints) {
    a.points >= b.points
  }

  lemma PointsDescTotalPreorder()
    ensures TotalPreorder(PointsDesc)
  {
  }

  // ---------------------------------------------------------------- points for

  /** sum(mt.actual_score) over one group of team_score. */
  function TeamTotal(db: Database, id: string): real {
    Sum(Filter(db.matchTeams, (mt: MatchTeam) => mt.teamId == id), (mt: MatchTeam) => mt.actualScore)
  }

  /** team_score: one row per team id that has box scores, with the total of their actual scores. */
  function TeamScores(db: Database): seq<TeamScore> {
    Map(GroupKeys(db.matchTeams, (mt: MatchTeam) => mt.teamId), (id: string) => TeamScore(id, TeamTotal(db, id)))
  }

  /** `team t join team_score ts on t.id = ts.team_id`, for one team t. */
  function ScoresOfTeam(db: Database, t: Team): seq<TeamPoints> {
    FlatMap(TeamScores(db), (ts: TeamScore) => if t.id == ts.teamId then [TeamPoints(t.name, ts.points)] else [])
  }

  /** MOST POINTS FOR: each team's name and total, by total descending. */
  function MostPointsFor(db: Database): seq<TeamPoints> {
    SortBy(FlatMap(db.teams, (t: Team) => ScoresOfTeam(db, t)), PointsDesc)
  }

  /** A team's points for: its actual score summed over every box score it has, weeks scoring 0 included. */
  function PointsFor(db: Database, id: string): real {
    Sum(db.matchTeams, (mt: MatchTeam) => if mt.teamId == id then mt.actualScore else 0.0)
  }

  /** The team has at least one box score. */
  predicate HasBoxes(db: Database, id: string) {
    exists mt {:trigger mt in db.matchTeams} :: mt in db.matchTeams && mt.teamId == id
  }

  /** A group's total in team_score is the team's points for. */
  lemma TeamTotalIsPointsFor(db: Database, id: string)
    ensures TeamTotal(db, id) == PointsFor(db, id)
  {
    SumFilter(db.matchTeams, (mt: MatchTeam) => mt.teamId == id, (mt: MatchTeam) => mt.actualScore,
      (mt: MatchTeam) => if mt.teamId == id then mt.actualScore else 0.0);
  }

  /** A team joins exactly one row of team_score when it has box scores, and none otherwise. */
  lemma ScoresOfTeamLookup(db: Database, t: Team)
    ensures ScoresOfTeam(db, t) == if HasBoxes(db, t.id) then [TeamPoints(t.name, PointsFor(db, t.id))] else []
  {
    var ks := GroupKeys(db.matchTeams, (mt: MatchTeam) => mt.teamId);
    var f := (id: string) => TeamPoints(t.name, TeamTotal(db, id));
    var gh := (id: string) => if id == t.id then [f(id)] else [];
    FlatMapMap(ks, (id: string) => TeamScore(id, TeamTotal(db, id)),
      (ts: TeamScore) => if t.id == ts.teamId then [TeamPoints(t.name, ts.points)] else [], gh);
    FlatMapKeyLookup(ks, t.id, gh, f);
    if HasBoxes(db, t.id) {
      var mt :| mt in db.matchTeams && mt.teamId == t.id;
      GroupKeysMember(db.matchTeams, (mt: MatchTeam) => mt.teamId, mt);
    }
    if t.id in ks {
      var mt := GroupKeysSource(db.matchTeams, (mt: MatchTeam) => mt.teamId, t.id);
    }
    TeamTotalIsPointsFor(db, t.id);
  }

  /**
   * The points-for list holds, for every team with box scores, its name and
   * its points for, as often as the team occurs, and nothing else; and it is
   * ordered by points descending.
   */
  lemma MostPointsForSpec(db: Database)
    ensures multiset(MostPointsFor(db))
      == multiset(Map(Filter(db.teams, (t: Team) => HasBoxes(db, t.id)), (t: Team) => TeamPoints(t.name, PointsFor(db, t.id))))
    ensures SortedBy(MostPointsFor(db), PointsDesc)
  {
    forall t: Team {:trigger ScoresOfTeam(db, t)}
      ensures ScoresOfTeam(db, t) == if HasBoxes(db, t.id) then [TeamPoints(t.name, PointsFor(db, t.id))] else []
    {
      ScoresOfTeamLookup(db, t);
    }
    FlatMapOptional(db.teams, (t: Team) => ScoresOfTeam(db, t), (t: Team) => HasBoxes(db, t.id),
      (t: Team) => TeamPoints(t.name, PointsFor(db, t.id)));
    PointsDescTotalPreorder();
    SortBySorted(FlatMap(db.teams, (t: Team) => ScoresOfTeam(db, t)), PointsDesc);
  }

  // ------------------------------------------------------------ points against

  /** A row of the points-against join before grouping: a team's name and what its opponent scored in one match. */
  datatype AgainstRow = AgainstRow(name: string, against: real)

  /** `t.id = m.home_team_id or t.id = m.away_team_id` */
  predicate Involves(m: Match, id: string) {
    id == m.homeTeamId || id == m.awayTeamId
  }

  /** The rows match m gives team t: one per pair of its home and away box scores. */
  function MatchAgainstRows(db: Database, t: Team, m: Match): seq<AgainstRow> {
    FlatMap(BoxesAt(db, m.week, m.homeTeamId), (home: MatchTeam) =>
      Map(BoxesAt(db, m.week, m.awayTeamId), (away: MatchTeam) =>
        AgainstRow(t.name, if t.id == m.homeTeamId then away.actualScore else home.actualScore)))
  }

  /** The rows of team t: those of every match it plays in. */
  function TeamAgainstRows(db: Database, t: Team): seq<AgainstRow> {
    FlatMap(Filter(db.matches, (m: Match) => Involves(m, t.id)), (m: Match) => MatchAgainstRows(db, t, m))
  }

  /** The joined rows `team t join match m join match_team home join match_team away`. */
  function AgainstRows(db: Database): seq<AgainstRow> {
    FlatMap(db.teams, (t: Team) => TeamAgainstRows(db, t))
  }

  /** The sum of the opponents' scores over the group of name n. */
  function NameTotal(db: Database, n: string): real {
    Sum(Filter(AgainstRows(db), (r: AgainstRow) => r.name == n), (r: AgainstRow) => r.against)
  }

  /** The grouped rows: one per team name. */
  function PointsAgainstRows(db: Database): seq<TeamPoints> {
    Map(GroupKeys(AgainstRows(db), (r: AgainstRow) => r.name), (n: string) => TeamPoints(n, NameTotal(db, n)))
  }

  /** MOST POINTS AGAINST: per team name, the opponents' total, by total descending. */
  function MostPointsAgainst(db: Database): seq<TeamPoints> {
    SortBy(PointsAgainstRows(db), PointsDesc)
  }

  /** What the team's opponent scored in match m: the away score when it is the home team, the home score otherwise. */
  function OpponentScore(db: Database, m: Match, id: string): real {
    if id == m.homeTeamId then ScoreAt(db, m.week, m.awayTeamId) else ScoreAt(db, m.week, m.homeTeamId)
  }

  /** A team's points against: its opponents' scores summed over the matches it plays in. */
  function PointsAgainst(db: Database, id: string): real {
    Sum(db.matches, (m: Match) => if Involves(m, id) then OpponentScore(db, m, id) else 0.0)
  }

  /** With one box score per team and week, and both box scores of every match present, a match gives a team one row. */
  lemma MatchAgainstRowsKey(db: Database, t: Team, m: Match)
    requires MatchTeamKey(db) && MatchesHaveBoxes(db) && m in db.matches
    ensures MatchAgainstRows(db, t, m) == [AgainstRow(t.name, OpponentScore(db, m, t.id))]
  {
    var homes, aways := BoxesAt(db, m.week, m.homeTeamId), BoxesAt(db, m.week, m.awayTeamId);
    BoxesAtKey(db, m.week, m.homeTeamId);
    BoxesAtKey(db, m.week, m.awayTeamId);
    assert homes[0] in homes && aways[0] in aways;
    assert homes == [homes[0]] && aways == [aways[0]];
    assert ScoreAt(db, m.week, m.homeTeamId) == homes[0].actualScore;
    assert ScoreAt(db, m.week, m.awayTeamId) == aways[0].actualScore;
    var g := (home: MatchTeam) => Map(aways, (away: MatchTeam) =>
        AgainstRow(t.name, if t.id == m.homeTeamId then away.actualScore else home.actualScore));
    assert FlatMap(homes, g) == g(homes[0]) + FlatMap(homes[1..], g);
    assert homes[1..] == [];
    assert g(homes[0]) == [AgainstRow(t.name, OpponentScore(db, m, t.id))];
  }

  /** The share of team t in the total of name n: its points against when it bears that name, else nothing. */
  lemma TeamAgainstShare(db: Database, t: Team, n: string)
    requires MatchTeamKey(db) && MatchesHaveBoxes(db)
    ensures Sum(TeamAgainstRows(db, t), (r: AgainstRow) => if r.name == n then r.against else 0.0)
      == if t.name == n then PointsAgainst(db, t.id) else 0.0
  {
    var ms := Filter(db.matches, (m: Match) => Involves(m, t.id));
    var share := (r: AgainstRow) => if r.name == n then r.against else 0.0;
    var k := (m: Match) => if t.name == n then OpponentScore(db, m, t.id) else 0.0;
    forall m | m in ms ensures k(m) == Sum(MatchAgainstRows(db, t, m), share) {
      FilterIn(db.matches, (m: Match) => Involves(m, t.id), m);
      MatchAgainstRowsKey(db, t, m);
    }
    SumFlatMap(ms, (m: Match) => MatchAgainstRows(db, t, m), share, k);
    if t.name == n {
      SumFilter(db.matches, (m: Match) => Involves(m, t.id), (m: Match) => OpponentScore(db, m, t.id),
        (m: Match) => if Involves(m, t.id) then OpponentScore(db, m, t.id) else 0.0);
      SumPointwise(ms, k, (m: Match) => OpponentScore(db, m, t.id));
    } else {
      SumZero(ms, k);
    }
  }

  /**
   * The total of name n is the sum of the points against of the teams that
   * bear that name (a single team when names are unique).
   */
  lemma NameTotalSpec(db: Database, n: string)
    requires MatchTeamKey(db) && MatchesHaveBoxes(db)
    ensures NameTotal(db, n) == Sum(Filter(db.teams, (t: Team) => t.name == n), (t: Team) => PointsAgainst(db, t.id))
  {
    var share := (r: AgainstRow) => if r.name == n then r.against else 0.0;
    var k := (t: Team) => if t.name == n then PointsAgainst(db, t.id) else 0.0;
    SumFilter(AgainstRows(db), (r: AgainstRow) => r.name == n, (r: AgainstRow) => r.against, share);
    forall t | t in db.teams ensures k(t) == Sum(TeamAgainstRows(db, t), share) {
      TeamAgainstShare(db, t, n);
    }
    SumFlatMap(db.teams, (t: Team) => TeamAgainstRows(db, t), share, k);
    SumFilter(db.teams, (t: Team) => t.name == n, (t: Team) => PointsAgainst(db, t.id), k);
  }

  /** With unique team names, the total of a team's name is that team's points against. */
  lemma NameTotalUnique(db: Database, t: Team)
    requires MatchTeamKey(db) && MatchesHaveBoxes(db) && TeamNamesUnique(db) && t in db.teams
    ensures NameTotal(db, t.name) == PointsAgainst(db, t.id)
  {
    NameTotalSpec(db, t.name);
    var named := Filter(db.teams, (u: Team) => u.name == t.name);
    FilterAtMostOne(db.teams, (u: Team) => u.name == t.name);
    FilterIn(db.teams, (u: Team) => u.name == t.name, t);
    assert named == [t];
    assert Sum(named, (u: Team) => PointsAgainst(db, u.id)) == PointsAgainst(db, t.id) + Sum([], (u: Team) => PointsAgainst(db, u.id));
  }

  /** A joined row comes from a team of that name and a match the team plays in. */
  lemma AgainstRowSource(db: Database, r: AgainstRow) returns (t: Team, m: Match)
    requires r in AgainstRows(db)
    ensures t in db.teams && t.name == r.name && m in db.matches && Involves(m, t.id)
  {
    t := FlatMapSource(db.teams, (t: Team) => TeamAgainstRows(db, t), r);
    m := FlatMapSource(Filter(db.matches, (m: Match) => Involves(m, t.id)), (m: Match) => MatchAgainstRows(db, t, m), r);
    FilterIn(db.matches, (m: Match) => Involves(m, t.id), m);
    var home := FlatMapSource(BoxesAt(db, m.week, m.homeTeamId), (home: MatchTeam) =>
      Map(BoxesAt(db, m.week, m.awayTeamId), (away: MatchTeam) =>
        AgainstRow(t.name, if t.id == m.homeTeamId then away.actualScore else home.actualScore)), r);
    var away := MapSource(BoxesAt(db, m.week, m.awayTeamId), (away: MatchTeam) =>
        AgainstRow(t.name, if t.id == m.homeTeamId then away.actualScore else home.actualScore), r);
  }

  /** A team that plays in a match whose box scores are both present gives a joined row. */
  lemma AgainstRowOf(db: Database, t: Team, m: Match) returns (r: AgainstRow)
    requires t in db.teams && m in db.matches && Involves(m, t.id)
    requires BoxesAt(db, m.week, m.homeTeamId) != [] && BoxesAt(db, m.week, m.awayTeamId) != []
    ensures r in AgainstRows(db) && r.name == t.name
  {
    var home, away := BoxesAt(db, m.week, m.homeTeamId)[0], BoxesAt(db, m.week, m.awayTeamId)[0];
    var g := (home: MatchTeam) => Map(BoxesAt(db, m.week, m.awayTeamId), (away: MatchTeam) =>
        AgainstRow(t.name, if t.id == m.homeTeamId then away.actualScore else home.actualScore));
    r := AgainstRow(t.name, if t.id == m.homeTeamId then away.actualScore else home.actualScore);
    MapMember(BoxesAt(db, m.week, m.awayTeamId), (away: MatchTeam) =>
        AgainstRow(t.name, if t.id == m.homeTeamId then away.actualScore else home.actualScore), away);
    FlatMapMember(BoxesAt(db, m.week, m.homeTeamId), g, home, r);
    FilterIn(db.matches, (m: Match) => Involves(m, t.id), m);
    FlatMapMember(Filter(db.matches, (m: Match) => Involves(m, t.id)), (m: Match) => MatchAgainstRows(db, t, m), m, r);
    FlatMapMember(db.teams, (t: Team) => TeamAgainstRows(db, t), t, r);
  }

  /**
   * Every row of the points-against list is a name some team bears that plays
   * in some match, with the total of that name.
   */
  lemma MostPointsAgainstSound(db: Database, r: TeamPoints)
    requires r in MostPointsAgainst(db)
    ensures r.points == NameTotal(db, r.name)
    ensures exists t, m {:trigger t in db.teams, m in db.matches} :: t in db.teams && t.name == r.name && m in db.matches && Involves(m, t.id)
  {
    SortByMember(PointsAgainstRows(db), PointsDesc, r);
    var n := MapSource(GroupKeys(AgainstRows(db), (r: AgainstRow) => r.name), (n: string) => TeamPoints(n, NameTotal(db, n)), r);
    var x := GroupKeysSource(AgainstRows(db), (r: AgainstRow) => r.name, n);
    var t, m := AgainstRowSource(db, x);
  }

  /** Every team that plays in some match has its name in the points-against list, with the total of that name. */
  lemma MostPointsAgainstComplete(db: Database, t: Team, m: Match)
    requires MatchesHaveBoxes(db)
    requires t in db.teams && m in db.matches && Involves(m, t.id)
    ensures TeamPoints(t.name, NameTotal(db, t.name)) in MostPointsAgainst(db)
  {
    var x := AgainstRowOf(db, t, m);
    var ks := GroupKeys(AgainstRows(db), (r: AgainstRow) => r.name);
    GroupKeysMember(AgainstRows(db), (r: AgainstRow) => r.name, x);
    MapMember(ks, (n: string) => TeamPoints(n, NameTotal(db, n)), t.name);
    SortByMember(PointsAgainstRows(db), PointsDesc, TeamPoints(t.name, NameTotal(db, t.name)));
  }

  /** No name appears twice in the points-against list. */
  lemma MostPointsAgainstOnce(db: Database, n: string)
    ensures |Filter(MostPointsAgainst(db), (r: TeamPoints) => r.name == n)| <= 1
  {
    var ks := GroupKeys(AgainstRows(db), (r: AgainstRow) => r.name);
    FilterCountPermutation(MostPointsAgainst(db), PointsAgainstRows(db), (r: TeamPoints) => r.name == n);
    FilterMap(ks, (k: string) => TeamPoints(k, NameTotal(db, k)), (r: TeamPoints) => r.name == n, (k: string) => k == n);
    NoDuplicatesOnce(ks, n, (k: string) => k == n);
  }

  /** The points-against list is ordered by total, descending. */
  lemma MostPointsAgainstSorted(db: Database)
    ensures SortedBy(MostPointsAgainst(db), PointsDesc)
  {
    PointsDescTotalPreorder();
    SortBySorted(PointsAgainstRows(db), PointsDesc);
  }
}
