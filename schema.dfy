/**
 * The league snapshot the analysis reads: six tables, each a sequence of rows.
 *
 * Identifiers are text, weeks are integers, and scores and points are reals:
 * the analysis only compares, subtracts, takes absolute values of and sums
 * them, so no floating-point effect enters.
 */
module Schema {
  import opened Rel

  datatype Team = Team(id: string, name: string)
  datatype Player = Player(id: string, name: string)
  datatype Match = Match(week: int, homeTeamId: string, awayTeamId: string)
  /** A box score: one team's actual and projected score in one week. */
  datatype MatchTeam = MatchTeam(week: int, teamId: string, actualScore: real, projectedScore: real)
  datatype PlayerPerformance = PlayerPerformance(
    week: int, playerId: string, teamId: string, position: string,
    benched: bool, actualPoints: real, projectedPoints: real)
  datatype Activity = Activity(teamId: string, action: string, playerId: string)

  datatype Database = Database(
    teams: seq<Team>,
    players: seq<Player>,
    matches: seq<Match>,
    matchTeams: seq<MatchTeam>,
    performances: seq<PlayerPerformance>,
    activities: seq<Activity>)

  /** `join team t on t.id = id` */
  function TeamsWithId(db: Database, id: string): (r: seq<Team>)
    ensures forall t {:trigger t in r} :: t in r <==> t in db.teams && t.id == id
  {
    forall t ensures t in Filter(db.teams, (t: Team) => t.id == id) <==> t in db.teams && t.id == id {
      FilterIn(db.teams, (t: Team) => t.id == id, t);
    }
    Filter(db.teams, (t: Team) => t.id == id)
  }

  /** `join player p on p.id = id` */
  function PlayersWithId(db: Database, id: string): (r: seq<Player>)
    ensures forall p {:trigger p in r} :: p in r <==> p in db.players && p.id == id
  {
    forall p ensures p in Filter(db.players, (p: Player) => p.id == id) <==> p in db.players && p.id == id {
      FilterIn(db.players, (p: Player) => p.id == id, p);
    }
    Filter(db.players, (p: Player) => p.id == id)
  }

  /** `join match_team mt on mt.week = week and mt.team_id = teamId` */
  function BoxesAt(db: Database, week: int, teamId: string): (r: seq<MatchTeam>)
    ensures forall mt {:trigger mt in r} :: mt in r <==> mt in db.matchTeams && mt.week == week && mt.teamId == teamId
  {
    forall mt ensures mt in Filter(db.matchTeams, (mt: MatchTeam) => mt.week == week && mt.teamId == teamId)
      <==> mt in db.matchTeams && mt.week == week && mt.teamId == teamId
    {
      FilterIn(db.matchTeams, (mt: MatchTeam) => mt.week == week && mt.teamId == teamId, mt);
    }
    Filter(db.matchTeams, (mt: MatchTeam) => mt.week == week && mt.teamId == teamId)
  }

  /** A team's actual score in a week: its box score's, or 0 when it has none. */
  function ScoreAt(db: Database, week: int, teamId: string): real {
    var boxes := BoxesAt(db, week, teamId);
    if boxes == [] then 0.0 else boxes[0].actualScore
  }

  /** Primary key `team.id`. */
  predicate TeamKey(db: Database) {
    forall i, j :: 0 <= i < j < |db.teams| ==> db.teams[i].id != db.teams[j].id
  }

  /** Primary key `player.id`. */
  predicate PlayerKey(db: Database) {
    forall i, j :: 0 <= i < j < |db.players| ==> db.players[i].id != db.players[j].id
  }

  /** Primary key `match_team (week, team_id)`. */
  predicate MatchTeamKey(db: Database) {
    forall i, j :: 0 <= i < j < |db.matchTeams| ==>
      db.matchTeams[i].week != db.matchTeams[j].week || db.matchTeams[i].teamId != db.matchTeams[j].teamId
  }

  /** No two teams share a display name (not a key of the schema). */
  predicate TeamNamesUnique(db: Database) {
    forall i, j :: 0 <= i < j < |db.teams| ==> db.teams[i].name != db.teams[j].name
  }

  /** Ingestion writes both box scores of every match it writes. */
  predicate MatchesHaveBoxes(db: Database) {
    forall m {:trigger m in db.matches} :: m in db.matches ==> BoxesAt(db, m.week, m.homeTeamId) != [] && BoxesAt(db, m.week, m.awayTeamId) != []
  }

  /** m is a match of the team with that id. */
  predicate Plays(m: Match, id: string) {
    m.homeTeamId == id || m.awayTeamId == id
  }

  /**
   * A team plays at most one match per week: ingestion writes one match per
   * box score of the week together with both of its box scores, so a second
   * match would repeat a (week, team_id) of match_team.
   */
  ghost predicate OneMatchPerWeek(db: Database) {
    forall m1, m2, id {:trigger Plays(m1, id), Plays(m2, id)} ::
      m1 in db.matches && m2 in db.matches && m1.week == m2.week && Plays(m1, id) && Plays(m2, id) ==> m1 == m2
  }

  /** Under the primary key of team, an id names one row. */
  lemma TeamKeyUnique(db: Database, t: Team, u: Team)
    requires TeamKey(db) && t in db.teams && u in db.teams && t.id == u.id
    ensures t == u
  {
    var i :| 0 <= i < |db.teams| && db.teams[i] == t;
    var j :| 0 <= j < |db.teams| && db.teams[j] == u;
    assert i == j;
  }

  /** Under the primary key, a (week, team) pair has at most one box score. */
  lemma BoxesAtKey(db: Database, week: int, teamId: string)
    requires MatchTeamKey(db)
    ensures |BoxesAt(db, week, teamId)| <= 1
    ensures forall mt {:trigger mt in db.matchTeams} :: mt in db.matchTeams && mt.week == week && mt.teamId == teamId ==>
      BoxesAt(db, week, teamId) == [mt] && ScoreAt(db, week, teamId) == mt.actualScore
  {
    FilterAtMostOne(db.matchTeams, (mt: MatchTeam) => mt.week == week && mt.teamId == teamId);
    var r := BoxesAt(db, week, teamId);
    forall mt | mt in db.matchTeams && mt.week == week && mt.teamId == teamId
      ensures r == [mt]
    {
      assert mt in r;
    }
  }
}
