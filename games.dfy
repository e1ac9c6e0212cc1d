/**
 * Closest game and biggest blowout (analyze.py, the derived table
 * point_differential and the two queries that read it).
 */
module Games {
  import opened Rel
  import opened Order
  import opened Schema

  /** A row of point_differential: a match's week, both teams' names and scores, and the score gap. */
  datatype Game = Game(week: int, homeName: string, homeScore: real, awayName: string, awayScore: real, differential: real)

  /** One combination the join of point_differential pairs up: a match, its two box scores and its two teams. */
  datatype Pairing = Pairing(m: Match, home: MatchTeam, away: MatchTeam, homeTeam: Team, awayTeam: Team)

  function Abs(x: real): real {
    if x < 0.0 then -x else x
  }

  /** The output row of one pairing. */
  function GameOf(p: Pairing): Game {
    Game(p.m.week, p.homeTeam.name, p.home.actualScore, p.awayTeam.name, p.away.actualScore,
      Abs(p.home.actualScore - p.away.actualScore))
  }

  /** The rows of one match, its home box score and its away box score: one per home team and away team. */
  function BoxGames(db: Database, m: Match, home: MatchTeam, away: MatchTeam): seq<Game> {
    FlatMap(TeamsWithId(db, home.teamId), (homeTeam: Team) =>
      Map(TeamsWithId(db, away.teamId), (awayTeam: Team) => GameOf(Pairing(m, home, away, homeTeam, awayTeam))))
  }

  /** The rows of one match: one per home box score and away box score. */
  function MatchGames(db: Database, m: Match): seq<Game> {
    FlatMap(BoxesAt(db, m.week, m.homeTeamId), (home: MatchTeam) =>
      FlatMap(BoxesAt(db, m.week, m.awayTeamId), (away: MatchTeam) => BoxGames(db, m, home, away)))
  }

  /**
   * `match m join match_team home_box join match_team away_box join team
   * home_team join team away_team`, each on its stated keys, projected.
   */
  function GameRows(db: Database): seq<Game> {
    FlatMap(db.matches, (m: Match) => MatchGames(db, m))
  }

  /** point_differential: the joined rows where both teams scored. */
  function PointDifferential(db: Database): seq<Game> {
    Filter(GameRows(db), (g: Game) => g.homeScore > 0.0 && g.awayScore > 0.0)
  }

  /** A pairing the join produces and the WHERE clause keeps. */
  predicate Played(db: Database, p: Pairing) {
    && p.m in db.matches
    && p.home in db.matchTeams && p.home.week == p.m.week && p.home.teamId == p.m.homeTeamId
    && p.away in db.matchTeams && p.away.week == p.m.week && p.away.teamId == p.m.awayTeamId
    && p.homeTeam in db.teams && p.homeTeam.id == p.m.homeTeamId
    && p.awayTeam in db.teams && p.awayTeam.id == p.m.awayTeamId
    && p.home.actualScore > 0.0 && p.away.actualScore > 0.0
  }

  /** A row of the join comes from some match. */
  lemma GameRowsSource(db: Database, g: Game) returns (m: Match)
    requires g in GameRows(db)
    ensures m in db.matches && g in MatchGames(db, m)
  {
    m := FlatMapSource(db.matches, (m: Match) => MatchGames(db, m), g);
  }

  /** A row of one match comes from one of its home and one of its away box scores. */
  lemma MatchGamesSource(db: Database, m: Match, g: Game) returns (home: MatchTeam, away: MatchTeam)
    requires g in MatchGames(db, m)
    ensures home in BoxesAt(db, m.week, m.homeTeamId) && away in BoxesAt(db, m.week, m.awayTeamId)
    ensures g in BoxGames(db, m, home, away)
  {
    home := FlatMapSource(BoxesAt(db, m.week, m.homeTeamId), (home: MatchTeam) =>
      FlatMap(BoxesAt(db, m.week, m.awayTeamId), (away: MatchTeam) => BoxGames(db, m, home, away)), g);
    away := FlatMapSource(BoxesAt(db, m.week, m.awayTeamId), (away: MatchTeam) => BoxGames(db, m, home, away), g);
  }

  /** A row of one pair of box scores comes from a team of each. */
  lemma BoxGamesSource(db: Database, m: Match, home: MatchTeam, away: MatchTeam, g: Game) returns (homeTeam: Team, awayTeam: Team)
    requires g in BoxGames(db, m, home, away)
    ensures homeTeam in TeamsWithId(db, home.teamId) && awayTeam in TeamsWithId(db, away.teamId)
    ensures g == GameOf(Pairing(m, home, away, homeTeam, awayTeam))
  {
    homeTeam := FlatMapSource(TeamsWithId(db, home.teamId), (homeTeam: Team) =>
      Map(TeamsWithId(db, away.teamId), (awayTeam: Team) => GameOf(Pairing(m, home, away, homeTeam, awayTeam))), g);
    awayTeam := MapSource(TeamsWithId(db, away.teamId), (awayTeam: Team) =>
      GameOf(Pairing(m, home, away, homeTeam, awayTeam)), g);
  }

  /** Every row of point_differential is a played pairing's, with a non-negative gap between the two scores. */
  lemma GameSource(db: Database, g: Game) returns (p: Pairing)
    requires g in PointDifferential(db)
    ensures Played(db, p) && g == GameOf(p)
    ensures g.differential >= 0.0
    ensures g.differential == g.homeScore - g.awayScore || g.differential == g.awayScore - g.homeScore
  {
    FilterIn(GameRows(db), (g: Game) => g.homeScore > 0.0 && g.awayScore > 0.0, g);
    var m := GameRowsSource(db, g);
    var home, away := MatchGamesSource(db, m, g);
    var homeTeam, awayTeam := BoxGamesSource(db, m, home, away, g);
    p := Pairing(m, home, away, homeTeam, awayTeam);
  }

  /** Every played pairing is a row of point_differential. */
  lemma GameMember(db: Database, p: Pairing)
    requires Played(db, p)
    ensures GameOf(p) in PointDifferential(db)
  {
    var m, home, away, homeTeam, awayTeam := p.m, p.home, p.away, p.homeTeam, p.awayTeam;
    var g := GameOf(p);
    MapMember(TeamsWithId(db, away.teamId), (awayTeam: Team) => GameOf(Pairing(m, home, away, homeTeam, awayTeam)), awayTeam);
    FlatMapMember(TeamsWithId(db, home.teamId), (homeTeam: Team) =>
      Map(TeamsWithId(db, away.teamId), (awayTeam: Team) => GameOf(Pairing(m, home, away, homeTeam, awayTeam))), homeTeam, g);
    FlatMapMember(BoxesAt(db, m.week, m.awayTeamId), (away: MatchTeam) => BoxGames(db, m, home, away), away, g);
    FlatMapMember(BoxesAt(db, m.week, m.homeTeamId), (home: MatchTeam) =>
      FlatMap(BoxesAt(db, m.week, m.awayTeamId), (away: MatchTeam) => BoxGames(db, m, home, away)), home, g);
    FlatMapMember(db.matches, (m: Match) => MatchGames(db, m), m, g);
    FilterIn(GameRows(db), (g: Game) => g.homeScore > 0.0 && g.awayScore > 0.0, g);
  }

  predicate DifferentialAsc(a: Game, b: Game) {
    a.differential <= b.differential
  }

  predicate DifferentialDesc(a: Game, b: Game) {
    a.differential >= b.differential
  }

  lemma DifferentialOrders()
    ensures TotalPreorder(DifferentialAsc) && TotalPreorder(DifferentialDesc)
  {
  }

  /** The rows of point_differential are exactly the played pairings. */
  lemma GamesArePlayed(db: Database)
    ensures forall g :: g in PointDifferential(db) ==> exists p :: Played(db, p) && g == GameOf(p)
    ensures forall p :: Played(db, p) ==> GameOf(p) in PointDifferential(db)
  {
    forall g | g in PointDifferential(db) ensures exists p :: Played(db, p) && g == GameOf(p) {
      var p := GameSource(db, g);
    }
    forall p | Played(db, p) ensures GameOf(p) in PointDifferential(db) {
      GameMember(db, p);
    }
  }

  /** CLOSEST GAME: a played pairing with the smallest score gap, or no row exactly when none was played. */
  function ClosestGame(db: Database): (r: Option<Game>)
    ensures r == None <==> forall p :: !Played(db, p)
  {
    GamesArePlayed(db);
    Top(PointDifferential(db), DifferentialAsc)
  }

  /** BIGGEST BLOWOUT: a played pairing with the largest score gap, or no row exactly when none was played. */
  function BiggestBlowout(db: Database): (r: Option<Game>)
    ensures r == None <==> forall p :: !Played(db, p)
  {
    GamesArePlayed(db);
    Top(PointDifferential(db), DifferentialDesc)
  }

  /** The closest game is a played pairing's row. */
  lemma ClosestGamePlayed(db: Database)
    ensures ClosestGame(db) != None ==> exists p :: Played(db, p) && ClosestGame(db).value == GameOf(p)
  {
    GamesArePlayed(db);
  }

  /** No played pairing has a smaller gap than the closest game. */
  lemma ClosestGameMinimal(db: Database, p: Pairing)
    requires Played(db, p)
    ensures ClosestGame(db) != None
    ensures ClosestGame(db).value.differential <= Abs(p.home.actualScore - p.away.actualScore)
  {
    GameMember(db, p);
    DifferentialOrders();
    TopFirst(PointDifferential(db), DifferentialAsc, GameOf(p));
  }

  /** The biggest blowout is a played pairing's row. */
  lemma BiggestBlowoutPlayed(db: Database)
    ensures BiggestBlowout(db) != None ==> exists p :: Played(db, p) && BiggestBlowout(db).value == GameOf(p)
  {
    GamesArePlayed(db);
  }

  /** No played pairing has a larger gap than the biggest blowout. */
  lemma BiggestBlowoutMaximal(db: Database, p: Pairing)
    requires Played(db, p)
    ensures BiggestBlowout(db) != None
    ensures BiggestBlowout(db).value.differential >= Abs(p.home.actualScore - p.away.actualScore)
  {
    GameMember(db, p);
    DifferentialOrders();
    TopFirst(PointDifferential(db), DifferentialDesc, GameOf(p));
  }
}
