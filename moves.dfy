/**
 * Most and least roster moves (analyze.py, the query under that heading): a
 * left join of team with activity, grouped by team name.
 */
module Moves {
  import opened Rel
  import opened Order
  import opened Schema

  /** A row of `team t left join activity a on a.team_id = t.id`: t.name and a.team_id, NULL when t has no activity. */
  datatype MoveRow = MoveRow(name: string, activityTeamId: Option<string>)

  /** The activity rows of a team id. */
  function ActivitiesOf(db: Database, id: string): seq<Activity> {
    Filter(db.activities, (a: Activity) => a.teamId == id)
  }

  /** The left join for one team: one row per activity of the team, or a single row of NULLs when it has none. */
  function TeamMoveRows(db: Database, t: Team): seq<MoveRow> {
    var acts := ActivitiesOf(db, t.id);
    if acts == [] then [MoveRow(t.name, None)]
    else Map(acts, (a: Activity) => MoveRow(t.name, Some(a.teamId)))
  }

  function MoveRows(db: Database): seq<MoveRow> {
    FlatMap(db.teams, (t: Team) => TeamMoveRows(db, t))
  }

  /** count(a.team_id) over the group of name n: its rows whose activity is not NULL. */
  function NameMoves(db: Database, n: string): nat {
    Count(Filter(MoveRows(db), (r: MoveRow) => r.name == n), (r: MoveRow) => r.activityTeamId != None)
  }

  /** A row of the result: a team name and its number of moves. */
  datatype TeamMoves = TeamMoves(name: string, moves: nat)

  function MoveCounts(db: Database): seq<TeamMoves> {
    Map(GroupKeys(MoveRows(db), (r: MoveRow) => r.name), (n: string) => TeamMoves(n, NameMoves(db, n)))
  }

  predicate MovesDesc(a: TeamMoves, b: TeamMoves) {
    a.moves >= b.moves
  }

  /** MOST, LEAST ROSTER MOVES: per team name, the number of moves, descending. */
  function RosterMoves(db: Database): seq<TeamMoves> {
    SortBy(MoveCounts(db), MovesDesc)
  }

  /** Every row of the result is the name of some team, with the count of that name. */
  lemma RosterMovesSource(db: Database, x: TeamMoves) returns (t: Team)
    requires x in RosterMoves(db)
    ensures t in db.teams && t.name == x.name && x.moves == NameMoves(db, x.name)
  {
    SortByMember(MoveCounts(db), MovesDesc, x);
    var n := MapSource(GroupKeys(MoveRows(db), (r: MoveRow) => r.name), (n: string) => TeamMoves(n, NameMoves(db, n)), x);
    var r := GroupKeysSource(MoveRows(db), (r: MoveRow) => r.name, n);
    t := FlatMapSource(db.teams, (t: Team) => TeamMoveRows(db, t), r);
    if ActivitiesOf(db, t.id) != [] {
      var a := MapSource(ActivitiesOf(db, t.id), (a: Activity) => MoveRow(t.name, Some(a.teamId)), r);
    }
  }

  /** The left join keeps every team: each team's name is in the result, with the count of that name. */
  lemma RosterMovesMember(db: Database, t: Team)
    requires t in db.teams
    ensures TeamMoves(t.name, NameMoves(db, t.name)) in RosterMoves(db)
  {
    var acts := ActivitiesOf(db, t.id);
    var r := if acts == [] then MoveRow(t.name, None) else MoveRow(t.name, Some(acts[0].teamId));
    if acts != [] {
      MapMember(acts, (a: Activity) => MoveRow(t.name, Some(a.teamId)), acts[0]);
    }
    FlatMapMember(db.teams, (t: Team) => TeamMoveRows(db, t), t, r);
    GroupKeysMember(MoveRows(db), (r: MoveRow) => r.name, r);
    MapMember(GroupKeys(MoveRows(db), (r: MoveRow) => r.name), (n: string) => TeamMoves(n, NameMoves(db, n)), t.name);
    SortByMember(MoveCounts(db), MovesDesc, TeamMoves(t.name, NameMoves(db, t.name)));
  }

  /** No name appears twice in the result. */
  lemma RosterMovesOnce(db: Database, n: string)
    ensures |Filter(RosterMoves(db), (x: TeamMoves) => x.name == n)| <= 1
  {
    var ks := GroupKeys(MoveRows(db), (r: MoveRow) => r.name);
    FilterCountPermutation(RosterMoves(db), MoveCounts(db), (x: TeamMoves) => x.name == n);
    FilterMap(ks, (k: string) => TeamMoves(k, NameMoves(db, k)), (x: TeamMoves) => x.name == n, (k: string) => k == n);
    NoDuplicatesOnce(ks, n, (k: string) => k == n);
  }

  /** The moves of name n that one team contributes: all of its activity rows when it bears the name, else none. */
  lemma TeamMovesShare(db: Database, t: Team, n: string)
    ensures |Filter(TeamMoveRows(db, t), (r: MoveRow) => r.name == n && r.activityTeamId != None)|
      == if t.name == n then |ActivitiesOf(db, t.id)| else 0
  {
    var pq := (r: MoveRow) => r.name == n && r.activityTeamId != None;
    var rows := TeamMoveRows(db, t);
    var acts := ActivitiesOf(db, t.id);
    if acts == [] {
      assert Filter(rows, pq) == Filter([], pq);
    } else if t.name == n {
      forall i | 0 <= i < |rows| ensures pq(rows[i]) {
        assert rows[i] in rows;
        var a := MapSource(acts, (a: Activity) => MoveRow(t.name, Some(a.teamId)), rows[i]);
      }
      FilterAll(rows, pq);
    } else {
      forall r | r in rows ensures !pq(r) {
        var a := MapSource(acts, (a: Activity) => MoveRow(t.name, Some(a.teamId)), r);
      }
      FilterNone(rows, pq);
    }
  }

  /** With unique team names, two different team rows have different names. */
  lemma OtherName(db: Database, t: Team, u: Team)
    requires TeamNamesUnique(db) && t in db.teams && u in db.teams && u != t
    ensures u.name != t.name
  {
    var i :| 0 <= i < |db.teams| && db.teams[i] == u;
    var j :| 0 <= j < |db.teams| && db.teams[j] == t;
  }

  /** With unique team names, a team's count is the number of its activity rows, 0 when it has none. */
  lemma NameMovesUnique(db: Database, t: Team)
    requires TeamNamesUnique(db) && t in db.teams
    ensures NameMoves(db, t.name) == |ActivitiesOf(db, t.id)|
  {
    var n := t.name;
    var pq := (r: MoveRow) => r.name == n && r.activityTeamId != None;
    var h := (u: Team) => Filter(TeamMoveRows(db, u), pq);
    FilterFilter(MoveRows(db), (r: MoveRow) => r.name == n, (r: MoveRow) => r.activityTeamId != None, pq);
    FilterFlatMap(db.teams, (u: Team) => TeamMoveRows(db, u), pq, h);
    forall u | u in db.teams && u != t ensures h(u) == [] {
      OtherName(db, t, u);
      TeamMovesShare(db, u, n);
    }
    TeamMovesShare(db, t, n);
    assert NoDuplicates(db.teams);
    FlatMapOne(db.teams, t, h);
  }

  /** The result is non-increasing in moves. */
  lemma RosterMovesSorted(db: Database)
    ensures forall i, j :: 0 <= i < j < |RosterMoves(db)| ==> RosterMoves(db)[i].moves >= RosterMoves(db)[j].moves
  {
    SortBySorted(MoveCounts(db), MovesDesc);
  }
}
