/**
 * Most and least efficient GM (analyze.py, the query under that heading): per
 * team name, how many different starters a benched player of the same week,
 * team and position outscored.
 */
module Efficiency {
  import opened Rel
  import opened Order
  import opened Schema

  /**
   * The join and WHERE conditions between a starter row and a bench row: same
   * week, team and position, the bench row benched, the starter not, and the
   * bench row scoring strictly more.
   */
  predicate Outscores(starter: PlayerPerformance, bench: PlayerPerformance) {
    && starter.week == bench.week && starter.teamId == bench.teamId && starter.position == bench.position
    && bench.actualPoints > starter.actualPoints && bench.benched && !starter.benched
  }

  /** A joined row, projected to what the aggregate reads: t.name and sp.id. */
  datatype OutscoredRow = OutscoredRow(name: string, starterId: string)

  /** The rows of one starter and one bench row: one per starter player, bench player and team. */
  function PairRows(db: Database, starter: PlayerPerformance, bench: PlayerPerformance): seq<OutscoredRow> {
    FlatMap(PlayersWithId(db, starter.playerId), (sp: Player) =>
      FlatMap(PlayersWithId(db, bench.playerId), (bp: Player) =>
        Map(TeamsWithId(db, starter.teamId), (t: Team) => OutscoredRow(t.name, sp.id))))
  }

  /** The rows of one starter row: those of every bench row that outscores it. */
  function StarterRows(db: Database, starter: PlayerPerformance): seq<OutscoredRow> {
    FlatMap(Filter(db.performances, (bench: PlayerPerformance) => Outscores(starter, bench)), (bench: PlayerPerformance) =>
      PairRows(db, starter, bench))
  }

  /** `player_performance starter join player_performance bench join player sp join player bp join team t where ...` */
  function OutscoredRows(db: Database): seq<OutscoredRow> {
    FlatMap(db.performances, (starter: PlayerPerformance) => StarterRows(db, starter))
  }

  /** count(distinct sp.id) over the group of name n. */
  function OutscoredStarters(db: Database, n: string): nat {
    |Distinct(Map(Filter(OutscoredRows(db), (r: OutscoredRow) => r.name == n), (r: OutscoredRow) => r.starterId))|
  }

  /** A row of the result: a team name and its number of outscored starters. */
  datatype GmEfficiency = GmEfficiency(name: string, outscoredStarters: nat)

  function Efficiencies(db: Database): seq<GmEfficiency> {
    Map(GroupKeys(OutscoredRows(db), (r: OutscoredRow) => r.name), (n: string) => GmEfficiency(n, OutscoredStarters(db, n)))
  }

  predicate OutscoredDesc(a: GmEfficiency, b: GmEfficiency) {
    a.outscoredStarters >= b.outscoredStarters
  }

  /** MOST, LEAST EFFICIENT GM: per team name, the number of outscored starters, descending. */
  function EfficientGm(db: Database): seq<GmEfficiency> {
    SortBy(Efficiencies(db), OutscoredDesc)
  }

  /** One combination the join produces and the WHERE clause keeps. */
  predicate OutscoredCase(db: Database, starter: PlayerPerformance, bench: PlayerPerformance, sp: Player, bp: Player, t: Team) {
    && starter in db.performances && bench in db.performances && Outscores(starter, bench)
    && sp in db.players && sp.id == starter.playerId
    && bp in db.players && bp.id == bench.playerId
    && t in db.teams && t.id == starter.teamId
  }

  /** Every joined row is a case's: the team's name and the starter player's id. */
  lemma OutscoredRowSource(db: Database, r: OutscoredRow)
    returns (starter: PlayerPerformance, bench: PlayerPerformance, sp: Player, bp: Player, t: Team)
    requires r in OutscoredRows(db)
    ensures OutscoredCase(db, starter, bench, sp, bp, t) && r == OutscoredRow(t.name, sp.id)
  {
    starter := FlatMapSource(db.performances, (starter: PlayerPerformance) => StarterRows(db, starter), r);
    bench := FlatMapSource(Filter(db.performances, (bench: PlayerPerformance) => Outscores(starter, bench)), (bench: PlayerPerformance) =>
      PairRows(db, starter, bench), r);
    FilterIn(db.performances, (bench: PlayerPerformance) => Outscores(starter, bench), bench);
    sp := FlatMapSource(PlayersWithId(db, starter.playerId), (sp: Player) =>
      FlatMap(PlayersWithId(db, bench.playerId), (bp: Player) =>
        Map(TeamsWithId(db, starter.teamId), (t: Team) => OutscoredRow(t.name, sp.id))), r);
    bp := FlatMapSource(PlayersWithId(db, bench.playerId), (bp: Player) =>
      Map(TeamsWithId(db, starter.teamId), (t: Team) => OutscoredRow(t.name, sp.id)), r);
    t := MapSource(TeamsWithId(db, starter.teamId), (t: Team) => OutscoredRow(t.name, sp.id), r);
  }

  /** Every case gives a joined row. */
  lemma OutscoredRowMember(db: Database, starter: PlayerPerformance, bench: PlayerPerformance, sp: Player, bp: Player, t: Team)
    requires OutscoredCase(db, starter, bench, sp, bp, t)
    ensures OutscoredRow(t.name, sp.id) in OutscoredRows(db)
  {
    var r := OutscoredRow(t.name, sp.id);
    MapMember(TeamsWithId(db, starter.teamId), (t: Team) => OutscoredRow(t.name, sp.id), t);
    FlatMapMember(PlayersWithId(db, bench.playerId), (bp: Player) =>
      Map(TeamsWithId(db, starter.teamId), (t: Team) => OutscoredRow(t.name, sp.id)), bp, r);
    FlatMapMember(PlayersWithId(db, starter.playerId), (sp: Player) =>
      FlatMap(PlayersWithId(db, bench.playerId), (bp: Player) =>
        Map(TeamsWithId(db, starter.teamId), (t: Team) => OutscoredRow(t.name, sp.id))), sp, r);
    FilterIn(db.performances, (bench: PlayerPerformance) => Outscores(starter, bench), bench);
    FlatMapMember(Filter(db.performances, (bench: PlayerPerformance) => Outscores(starter, bench)), (bench: PlayerPerformance) =>
      PairRows(db, starter, bench), bench, r);
    FlatMapMember(db.performances, (starter: PlayerPerformance) => StarterRows(db, starter), starter, r);
  }

  /** The starter ids in the group of name n. */
  ghost function OutscoredIds(db: Database, n: string): set<string> {
    set r | r in OutscoredRows(db) && r.name == n :: r.starterId
  }

  /** The count of name n is the number of different starter ids among its rows. */
  lemma OutscoredStartersCount(db: Database, n: string)
    ensures OutscoredStarters(db, n) == |OutscoredIds(db, n)|
  {
    var group := Filter(OutscoredRows(db), (r: OutscoredRow) => r.name == n);
    var ids := Map(group, (r: OutscoredRow) => r.starterId);
    DistinctCard(ids);
    forall id | id in ids ensures id in OutscoredIds(db, n) {
      var r := MapSource(group, (r: OutscoredRow) => r.starterId, id);
      FilterIn(OutscoredRows(db), (r: OutscoredRow) => r.name == n, r);
    }
    forall id | id in OutscoredIds(db, n) ensures id in ids {
      var r :| r in OutscoredRows(db) && r.name == n && r.starterId == id;
      FilterIn(OutscoredRows(db), (r: OutscoredRow) => r.name == n, r);
      MapMember(group, (r: OutscoredRow) => r.starterId, r);
    }
    assert (set x | x in ids) == OutscoredIds(db, n);
  }

  /** The ids of the players who started for a team of name n in some week. */
  ghost function StartedIds(db: Database, n: string): set<string> {
    set pp, t | pp in db.performances && t in db.teams && !pp.benched && t.id == pp.teamId && t.name == n :: pp.playerId
  }

  /**
   * An id counts for name n exactly when some case joins a starter of that id
   * to a team of that name; so only starters that were outscored count.
   */
  lemma OutscoredIdsSpec(db: Database, n: string, id: string)
    ensures id in OutscoredIds(db, n) <==>
      exists starter, bench, sp, bp, t {:trigger OutscoredCase(db, starter, bench, sp, bp, t)} ::
        OutscoredCase(db, starter, bench, sp, bp, t) && t.name == n && sp.id == id
  {
    if id in OutscoredIds(db, n) {
      var r :| r in OutscoredRows(db) && r.name == n && r.starterId == id;
      var starter, bench, sp, bp, t := OutscoredRowSource(db, r);
    }
    if exists starter, bench, sp, bp, t {:trigger OutscoredCase(db, starter, bench, sp, bp, t)} ::
        OutscoredCase(db, starter, bench, sp, bp, t) && t.name == n && sp.id == id
    {
      var starter, bench, sp, bp, t :| OutscoredCase(db, starter, bench, sp, bp, t) && t.name == n && sp.id == id;
      OutscoredRowMember(db, starter, bench, sp, bp, t);
    }
  }

  /** The count of a name is at most the number of different players who started for a team of that name. */
  lemma OutscoredStartersBound(db: Database, n: string)
    ensures OutscoredStarters(db, n) <= |StartedIds(db, n)|
  {
    OutscoredStartersCount(db, n);
    forall id | id in OutscoredIds(db, n) ensures id in StartedIds(db, n) {
      var r :| r in OutscoredRows(db) && r.name == n && r.starterId == id;
      var starter, bench, sp, bp, t := OutscoredRowSource(db, r);
      assert starter in db.performances && t in db.teams && !starter.benched && t.id == starter.teamId && t.name == n;
    }
    assert OutscoredIds(db, n) <= StartedIds(db, n);
    SubsetCard(OutscoredIds(db, n), StartedIds(db, n));
  }

  /** Every row of the result is a name with at least one outscored starter, with the count of that name. */
  lemma EfficientGmSource(db: Database, x: GmEfficiency)
    requires x in EfficientGm(db)
    ensures x.outscoredStarters == OutscoredStarters(db, x.name) >= 1
  {
    SortByMember(Efficiencies(db), OutscoredDesc, x);
    var n := MapSource(GroupKeys(OutscoredRows(db), (r: OutscoredRow) => r.name), (n: string) => GmEfficiency(n, OutscoredStarters(db, n)), x);
    var r := GroupKeysSource(OutscoredRows(db), (r: OutscoredRow) => r.name, n);
    OutscoredStartersCount(db, n);
    assert r.starterId in OutscoredIds(db, n);
  }

  /** Every team name with an outscored starter is in the result, with the count of that name. */
  lemma EfficientGmMember(db: Database, starter: PlayerPerformance, bench: PlayerPerformance, sp: Player, bp: Player, t: Team)
    requires OutscoredCase(db, starter, bench, sp, bp, t)
    ensures GmEfficiency(t.name, OutscoredStarters(db, t.name)) in EfficientGm(db)
  {
    var r := OutscoredRow(t.name, sp.id);
    OutscoredRowMember(db, starter, bench, sp, bp, t);
    GroupKeysMember(OutscoredRows(db), (r: OutscoredRow) => r.name, r);
    MapMember(GroupKeys(OutscoredRows(db), (r: OutscoredRow) => r.name), (n: string) => GmEfficiency(n, OutscoredStarters(db, n)), t.name);
    SortByMember(Efficiencies(db), OutscoredDesc, GmEfficiency(t.name, OutscoredStarters(db, t.name)));
  }

  /** The result is non-increasing in the count. */
  lemma EfficientGmSorted(db: Database)
    ensures forall i, j :: 0 <= i < j < |EfficientGm(db)| ==>
      EfficientGm(db)[i].outscoredStarters >= EfficientGm(db)[j].outscoredStarters
  {
    SortBySorted(Efficiencies(db), OutscoredDesc);
  }
}
