# Fantasy-league analysis queries in Dafny

This project models the analytical engine of a fantasy-football league
tool: the fixed battery of read-only SQL queries that `analyze.py` runs over a
snapshot of six tables (team, player, match, match_team, player_performance,
activity). Every query becomes a pure Dafny function of a `Database` value,
and lemmas state what each result holds.

The queries modelled are:
- best and worst week against projection;
- most points for and against;
- closest game and biggest blowout;
- lucky winners and unlucky losers against the weekly median;
- the best bench performances and the highest-scoring benches;
- GM efficiency (outscored starters);
- roster moves per team;
- the number of wins each team would have had on another team's schedule.

How SQL is modelled (module `Rel`, `rel.dfy`; `Order`, `order.dfy`):
- Tables and results are sequences of rows, so duplicates count as in SQL's bag semantics.
- A join is a nested `FlatMap`. `WHERE` is `Filter`; a condition that reads only one
  joined table is applied where that table is joined.
- `GROUP BY` is `GroupKeys`, the distinct key values, followed by a per-key `Filter`
  and an aggregate: `Sum`, `Count`, `count(distinct …)` via `Distinct`, or `median`.
- `ORDER BY` is `SortBy`, an insertion sort under a comparator; `LIMIT 1` is `Top`.
- `NULL` appears only where the queries produce it:
  - a `CASE` without `ELSE` returns an `Option`;
  - a `LEFT JOIN` row without a partner carries `None`;
  - `count(e)` skips rows whose `e` is `None`.
- Scores and points are `real`. The queries only compare, subtract, take `abs`,
  sum and take the median of them, so exact arithmetic stands in for doubles.
  Text ordering is lexicographic on characters.

Facts about the data that the queries do not check are predicates in `Schema`.
They appear only as `requires` of lemmas, never of the queries:
- `TeamKey`, `PlayerKey` and `MatchTeamKey`: the primary keys declared by the ingestion step.
- `MatchesHaveBoxes`: every match has both of its box scores.
- `OneMatchPerWeek`: a team plays at most one match per week.
- `TeamNamesUnique`: no two teams share a display name.

Where the code and the prose description of the tool disagree, the model
follows the code:
- GM efficiency counts distinct starter player ids (`count(distinct sp.id)`),
  not distinct (week, position) instances.
- Points against and roster moves are grouped by team name, not by team id.
  The per-team readings are proved under `TeamNamesUnique`.
- The weekly median is taken over the join of match and match_team on the week
  alone, so every box score is repeated once per match of its week. The model
  keeps that repetition and proves it leaves the median unchanged
  (`Luck.WeeklyMedianOnce`).

## Model

| member | source | states |
|---|---|---|
| Performance.ProjDifferentialSource | analyze.py:14-27 | every row of proj_point_differential comes from a box score whose actual and projected scores are both positive, with differential = actual − projected |
| Performance.RowSource | analyze.py:33-41 | every joined row pairs a proj_point_differential row with a team row of its team id, carrying the team's name, the week and the differential |
| Performance.RowIsRanked | analyze.py:14-41 | every candidate row is the name, week and actual − projected of some box score with both scores positive and a team of its id |
| Performance.RankedIsRow | analyze.py:14-41 | every such box score and team gives a candidate row |
| Performance.RowsAreRanked | analyze.py:14-55 | the candidate rows are exactly the rows of positively scored and projected box scores joined to their teams (both directions) |
| Performance.DifferentialOrders | analyze.py:38-39 | ordering by differential descending or ascending is a total preorder |
| Performance.BestPerformance | analyze.py:33-41 | BEST PERFORMANCE is empty exactly when no box score has both scores positive with a team row |
| Performance.BestPerformanceRanked | analyze.py:33-41 | the best row is the row of such a box score |
| Performance.BestPerformanceMaximal | analyze.py:33-41 | its differential is at least that of every such box score |
| Performance.WorstPerformance | analyze.py:47-55 | WORST PERFORMANCE is empty exactly when no box score qualifies |
| Performance.WorstPerformanceRanked | analyze.py:47-55 | the worst row is the row of a qualifying box score |
| Performance.WorstPerformanceMinimal | analyze.py:47-55 | its differential is at most that of every qualifying box score |
| Games.GameRowsSource | analyze.py:108-125 | every point_differential row comes from a match row |
| Games.MatchGamesSource | analyze.py:116-117 | a match's rows come from its home and away box scores of that week |
| Games.BoxGamesSource | analyze.py:118-119 | and from team rows of the two box scores' team ids |
| Games.GameSource | analyze.py:108-125 | every row is a played pairing (match, both box scores positive, both teams), and its differential is the non-negative absolute difference of the two scores |
| Games.GameMember | analyze.py:108-125 | every played pairing gives a row |
| Games.DifferentialOrders | analyze.py:136-137 | ordering by differential ascending or descending is a total preorder |
| Games.GamesArePlayed | analyze.py:108-125 | point_differential is exactly the rows of the played pairings (both directions) |
| Games.ClosestGame | analyze.py:131-139 | CLOSEST GAME is empty exactly when no pairing was played |
| Games.ClosestGamePlayed | analyze.py:131-139 | the closest game is a played pairing's row |
| Games.ClosestGameMinimal | analyze.py:131-139 | its differential is at most every played pairing's absolute score difference |
| Games.BiggestBlowout | analyze.py:145-153 | BIGGEST BLOWOUT is empty exactly when no pairing was played |
| Games.BiggestBlowoutPlayed | analyze.py:145-153 | the blowout is a played pairing's row |
| Games.BiggestBlowoutMaximal | analyze.py:145-153 | its differential is at least every played pairing's absolute score difference |
| Points.PointsDescTotalPreorder | analyze.py:76-77 | ordering by points descending is a total preorder |
| Points.TeamTotalIsPointsFor | analyze.py:62-70 | team_score's sum for a team id is the sum of actual_score over all of its box scores, zero weeks included |
| Points.ScoresOfTeamLookup | analyze.py:71-75 | a team joins team_score in one row with its points for when it has a box score, and in none otherwise |
| Points.MostPointsForSpec | analyze.py:61-78 | MOST POINTS FOR is a permutation of (name, points for) over the teams with box scores, and non-increasing in points |
| Points.MatchAgainstRowsKey | analyze.py:94-98 | under the match_team key and complete box scores, a team and one of its matches give one row, with the opponent's score |
| Points.TeamAgainstShare | analyze.py:84-100 | a team's rows add its points against to its own name's total and nothing to other names |
| Points.NameTotalSpec | analyze.py:84-100 | a name's points_against is the sum of points against over the teams of that name |
| Points.NameTotalUnique | analyze.py:84-100 | with unique team names, a team's points_against is the sum, over its matches, of the away score when it is home and the home score otherwise |
| Points.AgainstRowSource | analyze.py:94-98 | every joined row belongs to a team and a match that team played |
| Points.AgainstRowOf | analyze.py:94-98 | every match of a team with both box scores gives a row of that team's name |
| Points.MostPointsAgainstSound | analyze.py:84-103 | every result row is a name of a team that played, with that name's total |
| Points.MostPointsAgainstComplete | analyze.py:84-103 | every team that played a match is in the result with its name's total |
| Points.MostPointsAgainstOnce | analyze.py:99-100 | each name appears at most once |
| Points.MostPointsAgainstSorted | analyze.py:101-102 | the result is non-increasing in points against |
| Medians.MedianSplits | analyze.py:170 | at least half of the values are at most the median and at least half are at least it; it lies between the smallest and largest value |
| Medians.MedianRepeat | analyze.py:170-172 | repeating a sequence of values k ≥ 1 times leaves its median unchanged |
| Luck.MatchGroupScores | analyze.py:167-177 | one match adds the week's positive box scores to its own week's group and nothing to another week's |
| Luck.GroupScoresRepeat | analyze.py:167-177 | week w's group is the week's positive box scores repeated once per match of that week |
| Luck.WeeklyMedianOnce | analyze.py:167-177 | weekly_median's value is the median of the week's positive box scores, each taken once |
| Luck.WeekMember | analyze.py:167-177 | every week with a match and a positive box score has a weekly_median row |
| Luck.MedianDiffsMember | analyze.py:178-187 | every positive box score of a median's week gives a row with its score less the median |
| Luck.DiffSource | analyze.py:167-187 | every box_diff_from_median row is a positive box score less the median of its week's non-empty group |
| Luck.DiffMember | analyze.py:167-187 | every positive box score of a week with a match gives such a row |
| Luck.BoxScoreSource | analyze.py:188-202 | every box_score row is a match with its two box scores of that week, and the two scores differ |
| Luck.BoxScoreMember | analyze.py:188-202 | every match whose two box scores differ gives a box_score row |
| Luck.OutcomeDecided | analyze.py:203-228 | for every box_score row the winner and the loser are defined and are the two sides, and the winner's score is strictly greater |
| Luck.TaggedSource | analyze.py:229-250 | a tagged row carries its outcome's team and week, a team row of that id, and the team's positive score less the weekly median |
| Luck.TaggedMember | analyze.py:229-250 | every outcome with a median difference and a team row is tagged |
| Luck.LuckyWinnerSource | analyze.py:229-239 | every lucky_winner row is WIN, for the winner of a box_score row, whose score is strictly below its week's median |
| Luck.LuckyWinnerMember | analyze.py:229-239 | every winner whose positive score is below the weekly median is a lucky_winner row |
| Luck.UnluckyLoserSource | analyze.py:240-250 | every unlucky_loser row is LOSS, for the loser of a box_score row, whose score is strictly above its week's median |
| Luck.UnluckyLoserMember | analyze.py:240-250 | every loser whose positive score is above the weekly median is an unlucky_loser row |
| Luck.NotTaggedTwice | analyze.py:229-250 | no (week, team) is both a lucky winner and an unlucky loser |
| Luck.OneSidePerMatch | analyze.py:188-250 | within one match at most one side is tagged |
| Luck.LuckResultMember | analyze.py:251-259 | a result row is exactly a lucky_winner or unlucky_loser row joined to a team row of its id |
| Luck.StatusOrder | analyze.py:260-261 | ordering by status is a total preorder |
| Luck.LuckResultOrdered | analyze.py:251-262 | every status is LOSS or WIN, and no WIN row precedes a LOSS row |
| Bench.BestBenchSource | analyze.py:268-281 | every row is a benched performance joined to its player and team |
| Bench.BestBenchMember | analyze.py:268-281 | every benched performance with its player and team gives a row |
| Bench.BestBenchSorted | analyze.py:279-280 | the list is non-increasing in actual points |
| Bench.TeamBenchShare | analyze.py:288-298 | a team's benched rows add its benched points to its own id's group and nothing to others |
| Bench.BenchTotalSpec | analyze.py:288-298 | bench_perf's sum for an id is the benched points of each team row of that id |
| Bench.BenchTotalUnique | analyze.py:288-298 | under the team key, a team's bench total is the sum of its benched actual points |
| Bench.HighestScoringBenchSource | analyze.py:287-305 | every row is a team with a benched performance and its bench total; teams without one are absent |
| Bench.HighestScoringBenchMember | analyze.py:287-305 | every team with a benched performance is listed with its total |
| Bench.HighestScoringBenchSorted | analyze.py:303-304 | the list is non-decreasing in bench points |
| Efficiency.OutscoredRowSource | analyze.py:311-322 | every joined row is a non-benched starter outscored by a benched player of the same week, team and position, with both players and the team |
| Efficiency.OutscoredRowMember | analyze.py:311-322 | every such case gives a joined row |
| Efficiency.OutscoredStartersCount | analyze.py:314 | the count of a name is the number of different starter ids in its group |
| Efficiency.OutscoredIdsSpec | analyze.py:311-322 | an id counts for a name exactly when some case outscores a starter of that id on a team of that name |
| Efficiency.OutscoredStartersBound | analyze.py:311-324 | the count of a name is at most the number of different players who started for a team of that name |
| Efficiency.EfficientGmSource | analyze.py:311-327 | every row has a count of at least one, and the count is that of its name; names without a case are absent |
| Efficiency.EfficientGmMember | analyze.py:311-327 | every name with a case is listed with its count |
| Efficiency.EfficientGmSorted | analyze.py:325-326 | the list is non-increasing in the count |
| Moves.RosterMovesSource | analyze.py:333-343 | every row is the name of a team, with the number of activities of that name's teams |
| Moves.RosterMovesMember | analyze.py:333-343 | every team's name is listed, including teams with no activity |
| Moves.RosterMovesOnce | analyze.py:339-340 | each name appears at most once |
| Moves.TeamMovesShare | analyze.py:334-338 | a team's left-join rows count its activities for its own name and nothing for other names; a team without activities counts zero |
| Moves.NameMovesUnique | analyze.py:333-343 | with unique team names, a team's num_moves is the number of its activity rows |
| Moves.RosterMovesSorted | analyze.py:341-342 | the list is non-increasing in num_moves |
| Swap.MatchRowsSource | analyze.py:394-409 | a row of one (A, B, match) comes from A's positive box score of the week, the positive box score of B's opponent and the opponent's team row |
| Swap.MatchRowsMember | analyze.py:394-409 | every such triple gives a row |
| Swap.AltResultSource | analyze.py:376-412 | every alternate_results_by_team row has A ≠ B, B playing a match that week, both scores positive, and is_win exactly when A's score is strictly greater |
| Swap.AltResultMember | analyze.py:376-412 | every such combination gives a row |
| Swap.IsWinSpec | analyze.py:390 | is_win holds exactly when A's score beats the opponent's |
| Swap.SelfOpponentNoWin | analyze.py:392-409 | when B's opponent is A itself, A is compared with its own score and it is never a win |
| Swap.WinsCount | analyze.py:413-421 | num_wins is the number of different winning rows of the group (A, B) |
| Swap.GamesCount | analyze.py:413-421 | the group (A, B) holds each different row once |
| Swap.NumWinsBound | analyze.py:413-421 | num_wins is at most the number of different rows of the group |
| Swap.SameWeekSameRow | analyze.py:376-412 | under the keys and one match per team and week, A's row on B's schedule is fixed by its week |
| Swap.NumWinsWeeks | analyze.py:376-421 | under those facts, num_wins is at most the number of weeks B played in which A's and the opponent's scores are both positive |
| Swap.SwappedWinsSource | analyze.py:425-431 | every result row names two different teams whose pair has a row, with their num_wins |
| Swap.SwappedWinsMember | analyze.py:425-431 | every pair with a row is listed with its num_wins |
| Swap.SwapOrder | analyze.py:432-433 | ordering by num_wins descending, then A's name, is a total preorder |
| Swap.SwappedWinsSorted | analyze.py:432-433 | the result is non-increasing in num_wins, and rows with equal num_wins are in order of A's name |

## Left out

- The MOST INJURED PLAYERS query (analyze.py:349-368): it reads `pp.injured`, a column the player_performance table never defines, so it has no grounded input.
- Connecting to the database, `IMPORT DATABASE`, `.show()` and `print_label` (analyze.py:4-12): these are input and output only.
- The ingestion script `extract.py` is not part of this model. It calls the league provider's API, loads credentials, creates the tables and exports CSV. The keys it declares appear as `Schema` predicates.
- Tie-breaking among rows with equal sort keys: `SortBy` is one stable sort, and every property is stated about the sort keys only. `Top` returns the first row of that sort, so which tied row `LIMIT 1` returns is not modelled.
- `ORDER BY` inside a derived table or CTE (analyze.py:24-25, 122-123, 237-238, 248-249, 410-411, 422-423): the order of a derived table does not carry into the outer query, so those clauses are dropped.
- Floating-point rounding: scores are exact reals.
- Luck.GroupMedian: it returns 0.0 for an empty group, a group that `GROUP BY` never forms; every lemma reaches it only through a non-empty group.
