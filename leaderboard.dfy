/**
 * The two leaderboards of main.py: `/top` (`leaderboard_handler`) over the
 * users table and `/bugungi_top` (`todays_leaderboard_handler`) over the
 * solvers of the active challenge. Each runs its queries and then builds
 * the reply line by line.
 */
module Leaderboard {
  import opened Options
  import opened Strings
  import opened Ranking
  import opened Tables
  import opened Listing
  import opened BotState

  /** The `LIMIT` of every leaderboard query. */
  const Limit: nat := 10

  const Undecided: string := "hali aniqlanmagan"
  const NoChallenge: string := "Bugun uchun masala topilmadi."
  const SpeedHeader: string := "Tezlik:\n"
  const LengthHeader: string := "Qisqalik:\n"
  const Rule: string := "\n---\n\n"

  /** The lines of a text start with its first line. */
  lemma {:induction false} ConcatStartsWithFirst(lines: seq<string>)
    requires |lines| > 0
    ensures lines[0] <= Concat(lines)
    decreases |lines|
  {
    if |lines| > 1 {
      var init := lines[..|lines| - 1];
      ConcatStartsWithFirst(init);
      assert init[0] == lines[0];
    }
  }

  // ---------------------------------------------------------------- /top

  /** The users `WHERE points > 0`. */
  function Scorers(users: map<int, User>): set<int>
  {
    set c | c in users && users[c].points > 0
  }

  /** `ORDER BY points DESC` sorts ascending on the negated points. */
  function PointsScore(users: map<int, User>): (s: map<int, real>)
    ensures s.Keys == Scorers(users)
  {
    map c | c in users && users[c].points > 0 :: -(users[c].points as real)
  }

  /** The chat ids the `/top` query returns, best first. */
  function Top(users: map<int, User>): seq<int>
  {
    Rank(PointsScore(users), Limit)
  }

  /** `/top` lists ten users with points, or every one if there are fewer,
      in descending order of points, and leaves out nobody with more points
      than one it lists. */
  lemma TopSelection(users: map<int, User>)
    ensures var r := Top(users);
      && |r| == (if |Scorers(users)| < Limit then |Scorers(users)| else Limit)
      && (forall i :: 0 <= i < |r| ==> r[i] in users && users[r[i]].points > 0)
      && (forall i, j :: 0 <= i < j < |r| ==> r[i] != r[j])
      && (forall i, j :: 0 <= i < j < |r| ==> users[r[i]].points >= users[r[j]].points)
      && (forall i, c :: 0 <= i < |r| && c in Scorers(users) && c !in r ==> users[r[i]].points >= users[c].points)
  {
    var s := PointsScore(users);
    assert |s| == |s.Keys|;
  }

  /** One line of `/top` without its number. */
  function TopEntry(u: User): string
  {
    DisplayName(u.username, u.fullName) + " - " + Decimal(u.points) + " ball\n"
  }

  function TopEntries(users: map<int, User>, ids: seq<int>): (r: seq<string>)
    requires forall i :: 0 <= i < |ids| ==> ids[i] in users
    ensures |r| == |ids|
    ensures forall k :: 0 <= k < |ids| ==> r[k] == TopEntry(users[ids[k]])
  {
    seq(|ids|, k requires 0 <= k < |ids| => TopEntry(users[ids[k]]))
  }

  /** The reply to `/top`. */
  function TopBoard(users: map<int, User>): string
  {
    var r := Top(users);
    if r == [] then Undecided else Concat(Numbered(TopEntries(users, r), 1))
  }

  /** `/top` answers "hali aniqlanmagan" exactly when nobody has a point;
      otherwise the reply opens with the rank 1. */
  lemma TopBoardCases(users: map<int, User>)
    ensures TopBoard(users) == Undecided <==> Scorers(users) == {}
    ensures Scorers(users) != {} ==> |TopBoard(users)| > 0 && TopBoard(users)[0] == '1'
  {
    TopSelection(users);
    var r := Top(users);
    if Scorers(users) != {} {
      var items := TopEntries(users, r);
      var lines := Numbered(items, 1);
      ConcatStartsWithFirst(lines);
      FirstLineOpensWithOne(items);
      assert Concat(lines)[0] == '1';
    } else {
      assert |r| == 0;
    }
  }

  /** The loop of leaderboard_handler: one numbered line per user. */
  method TopLines(users: map<int, User>, ids: seq<int>) returns (text: string)
    requires forall i :: 0 <= i < |ids| ==> ids[i] in users
    ensures text == Concat(Numbered(TopEntries(users, ids), 1))
  {
    ghost var lines := Numbered(TopEntries(users, ids), 1);
    text := "";
    for i := 0 to |ids|
      invariant text == Concat(lines[..i])
    {
      var user := users[ids[i]];
      var line := Decimal(1 + i) + ". " + (DisplayName(user.username, user.fullName) + " - " + Decimal(user.points) + " ball\n");
      assert line == lines[i];
      ConcatPrefixStep(lines, i);
      text := text + line;
    }
    assert lines[..|ids|] == lines;
  }

  /** leaderboard_handler: the query, then its lines or, when it finds
      nobody, "hali aniqlanmagan". */
  method LeaderboardText(db: Database) returns (text: string)
    ensures text == TopBoard(db.users)
  {
    var top := Top(db.users);
    if top == [] {
      text := Undecided;
    } else {
      text := TopLines(db.users, top);
    }
  }

  // ---------------------------------------------------------------- /bugungi_top

  /** The solver rows `WHERE challenge_id = ?`. */
  function OfChallenge(solvers: map<int, Solver>, challengeId: int): (rows: map<int, Solver>)
    ensures forall s :: s in rows <==> s in solvers && solvers[s].challengeId == challengeId
    ensures forall s :: s in rows ==> rows[s] == solvers[s]
  {
    map s | s in solvers && solvers[s].challengeId == challengeId :: solvers[s]
  }

  function SpeedScore(rows: map<int, Solver>): (s: map<int, real>)
    ensures s.Keys == rows.Keys && forall x :: x in s ==> s[x] == rows[x].result
  {
    map s | s in rows :: rows[s].result
  }

  function LengthScore(rows: map<int, Solver>): (s: map<int, real>)
    ensures s.Keys == rows.Keys && forall x :: x in s ==> s[x] == rows[x].codeLength as real
  {
    map s | s in rows :: rows[s].codeLength as real
  }

  /** One line of the speed list without its number; `show` is Python's
      rendering of the stored float. */
  function SpeedEntries(rows: map<int, Solver>, ids: seq<int>, show: real -> string): (r: seq<string>)
    requires forall i :: 0 <= i < |ids| ==> ids[i] in rows
    ensures |r| == |ids|
    ensures forall k :: 0 <= k < |ids| ==> r[k] == rows[ids[k]].user + " - " + show(rows[ids[k]].result) + "s\n"
  {
    seq(|ids|, k requires 0 <= k < |ids| => rows[ids[k]].user + " - " + show(rows[ids[k]].result) + "s\n")
  }

  function LengthEntries(rows: map<int, Solver>, ids: seq<int>): (r: seq<string>)
    requires forall i :: 0 <= i < |ids| ==> ids[i] in rows
    ensures |r| == |ids|
    ensures forall k :: 0 <= k < |ids| ==> r[k] == rows[ids[k]].user + " - " + Decimal(rows[ids[k]].codeLength) + " belgi\n"
  {
    seq(|ids|, k requires 0 <= k < |ids| => rows[ids[k]].user + " - " + Decimal(rows[ids[k]].codeLength) + " belgi\n")
  }

  /** `bot_data.get("challenge_id")`. */
  function ActiveId(active: Option<ActiveChallenge>): Option<int>
  {
    if active.Some? then Some(active.value.challengeId) else None
  }

  /** `ORDER BY result ASC LIMIT 10`. */
  function SpeedRank(rows: map<int, Solver>): (r: seq<int>)
    ensures |r| == if |rows| < Limit then |rows| else Limit
    ensures forall i :: 0 <= i < |r| ==> r[i] in rows
    ensures forall i, j :: 0 <= i < j < |r| ==> r[i] != r[j] && rows[r[i]].result <= rows[r[j]].result
    ensures forall i, x :: 0 <= i < |r| && x in rows && x !in r ==> rows[r[i]].result <= rows[x].result
  {
    var s := SpeedScore(rows);
    assert |s| == |s.Keys| == |rows.Keys| == |rows|;
    Rank(s, Limit)
  }

  /** `ORDER BY code_length ASC LIMIT 10`. */
  function LengthRank(rows: map<int, Solver>): (r: seq<int>)
    ensures |r| == if |rows| < Limit then |rows| else Limit
    ensures forall i :: 0 <= i < |r| ==> r[i] in rows
    ensures forall i, j :: 0 <= i < j < |r| ==> r[i] != r[j] && rows[r[i]].codeLength <= rows[r[j]].codeLength
    ensures forall i, x :: 0 <= i < |r| && x in rows && x !in r ==> rows[r[i]].codeLength <= rows[x].codeLength
  {
    var s := LengthScore(rows);
    assert |s| == |s.Keys| == |rows.Keys| == |rows|;
    Rank(s, Limit)
  }

  /** The numbered speed lines. */
  function SpeedList(rows: map<int, Solver>, show: real -> string): string
  {
    Concat(Numbered(SpeedEntries(rows, SpeedRank(rows), show), 1))
  }

  /** The numbered length lines. */
  function LengthList(rows: map<int, Solver>): string
  {
    Concat(Numbered(LengthEntries(rows, LengthRank(rows)), 1))
  }

  /** The reply to `/bugungi_top`. */
  function TodaysBoard(challengeId: Option<int>, solvers: map<int, Solver>, show: real -> string): string
  {
    if challengeId.None? || challengeId.value == 0 then NoChallenge
    else
      var rows := OfChallenge(solvers, challengeId.value);
      var bySpeed := SpeedRank(rows);
      var byLength := LengthRank(rows);
      if bySpeed == [] && byLength == [] then Undecided
      else
        var speed := if bySpeed != [] then SpeedHeader + SpeedList(rows, show) else "";
        var length := if byLength != [] then (if speed != "" then Rule else "") + LengthHeader + LengthList(rows) else "";
        speed + length
  }

  /** Both lists of `/bugungi_top` have the same length, and while the
      challenge has no more solvers than the limit they name the same
      rows, every one of them. */
  lemma SpeedAndLengthAgree(rows: map<int, Solver>)
    ensures |SpeedRank(rows)| == |LengthRank(rows)|
    ensures |rows| <= Limit ==>
      forall s :: (s in SpeedRank(rows) <==> s in rows) && (s in LengthRank(rows) <==> s in rows)
  {
    if |rows| <= Limit {
      var sp, ln := SpeedScore(rows), LengthScore(rows);
      assert |sp| == |sp.Keys| == |rows.Keys| == |ln.Keys| == |ln|;
      RankTakesAll(sp, Limit);
      RankTakesAll(ln, Limit);
    }
  }

  /** `/bugungi_top` says there is no challenge exactly when bot_data has
      no challenge id (or 0), says "hali aniqlanmagan" exactly when nobody
      has solved the active challenge, and otherwise gives both lists, the
      speed list first and the length list after the rule. */
  lemma TodaysBoardCases(challengeId: Option<int>, solvers: map<int, Solver>, show: real -> string)
    ensures TodaysBoard(challengeId, solvers, show) == NoChallenge <==> challengeId.None? || challengeId.value == 0
    ensures challengeId.Some? && challengeId.value != 0 ==>
      var rows := OfChallenge(solvers, challengeId.value);
      && (TodaysBoard(challengeId, solvers, show) == Undecided <==> rows == map[])
      && (rows != map[] ==>
            TodaysBoard(challengeId, solvers, show)
              == (SpeedHeader + SpeedList(rows, show)) + (Rule + LengthHeader + LengthList(rows)))
  {
    if challengeId.Some? && challengeId.value != 0 {
      var rows := OfChallenge(solvers, challengeId.value);
      if rows != map[] {
        assert rows.Keys != {};
        var speed := SpeedHeader + SpeedList(rows, show);
        assert speed != "";
        var t := TodaysBoard(challengeId, solvers, show);
        assert t[0] == speed[0] == 'T';
      } else {
        assert rows.Keys == {};
      }
    }
  }

  /** The numbered lines of the speed list. */
  method SpeedLines(rows: map<int, Solver>, ids: seq<int>, show: real -> string) returns (text: string)
    requires forall i :: 0 <= i < |ids| ==> ids[i] in rows
    ensures text == Concat(Numbered(SpeedEntries(rows, ids, show), 1))
  {
    ghost var lines := Numbered(SpeedEntries(rows, ids, show), 1);
    text := "";
    for i := 0 to |ids|
      invariant text == Concat(lines[..i])
    {
      var solver := rows[ids[i]];
      var line := Decimal(1 + i) + ". " + (solver.user + " - " + show(solver.result) + "s\n");
      assert line == lines[i];
      ConcatPrefixStep(lines, i);
      text := text + line;
    }
    assert lines[..|ids|] == lines;
  }

  /** The numbered lines of the length list. */
  method LengthLines(rows: map<int, Solver>, ids: seq<int>) returns (text: string)
    requires forall i :: 0 <= i < |ids| ==> ids[i] in rows
    ensures text == Concat(Numbered(LengthEntries(rows, ids), 1))
  {
    ghost var lines := Numbered(LengthEntries(rows, ids), 1);
    text := "";
    for i := 0 to |ids|
      invariant text == Concat(lines[..i])
    {
      var solver := rows[ids[i]];
      var line := Decimal(1 + i) + ". " + (solver.user + " - " + Decimal(solver.codeLength) + " belgi\n");
      assert line == lines[i];
      ConcatPrefixStep(lines, i);
      text := text + line;
    }
    assert lines[..|ids|] == lines;
  }

  /** todays_leaderboard_handler: the two queries, then each list under
      its header. */
  method TodaysText(bd: BotData, db: Database, show: real -> string) returns (text: string)
    ensures text == TodaysBoard(ActiveId(bd.active), db.solvers, show)
  {
    var challengeId := ActiveId(bd.active);
    if challengeId.None? || challengeId.value == 0 {
      text := NoChallenge;
      return;
    }
    var rows := OfChallenge(db.solvers, challengeId.value);
    var bySpeed := SpeedRank(rows);
    var byLength := LengthRank(rows);
    if bySpeed == [] && byLength == [] {
      text := Undecided;
      return;
    }
    var speed := "";
    if bySpeed != [] {
      var lines := SpeedLines(rows, bySpeed, show);
      speed := SpeedHeader + lines;
    }
    var length := "";
    if byLength != [] {
      var rule := "";
      if speed != "" {
        rule := Rule;
      }
      var lines := LengthLines(rows, byLength);
      length := rule + LengthHeader + lines;
    }
    text := speed + length;
  }
}
