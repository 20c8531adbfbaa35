/**
 * The SQLite database of main.py: `users` keyed by `chat_id`, `challenges`
 * and `solvers` keyed by their AUTOINCREMENT rowid, with
 * `UNIQUE(challenge_id, user)` on `solvers`. The JSON-encoded
 * `solved_challenges` column is a sequence of challenge ids.
 */
module Tables {
  import opened Options
  import opened Ranking

  datatype User = User(username: Option<string>, fullName: string, solved: seq<int>, points: int)

  datatype Challenge = Challenge(description: string, solutionPhotoId: string, solutionText: string, tests: string)

  datatype Solver = Solver(challengeId: int, user: string, result: real, solution: string, codeLength: int)

  /** The three tables and the AUTOINCREMENT counters of the two with rowids. */
  datatype Tables = Tables(
    users: map<int, User>,
    challenges: map<int, Challenge>, challengeSeq: nat,
    solvers: map<int, Solver>, solverSeq: nat)
  {
    /** The schema's constraints: rowids are positive and never above their
        counter, and no two solver rows share (challenge_id, user). */
    ghost predicate WellFormed()
    {
      && (forall id :: id in challenges ==> 0 < id <= challengeSeq)
      && (forall id :: id in solvers ==> 0 < id <= solverSeq)
      && (forall a, b :: a in solvers && b in solvers && SameKey(solvers[a], solvers[b]) ==> a == b)
    }
  }

  /** How a user is named in chat_data and on the leaderboard: `@` and the
      Telegram username if there is one, the full name otherwise. */
  function DisplayName(username: Option<string>, fullName: string): string
  {
    if username.Some? && username.value != "" then "@" + username.value else fullName
  }

  predicate SameKey(x: Solver, y: Solver)
  {
    x.challengeId == y.challengeId && x.user == y.user
  }

  /** `SELECT * FROM solvers WHERE challenge_id = ? AND user = ?` finds a row. */
  predicate HasSolver(solvers: map<int, Solver>, challengeId: int, user: string)
  {
    exists id | id in solvers :: solvers[id].challengeId == challengeId && solvers[id].user == user
  }

  /** start_handler: a new user row with no solves and no points, unless a
      row with that chat_id exists already. */
  function Registered(t: Tables, chatId: int, username: Option<string>, fullName: string): Tables
  {
    if chatId in t.users then t
    else t.(users := t.users[chatId := User(username, fullName, [], 0)])
  }

  /** The UPDATE of code_handler: on a first solve by `user` of the
      challenge, the row of the sending chat, if any, gains the challenge
      and one point. */
  function Awarded(t: Tables, challengeId: int, user: string, chatId: int): map<int, User>
  {
    if !HasSolver(t.solvers, challengeId, user) && chatId in t.users then
      var u := t.users[chatId];
      t.users[chatId := u.(solved := u.solved + [challengeId], points := u.points + 1)]
    else t.users
  }

  /** `INSERT OR REPLACE INTO solvers`: the row that clashes on
      (challenge_id, user) is deleted and the new row gets the next rowid. */
  function Upserted(solvers: map<int, Solver>, solverSeq: nat, row: Solver): map<int, Solver>
  {
    var kept := map id | id in solvers && !SameKey(solvers[id], row) :: solvers[id];
    kept[solverSeq + 1 := row]
  }

  /** The table writes of a successful submission. */
  function Solved(t: Tables, challengeId: int, user: string, chatId: int, result: real, code: string): Tables
  {
    t.(users := Awarded(t, challengeId, user, chatId),
       solvers := Upserted(t.solvers, t.solverSeq, Solver(challengeId, user, result, code, |code|)),
       solverSeq := t.solverSeq + 1)
  }

  /** challenge_tests_handler's INSERT: the new row takes the next rowid. */
  function WithChallenge(t: Tables, c: Challenge): Tables
  {
    t.(challenges := t.challenges[t.challengeSeq + 1 := c], challengeSeq := t.challengeSeq + 1)
  }

  /** `SELECT * FROM challenges ORDER BY id DESC LIMIT 1`. */
  function Latest(challenges: map<int, Challenge>): (r: Option<int>)
    ensures r.None? <==> challenges == map[]
    ensures r.Some? ==> r.value in challenges && forall id :: id in challenges ==> id <= r.value
  {
    var byIdDesc := map id | id in challenges :: -(id as real);
    assert byIdDesc.Keys == challenges.Keys;
    if |byIdDesc| == 0 then None
    else
      var b := First(byIdDesc);
      assert forall id :: id in challenges && id != b ==> Precedes(byIdDesc, b, id);
      Some(b)
  }

  // ---- properties of single operations ----

  /** Registration inserts a fresh row only for an unknown chat, and doing
      it again changes nothing, whatever names come with the repetition. */
  lemma RegisterInsertsOnce(t: Tables, chatId: int, username: Option<string>, fullName: string,
                            username': Option<string>, fullName': string)
    ensures chatId !in t.users ==>
      Registered(t, chatId, username, fullName).users == t.users[chatId := User(username, fullName, [], 0)]
    ensures chatId in t.users ==> Registered(t, chatId, username, fullName) == t
    ensures var once := Registered(t, chatId, username, fullName);
      Registered(once, chatId, username', fullName') == once
  {
  }

  /** A first solve (no solver row for the challenge and user) by a
      registered chat appends the challenge and adds exactly one point to
      that chat's row, and to no other row. */
  lemma FirstSolveAwardsOnePoint(t: Tables, challengeId: int, user: string, chatId: int, result: real, code: string)
    requires !HasSolver(t.solvers, challengeId, user) && chatId in t.users
    ensures var after := Solved(t, challengeId, user, chatId, result, code).users;
      && after.Keys == t.users.Keys
      && after[chatId].points == t.users[chatId].points + 1
      && after[chatId].solved == t.users[chatId].solved + [challengeId]
      && after[chatId].username == t.users[chatId].username
      && after[chatId].fullName == t.users[chatId].fullName
      && forall c :: c in t.users && c != chatId ==> after[c] == t.users[c]
  {
  }

  /** Once a solver row for the challenge and user exists, a solve changes
      no user row. */
  lemma RepeatSolveKeepsUsers(t: Tables, challengeId: int, user: string, chatId: int, result: real, code: string)
    requires HasSolver(t.solvers, challengeId, user)
    ensures Solved(t, challengeId, user, chatId, result, code).users == t.users
  {
  }

  /** After a solve the table holds exactly one row for (challenge, user):
      the latest submission with its length; every other row is kept, and
      the schema's constraints still hold. */
  lemma SolveUpsertsOneRow(t: Tables, challengeId: int, user: string, chatId: int, result: real, code: string)
    requires t.WellFormed()
    ensures var after := Solved(t, challengeId, user, chatId, result, code);
      && after.WellFormed()
      && after.solvers[after.solverSeq] == Solver(challengeId, user, result, code, |code|)
      && (forall id :: id in after.solvers && SameKey(after.solvers[id], after.solvers[after.solverSeq])
            ==> id == after.solverSeq)
      && (forall id :: id in t.solvers && !(t.solvers[id].challengeId == challengeId && t.solvers[id].user == user)
            ==> id in after.solvers && after.solvers[id] == t.solvers[id])
      && (forall id :: id in after.solvers && id != after.solverSeq ==> id in t.solvers)
  {
    var after := Solved(t, challengeId, user, chatId, result, code);
    var row := Solver(challengeId, user, result, code, |code|);
    forall a, b | a in after.solvers && b in after.solvers && SameKey(after.solvers[a], after.solvers[b])
      ensures a == b
    {
      if a != after.solverSeq && b != after.solverSeq {
        assert a in t.solvers && b in t.solvers;
      }
    }
  }

  /** A solver row, once written, is never lost: its (challenge, user) pair
      stays in the table. */
  lemma SolveKeepsSolvers(t: Tables, challengeId: int, user: string, chatId: int, result: real, code: string,
                          c: int, u: string)
    requires t.WellFormed() && HasSolver(t.solvers, c, u)
    ensures HasSolver(Solved(t, challengeId, user, chatId, result, code).solvers, c, u)
  {
    var after := Solved(t, challengeId, user, chatId, result, code);
    var id :| id in t.solvers && t.solvers[id].challengeId == c && t.solvers[id].user == u;
    if c == challengeId && u == user {
      assert after.solvers[after.solverSeq].challengeId == c;
    } else {
      assert after.solvers[id] == t.solvers[id];
    }
  }

  /** Submitting again for the same challenge and user leaves the user
      table as the first submission left it. */
  lemma ResubmitAddsNoPoint(t: Tables, challengeId: int, user: string, chatId: int,
                            result: real, code: string, result': real, code': string)
    ensures var once := Solved(t, challengeId, user, chatId, result, code);
      Solved(once, challengeId, user, chatId, result', code').users == once.users
  {
    var once := Solved(t, challengeId, user, chatId, result, code);
    assert once.solvers[once.solverSeq].challengeId == challengeId;
    assert HasSolver(once.solvers, challengeId, user);
  }

  /** One (result, code) pair per passing submission. */
  datatype Run = Run(result: real, code: string)

  function SolveAll(t: Tables, challengeId: int, user: string, chatId: int, runs: seq<Run>): Tables
    decreases |runs|
  {
    if runs == [] then t
    else SolveAll(Solved(t, challengeId, user, chatId, runs[0].result, runs[0].code), challengeId, user, chatId, runs[1..])
  }

  /** However many passing submissions a chat makes for one challenge under
      one user name, its points grow by at most one: by one exactly when
      the chat is registered and no row for (challenge, user) existed. */
  lemma {:induction false} ManySolvesOnePoint(t: Tables, challengeId: int, user: string, chatId: int, runs: seq<Run>)
    requires |runs| > 0 && chatId in t.users
    ensures var after := SolveAll(t, challengeId, user, chatId, runs);
      && chatId in after.users
      && after.users[chatId].points == t.users[chatId].points + (if HasSolver(t.solvers, challengeId, user) then 0 else 1)
    decreases |runs|
  {
    var once := Solved(t, challengeId, user, chatId, runs[0].result, runs[0].code);
    assert once.solvers[once.solverSeq].challengeId == challengeId;
    assert HasSolver(once.solvers, challengeId, user);
    if |runs| > 1 {
      ManySolvesOnePoint(once, challengeId, user, chatId, runs[1..]);
    }
  }

  // ---- the solved-list invariant ----

  predicate NoDuplicates(s: seq<int>)
  {
    forall i, j :: 0 <= i < j < |s| ==> s[i] != s[j]
  }

  /** Every user's solved list is free of duplicates, its length is the
      user's points, and each listed challenge has a solver row under the
      name the user's chat submits with (`names`, the chat_data user names). */
  ghost predicate Consistent(t: Tables, names: map<int, string>)
  {
    forall c :: c in t.users ==>
      && NoDuplicates(t.users[c].solved)
      && t.users[c].points == |t.users[c].solved|
      && (forall cid :: cid in t.users[c].solved ==> c in names && HasSolver(t.solvers, cid, names[c]))
  }

  /** A solve under the chat's current name keeps the invariant. */
  lemma SolvePreservesConsistent(t: Tables, names: map<int, string>, challengeId: int, chatId: int,
                                 result: real, code: string)
    requires t.WellFormed() && Consistent(t, names) && chatId in names
    ensures Consistent(Solved(t, challengeId, names[chatId], chatId, result, code), names)
  {
    var user := names[chatId];
    var after := Solved(t, challengeId, user, chatId, result, code);
    forall c, cid | c in after.users && cid in after.users[c].solved
      ensures c in names && HasSolver(after.solvers, cid, names[c])
    {
      if c == chatId && cid == challengeId {
        assert after.solvers[after.solverSeq].challengeId == challengeId;
      } else {
        assert cid in t.users[c].solved;
        SolveKeepsSolvers(t, challengeId, user, chatId, result, code, cid, names[c]);
      }
    }
    if chatId in t.users && !HasSolver(t.solvers, challengeId, user) {
      assert challengeId !in t.users[chatId].solved;
    }
  }

  /** Registering keeps the invariant when the chat's name is unchanged or
      the chat is new. */
  lemma RegisterPreservesConsistent(t: Tables, names: map<int, string>, chatId: int,
                                    username: Option<string>, fullName: string, name: string)
    requires Consistent(t, names)
    requires chatId !in t.users || (chatId in names && names[chatId] == name)
    ensures Consistent(Registered(t, chatId, username, fullName), names[chatId := name])
  {
    var after := Registered(t, chatId, username, fullName);
    var names' := names[chatId := name];
    forall c, cid | c in after.users && cid in after.users[c].solved
      ensures c in names' && HasSolver(after.solvers, cid, names'[c])
    {
      assert c in t.users && cid in t.users[c].solved;
    }
  }

  /** A chat whose user name changed between two solves of the same
      challenge gets the challenge listed twice and a second point. */
  lemma RenamedUserScoresTwice()
    ensures var t := Tables(map[7 := User(None, "Ali", [], 0)], map[], 0, map[], 0);
      var first := Solved(t, 1, "Ali", 7, 1.5, "code");
      var second := Solved(first, 1, "@ali", 7, 1.5, "code");
      second.users[7].solved == [1, 1] && second.users[7].points == 2
  {
    var t := Tables(map[7 := User(None, "Ali", [], 0)], map[], 0, map[], 0);
    assert !HasSolver(t.solvers, 1, "Ali");
    var first := Solved(t, 1, "Ali", 7, 1.5, "code");
    assert first.solvers.Keys == {1};
    assert "@ali" != "Ali" by { assert "@ali"[0] != "Ali"[0]; }
    assert !HasSolver(first.solvers, 1, "@ali");
  }

  /** Two chats shown under the same name share one solver row: the second
      one's passing submission earns no point and replaces the first one's. */
  lemma SharedNameEarnsNoPoint()
    ensures var t := Tables(map[7 := User(None, "Ali", [], 0), 8 := User(None, "Ali", [], 0)], map[], 0, map[], 0);
      var first := Solved(t, 1, "Ali", 7, 1.5, "a");
      var second := Solved(first, 1, "Ali", 8, 2.5, "bb");
      && second.users[8].points == 0
      && second.solvers == map[2 := Solver(1, "Ali", 2.5, "bb", 2)]
  {
    var t := Tables(map[7 := User(None, "Ali", [], 0), 8 := User(None, "Ali", [], 0)], map[], 0, map[], 0);
    var first := Solved(t, 1, "Ali", 7, 1.5, "a");
    assert first.solvers[1].challengeId == 1;
    var second := Solved(first, 1, "Ali", 8, 2.5, "bb");
    assert second.solvers.Keys == {2};
  }

  /** Each write touches only its own tables: registering writes users
      only, a solve leaves the challenges alone, and a new challenge leaves
      the users and the solvers alone. */
  lemma WritesKeepOtherTables(t: Tables, chatId: int, username: Option<string>, fullName: string,
                              challengeId: int, user: string, result: real, code: string, c: Challenge)
    ensures var r := Registered(t, chatId, username, fullName);
      r.challenges == t.challenges && r.challengeSeq == t.challengeSeq
      && r.solvers == t.solvers && r.solverSeq == t.solverSeq
    ensures var s := Solved(t, challengeId, user, chatId, result, code);
      s.challenges == t.challenges && s.challengeSeq == t.challengeSeq
    ensures var w := WithChallenge(t, c);
      w.users == t.users && w.solvers == t.solvers && w.solverSeq == t.solverSeq
    ensures t.WellFormed() ==> forall id :: id in t.challenges ==>
      id in WithChallenge(t, c).challenges && WithChallenge(t, c).challenges[id] == t.challenges[id]
  {
  }

  /** A new challenge takes an id above every earlier one, so it is the one
      the startup query loads. */
  lemma NewChallengeIsLatest(t: Tables, c: Challenge)
    requires t.WellFormed()
    ensures WithChallenge(t, c).WellFormed()
    ensures t.challengeSeq + 1 !in t.challenges
    ensures Latest(WithChallenge(t, c).challenges) == Some(t.challengeSeq + 1)
  {
    var after := WithChallenge(t, c).challenges;
    var l := Latest(after);
    assert t.challengeSeq + 1 in after;
  }

  /** The database file of main.py, updated in place by the handlers. */
  class Database {
    var users: map<int, User>
    var challenges: map<int, Challenge>
    var challengeSeq: nat
    var solvers: map<int, Solver>
    var solverSeq: nat

    function Snapshot(): Tables
      reads this
    {
      Tables(users, challenges, challengeSeq, solvers, solverSeq)
    }

    ghost predicate Valid()
      reads this
    {
      Snapshot().WellFormed()
    }

    /** setup_database on a new file: three empty tables. */
    constructor ()
      ensures Valid()
      ensures Snapshot() == Tables(map[], map[], 0, map[], 0)
    {
      users, challenges, challengeSeq, solvers, solverSeq := map[], map[], 0, map[], 0;
    }

    /** The SELECT and INSERT of start_handler. */
    method InsertUserIfAbsent(chatId: int, username: Option<string>, fullName: string)
      requires Valid()
      modifies this
      ensures Valid()
      ensures Snapshot() == Registered(old(Snapshot()), chatId, username, fullName)
    {
      if chatId !in users {
        users := users[chatId := User(username, fullName, [], 0)];
      }
    }

    /** The statements code_handler runs for a passing submission. */
    method RecordSolve(challengeId: int, user: string, chatId: int, result: real, code: string)
      requires Valid()
      modifies this
      ensures Valid()
      ensures Snapshot() == Solved(old(Snapshot()), challengeId, user, chatId, result, code)
    {
      SolveUpsertsOneRow(Snapshot(), challengeId, user, chatId, result, code);
      var found := HasSolver(solvers, challengeId, user);
      if !found && chatId in users {
        var u := users[chatId];
        users := users[chatId := u.(solved := u.solved + [challengeId], points := u.points + 1)];
      }
      var row := Solver(challengeId, user, result, code, |code|);
      solvers := (map id | id in solvers && !SameKey(solvers[id], row) :: solvers[id])[solverSeq + 1 := row];
      solverSeq := solverSeq + 1;
    }

    /** The INSERT of challenge_tests_handler; `id` is `cursor.lastrowid`. */
    method InsertChallenge(c: Challenge) returns (id: int)
      requires Valid()
      modifies this
      ensures Valid()
      ensures id == old(challengeSeq) + 1 && id !in old(challenges)
      ensures Snapshot() == WithChallenge(old(Snapshot()), c)
    {
      NewChallengeIsLatest(Snapshot(), c);
      id := challengeSeq + 1;
      challenges := challenges[id := c];
      challengeSeq := id;
    }
  }
}
