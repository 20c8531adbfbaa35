# A model of the code-checker Telegram bot

This project models the core of a Telegram bot for programming challenges,
as written in `main.py` (the SQLite bot) and `main_copy.py` (an older
MongoDB variant).

- **Challenges and submissions.** The developer posts a daily challenge
  through a four-step conversation. Users send Python code as a text or a
  `.py` file.
- **Grading.** The bot posts the code with the challenge's tests to a
  grading service. It shortens the service's stderr at a divider line and
  strips tags from it. A text ending in `OK\n` counts as a pass, unless
  the developer sent it.
- **Recording a pass.** A pass awards one point on the first solve of a
  challenge. It also upserts the user's solver row, which holds the
  elapsed time and the code length.
- **Reading and tracking.** Leaderboards rank users by points, and the
  solvers of the day by speed and by code length. The bot tracks the
  chats it is a member of.

Every state is explicit:

- The three SQLite tables are maps keyed by primary key or rowid, with the
  AUTOINCREMENT counters (`Tables.Tables`). The `Tables.Database` class
  updates them in place.
- `bot_data` and `chat_data` are the classes `BotState.BotData` and
  `BotState.ChatData`.
- The challenge conversation is the class `Authoring.Conversation`.

Each method that changes state is proved against a specification function
on values:

- `Registered`, `Solved`, `WithChallenge` for the database.
- `Tracked`, `Started` for the chat sets.
- `Step` for the conversation.
- `TopBoard`, `TodaysBoard`, `Keyboard` for the replies.

The lemmas state what the bot promises about those functions.

Modules, one per file:

- `Options`: the option type.
- `Strings`: Python's `str(int)`, `find`, `replace`, `endswith`, `"".join`, and the tag-stripping `re.sub`.
- `Ranking`: `ORDER BY … LIMIT k`.
- `Grading`: the divider surgery, the success test, the elapsed-time regex, the request bundle, and reading a submission.
- `Tables`: the SQLite tables and their updates.
- `BotState`: `bot_data` and `chat_data`, and the startup load.
- `Membership`: `extract_status_change`, `track_chats`, and `start` of `main_copy.py`.
- `Submission`: `start_handler` and `code_handler`.
- `Authoring`: the new-challenge conversation.
- `Listing`: `enumerate`-numbered lines.
- `Leaderboard`: `/top` and `/bugungi_top`.
- `Tasks`: the paginated task keyboard of `main_copy.py`.

`code_handler` searches the elapsed time with `\d+\.\d+` in the shown
text, which is cut at the first divider (main.py:214), not in the full
output. `Submission.HandleCode` does the same.

## Definitions

The functions below model the source's computations. The "## Model" table lists what is proved about them.

| function | source | models |
|---|---|---|
| Strings.ReplaceAll | main.py:209 | `str.replace`: every occurrence, from the left, without overlap |
| Strings.StripTags | main.py:255 | `re.sub(r"<([^>]+)>", r"\1", text)` |
| Grading.ShownText | main.py:207-211 | the grading output from its first divider on, every divider replaced by `---`; the whole output without a divider |
| Grading.IsDeveloper | main.py:212 | `DEVELOPER_CHAT_ID == str(chat_id)` |
| Grading.Passed | main.py:212 | the text ends with `OK\n` and the sender is not the developer |
| Grading.ChosenCode | main.py:184-190 | the message text when there is one, otherwise the document's lines joined |
| Grading.JoinedCode | main_copy.py:176-186 | the message text followed by the document's lines |
| Grading.Bundle | main.py:196-201 | the request: `tests.py` with the tests, then `user_code.py` with the code |
| Grading.UnitTestBundle | main_copy.py:195-200 | the request: `unit_tests.py`, then `user_code.py` |
| Tables.Registered | main.py:149-162 | `INSERT OR IGNORE` of a new user row with no solves and no points |
| Tables.Awarded | main.py:226-242 | the UPDATE of a first solve: the sender's row gains the challenge and one point |
| Tables.Upserted | main.py:244-249 | `INSERT OR REPLACE INTO solvers` at the next rowid |
| Tables.Solved | main.py:216-249 | the table writes of a passing submission |
| Tables.WithChallenge | main.py:316-325 | the INSERT of a new challenge at the next rowid |
| Membership.Tracked | main.py:526-549 | `track_chats`' set update for one membership change |
| Membership.Started | main_copy.py:102-103 | `/start` adds the chat and the user to their sets |
| Leaderboard.Top | main.py:430 | the chat ids of `/top`'s query, best first |
| Leaderboard.TopBoard | main.py:434-442 | the `/top` reply |
| Leaderboard.TodaysBoard | main.py:445-488 | the `/bugungi_top` reply |
| Tasks.Keyboard | main_copy.py:143-145 | one numbered button row per task of the page |
| Submission.CodeBlock | main.py:255-257 | the echoed text, tags stripped, inside `<code>` |
| Authoring.Run | main.py:618-642 | the conversation handler applied to a sequence of messages |

## Model

| member | source | states |
|---|---|---|
| Strings.Find | main.py:207-208 | `None` exactly when the pattern does not occur; otherwise the index of its first occurrence |
| Strings.FindFrom | main.py:208 | the first occurrence at or after a start index, and `None` exactly when there is none from there on |
| Strings.ReplaceAbsent | main.py:209 | `replace` of a pattern that does not occur returns the text unchanged |
| Strings.ReplaceShortens | main.py:209 | replacing the divider by a shorter separator never lengthens the text, and shortens it strictly when the divider occurs |
| Strings.ReplaceUnchangedIff | main.py:207-211 | with a shorter replacement, the text is unchanged exactly when the pattern does not occur (both directions) |
| Strings.DeleteCharRemovesAll | main.py:304 | `replace("`", "")` leaves no backtick at any index |
| Strings.StripTagsKeepsText | main.py:255 | the tag substitution deletes angle brackets only: every other character survives, in order |
| Strings.StripTagsWithoutOpen | main.py:255 | a text without `<` is echoed unchanged |
| Strings.StripTagsShortensTag | main.py:255 | a text holding a tag `<x>` (`x` non-empty, without `>`) comes out strictly shorter: a tag loses its brackets |
| Strings.StripTagsUnchangedIff | main.py:255 | the substitution leaves the text unchanged exactly when it holds no tag (both directions) |
| Strings.DigitsInjective | main.py:212 | two naturals with the same decimal digits are equal |
| Strings.DecimalInjective | main.py:212 | `str` on integers is injective, so comparing `str(chat_id)` with the developer id identifies one chat |
| Grading.ShownTextWithoutDivider | main.py:210-211 | without a divider the shown text is the whole output |
| Grading.ShownTextFromFirstDivider | main.py:207-209 | with a divider, the shown text is the rest of the output from the FIRST divider with every divider replaced. No earlier index holds a divider. The text starts with `---` and is strictly shorter than that rest. |
| Grading.DeveloperUnique | main.py:212 | one configured developer id matches at most one chat id |
| Grading.SearchFrom | main.py:214 | the span found starts at or after the start index and no match of `\d+\.\d+` starts earlier from there |
| Grading.MatchAtSound | main.py:214 | a span the matcher accepts has the shape digits, dot, digits, and its fraction is taken greedily |
| Grading.MatchAtComplete | main.py:214 | whenever a substring starting at `i` has the regex's shape, the matcher accepts at `i` |
| Grading.SearchIsLeftmostMatch | main.py:214 | `re.search` finds nothing exactly when no substring has the shape. Otherwise its span has the shape, is greedy, and is leftmost. |
| Grading.ElapsedSeconds | main.py:214 | the parsed elapsed time is non-negative, and absent exactly when the regex finds no match (where the source raises) |
| Grading.BundlesRoundTrip | main.py:196-201 | each request holds two distinctly named files, and the tests and the user's code are found under their names. This covers `tests.py` here and `unit_tests.py` in main_copy.py. |
| Grading.ReadLines | main.py:189-190 | the loop over the file's lines yields their concatenation |
| Grading.SubmittedCode | main.py:184-190 | the graded code is the text if there is one, otherwise the downloaded file |
| Grading.SubmittedCodeJoined | main_copy.py:176-186 | the graded code is the text followed by the downloaded file |
| Grading.ChosenAndJoinedCode | main_copy.py:178-186 | the two bots read a message with only a text or only a file alike. A message with both is the text alone in main.py, and the text plus the file, a different string, in main_copy.py. |
| Grading.SendCodeRequest | main_copy.py:195-200 | the posted payload is `unit_tests.py` with the selected exercise's tests, then `user_code.py` with the joined code |
| Ranking.First | main.py:589 | the row `ORDER BY … LIMIT 1` returns precedes every other row |
| Ranking.Rank | main.py:430 | `ORDER BY score LIMIT k` returns min(k, rows) distinct rows of the table, in order. No row left out precedes one that is taken. |
| Ranking.RankTakesAll | main.py:459-468 | with room for every row, the limited query returns all of them |
| Tables.Latest | main.py:589-592 | none exactly when the table is empty; otherwise an existing id at least every other id |
| Tables.RegisterInsertsOnce | main.py:149-162 | a new chat gets a row with no solves and 0 points. A known chat's row is untouched. Repeating the registration changes nothing, whatever names it carries. |
| Tables.FirstSolveAwardsOnePoint | main.py:226-242 | on a first solve by a registered chat, that row gains the challenge id and exactly one point, and no other row changes |
| Tables.RepeatSolveKeepsUsers | main.py:220-226 | once a solver row for (challenge, user) exists, a solve leaves the users table unchanged |
| Tables.SolveUpsertsOneRow | main.py:245-249 | after a solve, exactly one solver row has that (challenge, user): the latest code with its length. Other rows are kept and the schema's UNIQUE constraint still holds. |
| Tables.SolveKeepsSolvers | main.py:245-249 | a solver pair, once written, stays in the table |
| Tables.ResubmitAddsNoPoint | main.py:219-242 | a second passing submission for the same challenge and user leaves the users table as the first left it |
| Tables.ManySolvesOnePoint | main.py:219-249 | any number of passing submissions under one name raise the chat's points by at most one: by one exactly when no solver row existed |
| Tables.SolvePreservesConsistent | main.py:219-249 | with stable chat names: solved lists stay duplicate-free, points equal their length, and each solved challenge has a solver row |
| Tables.RegisterPreservesConsistent | main.py:149-168 | registering keeps that invariant for a new chat or an unchanged name |
| Tables.RenamedUserScoresTwice | main.py:213-236 | a chat that changes its name between two solves of one challenge gets it listed twice and two points |
| Tables.SharedNameEarnsNoPoint | main.py:213-249 | two chats shown under one name share a solver row: the second earns no point and overwrites the first's row |
| Tables.WritesKeepOtherTables | main.py:149-325 | registration (149-162) writes only users; a solve (216-249) leaves the challenges and their counter alone; a new challenge (316-325) leaves users and solvers alone, and every challenge already stored keeps its id and its values |
| Tables.NewChallengeIsLatest | main.py:316-325 | a new challenge takes a fresh id above all others, and is the one the startup query loads |
| Tables.Database.constructor | main.py:49-91 | a new database has three empty tables and zero counters |
| Tables.Database.InsertUserIfAbsent | main.py:149-162 | the tables become `Registered` of the old ones; the schema's constraints are kept |
| Tables.Database.RecordSolve | main.py:216-249 | the tables become `Solved` of the old ones (the UPDATE when it is a first solve, then the upsert); the constraints are kept |
| Tables.Database.InsertChallenge | main.py:316-325 | the challenge is inserted under the next rowid, which is returned as `lastrowid` |
| BotState.LoadLatestChallenge | main.py:587-600 | at startup, bot_data's challenge becomes the row with the largest id when there is one, and is left alone otherwise |
| Membership.ExtractStatusChange | main.py:112-139 | `None` exactly when the status did not change. Otherwise, whether the bot was and is in the chat: owner, administrator or member, or restricted with `is_member` true. main_copy.py:68-92 is the same. |
| Membership.TrackedChangesOneSet | main.py:514-549 | the chat id is added to its kind's set only on a join, discarded only on a leave, and the set is unchanged otherwise. The sets of the other kinds never change. main_copy.py:215-254 is the same. |
| Membership.TrackedIdempotent | main.py:526-549 | handling the same membership update twice equals handling it once |
| Membership.TrackChats | main.py:514-549 | the bot_data sets become `Tracked` of the old ones under `ExtractStatusChange`; the active challenge is untouched |
| Membership.StartedIdempotent | main_copy.py:102-103 | `/start` puts the chat in `chat_ids` and the user in `user_ids`, touches no other set, and repeating it changes nothing |
| Membership.Start | main_copy.py:96-103 | the bot_data sets become `Started` of the old ones |
| Submission.StartHandler | main.py:145-168 | the tables become `Registered`, and chat_data's name becomes `@username`, or the full name when there is no username |
| Submission.HandleCode | main.py:178-257 | See the list below the table. |
| Submission.Answer | main.py:212-257 | after the grading call: a failed text is echoed and nothing is written; a pass without a chat name or an elapsed time raises; otherwise the tables become `Solved` and the replies are the check mark and the code block |
| Authoring.Step | main.py:260-342 | every step keeps the drafts a later stage needs |
| Authoring.EntryGate | main.py:260-268 | `/yangi_masala` ends the conversation for anyone but the developer, and restarts it at the description for the developer; it creates nothing |
| Authoring.StepAdvancesOneStage | main.py:618-642 | apart from the entry command, an update leaves the stage and drafts as they were or moves one stage on. A challenge is created exactly on leaving the test stage. |
| Authoring.SolutionStepSetsOne | main.py:281-295 | the solution step stores the photo id and sets the text to `""`, or stores the text and sets the photo id to `""` |
| Authoring.TestsWithoutBackticks | main.py:303-304 | tests sent as text contain no backtick |
| Authoring.DeveloperCreatesChallenge | main.py:260-342 | the developer's command, description, solution and tests create exactly one challenge holding them, and end the conversation |
| Authoring.OutsiderCreatesNothing | main.py:260-268 | whatever a non-developer sends, the conversation stays ended and no challenge is created |
| Authoring.Conversation.Receive | main.py:260-342 | the conversation moves as `Step` says. When it creates a challenge, that challenge is inserted under the next id and becomes bot_data's challenge with that id and its tests. Otherwise neither the tables nor bot_data change. |
| Listing.NumberedAppend | main_copy.py:144 | numbering two lists in turn, the second from where the first stopped, numbers their concatenation |
| Listing.NumberedLinesDistinct | main.py:437-439 | two different positions give different lines, whatever the items: each line starts with its own number up to the first `.` |
| Leaderboard.TopSelection | main.py:430 | `/top` lists min(10, scorers) distinct users, all with points > 0, in non-increasing order of points. Nobody left out has more points than someone listed. |
| Leaderboard.TopBoardCases | main.py:434-442 | the reply is "hali aniqlanmagan" exactly when nobody has a point; otherwise it opens with rank 1 |
| Leaderboard.TopLines | main.py:436-439 | the loop's text is the numbered lines `i. name - points ball` |
| Leaderboard.LeaderboardText | main.py:426-442 | the reply is `TopBoard` of the users table |
| Leaderboard.OfChallenge | main.py:459-461 | exactly the solver rows of the active challenge, each with its stored values |
| Leaderboard.SpeedRank | main.py:459-463 | min(10, rows) distinct solver rows of the challenge, in ascending result. No row left out has a smaller result than one listed. |
| Leaderboard.LengthRank | main.py:465-469 | min(10, rows) distinct solver rows of the challenge, in ascending code length. No row left out has a shorter code than one listed. |
| Leaderboard.SpeedAndLengthAgree | main.py:459-474 | the two lists have equal length; with at most ten solvers both list every solver |
| Leaderboard.TodaysBoardCases | main.py:445-488 | "Bugun uchun masala topilmadi." exactly when bot_data has no challenge id, or 0. Then "hali aniqlanmagan" exactly when the challenge has no solver. Otherwise the speed list, the rule, then the length list. |
| Leaderboard.SpeedLines | main.py:476-479 | the loop's text is the numbered lines `i. user - result s` |
| Leaderboard.LengthLines | main.py:483-486 | the loop's text is the numbered lines `i. user - code_length belgi` |
| Leaderboard.TodaysText | main.py:445-488 | the reply is `TodaysBoard` of bot_data's challenge id and the solvers table |
| Tasks.AtLevel | main_copy.py:141 | the found tasks are tasks of that level, and every task of the level is found |
| Tasks.AtLevelCounts | main_copy.py:141 | each task of the level is found as often as the collection holds it, and no other task is found |
| Tasks.AtLevelAppend | main_copy.py:141 | the query keeps collection order: two consecutive parts of the collection are found in turn |
| Tasks.Page | main_copy.py:141 | skip-then-limit: at most ten tasks, exactly the level's tasks from `offset` on |
| Tasks.PageButtons | main_copy.py:143-145 | the loop builds one button row per task of the page, as `Keyboard` says |
| Tasks.TaskButtons | main_copy.py:136-150 | the keyboard is that of the page the query returns |
| Tasks.KeyboardNumbering | main_copy.py:141-145 | at most ten buttons. The k-th is labelled `offset + 1 + k. title` with the level's task at `offset + k`, and calls back with that task's id. |
| Tasks.PagesContinue | main_copy.py:141-145 | the numbering of the next page continues where a full page stopped |

`Submission.HandleCode` (main.py:178-257) states these cases:

- With no tests in bot_data, nothing is sent and nothing is written.
- The developer never writes to the tables.
- A missing `stderr` raises.
- A text that fails the success test is echoed as a code block.
- A pass with no chat name, or with no elapsed time in the text, raises.
- Otherwise the tables become `Solved`, and the replies are the check mark and the code block.

## Left out

- Telegram wiring is left out:
  - handler registration and handler order
  - `run_polling`, `PicklePersistence`
  - the dispatch between the conversation and `code_handler`
  - every reply call; the replies are returned as values
- Network I/O is left out. The grading service's HTTP call is replaced by its `stderr` field, given as an input. `urlopen` downloads are replaced by the file's lines, given as an input.
- `main_copy.py` reads the unit-test file from disk; that content is an input of `Grading.SendCodeRequest`.
- SQLite and MongoDB access are left out. The tables are maps, and `solved_challenges` is a sequence rather than JSON text.
- Logging, `error_handler`, `show_chats` and the read-only handlers are left out:
  - `challenge_info_handler`, `post_bugungi_masala_handler`
  - `help_handler`, `solution_handler`, `post_solution_handler`
  - these only format and send what is already stored
- The menu handlers of `main_copy.py` are left out: `main_menu`, `choose_level` and `task_selected`.
  - `choose_level` stores `user_data['offset'] = 0` (main_copy.py:126), which `tasks` reads. In the model the offset is an input of `Tasks.TaskButtons`.
  - `task_selected` stores the chosen task's id in `chat_data['task_id']` (main_copy.py:158), which `send_code` reads. In the model the selected task's unit tests are an input of `Grading.SendCodeRequest`.
- Grading.ElapsedSeconds: the value is the exact decimal that the matched text denotes. Binary floating-point rounding is not modelled. Python's rendering of a float in `/bugungi_top` is a function parameter.
- Strings.StripTagsKeepsText: states only that the characters other than brackets survive, in order. That a tag loses its brackets is stated by `Strings.StripTagsShortensTag` and `Strings.StripTagsUnchangedIff`. Which brackets go is not stated position by position.
- Grading.SearchFrom: `\d` is modelled as the ASCII digits only. Python also accepts other Unicode decimal digits.
- Ranking.Rank: SQL leaves the order of equal scores open. The model breaks ties by ascending key.
- `BotState.BotData`: a set that `setdefault` has not created yet is modelled as the empty set.
- `main.py` and `main_copy.py` share `bot_data` fields under one class. Each handler touches only its own fields.
- `Membership.Difference`: an absent `is_member` attribute is modelled as `None`.
- Tables.Database.RecordSolve: requires the schema's constraints (`Valid`) before the call, as the database guarantees them.
- Tables.SolvePreservesConsistent: the invariant holds only while each chat keeps its name. `Tables.RenamedUserScoresTwice` shows a renamed chat breaking it with a second point for one challenge.
  - The cause is that main.py keys the solved check by name and the point update by chat id.
  - `Tables.SharedNameEarnsNoPoint` is a separate effect of the same keying. It keeps the invariant, but the second chat under a shared name earns no point and overwrites the first chat's solver row.
- Tasks.TaskButtons: `int(update.message.text)` parsing of the level is left out; the level is an integer input.
- Tasks.TaskButtons: the offset is a natural number, read from `user_data['offset']`. Only `choose_level` (main_copy.py:125-126) sets it, and no handler is registered for `choose_level`.
- Tasks.TaskButtons: as main_copy.py is wired, the modelled numbering cannot be reached. `tasks` is registered for the text `Tasks` only (main_copy.py:312), so `int("Tasks")` raises before any query. The offset is also never set.
- Grading.SendCodeRequest: as wired, `send_code` cannot be reached, because its handler is commented out (main_copy.py:321-324). The model states what the function would post if it were called.
- Authoring.Conversation: only the conversation's own stages are modelled. Its persistence and per-user keying by the framework are left out.
