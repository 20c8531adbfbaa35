/**
 * The two handlers of main.py that write the database: `start_handler`,
 * which registers the chat, and `code_handler`, which grades a submission
 * and records a passing one.
 */
module Submission {
  import opened Options
  import opened Strings
  import opened Grading
  import opened Tables
  import opened BotState

  datatype Reply = Plain(text: string) | Html(text: string)

  /** How a code submission ended. */
  datatype Outcome =
    | Ignored                                            // no tests loaded: nothing sent, nothing written
    | Raised(request: seq<SourceFile>)                   // an exception after the grading call: no reply
    | Answered(request: seq<SourceFile>, replies: seq<Reply>)

  const CheckMark: string := "\U{2705}"

  /** The echo of the grading service's output: tags stripped, in a code block. */
  function CodeBlock(text: string): string
  {
    "<code>" + StripTags(text) + "</code>"
  }

  /** `start_handler`: registers the chat if it is new, and remembers the
      name its submissions are recorded under. */
  method StartHandler(db: Database, chats: ChatData, chatId: int, username: Option<string>, fullName: string)
    requires db.Valid()
    modifies db, chats
    ensures db.Valid()
    ensures db.Snapshot() == Registered(old(db.Snapshot()), chatId, username, fullName)
    ensures chats.usernames == old(chats.usernames)[chatId := DisplayName(username, fullName)]
  {
    db.InsertUserIfAbsent(chatId, username, fullName);
    if username.Some? && username.value != "" {
      chats.usernames := chats.usernames[chatId := "@" + username.value];
    } else {
      chats.usernames := chats.usernames[chatId := fullName];
    }
  }

  /** `code_handler`. The grading service's `stderr` field is an input (`None` when
      the response lacks it). */
  method HandleCode(db: Database, bd: BotData, chats: ChatData, developer: string, chatId: int,
                    msg: Upload, stderr: Option<string>) returns (outcome: Outcome)
    requires db.Valid()
    modifies db
    ensures db.Valid()
    ensures bd.active.None? || bd.active.value.tests == "" ==>
      outcome == Ignored && db.Snapshot() == old(db.Snapshot())
    ensures IsDeveloper(developer, chatId) ==> db.Snapshot() == old(db.Snapshot())
    ensures bd.active.Some? && bd.active.value.tests != "" ==>
      var request := Bundle(bd.active.value.tests, ChosenCode(msg));
      match stderr
      case None => outcome == Raised(request) && db.Snapshot() == old(db.Snapshot())
      case Some(output) =>
        var text := ShownText(output);
        if !Passed(text, developer, chatId) then
          outcome == Answered(request, [Html(CodeBlock(text))]) && db.Snapshot() == old(db.Snapshot())
        else if chatId !in chats.usernames || ElapsedSeconds(text).None? then
          outcome == Raised(request) && db.Snapshot() == old(db.Snapshot())
        else
          && outcome == Answered(request, [Plain(CheckMark), Html(CodeBlock(text))])
          && db.Snapshot() == Solved(old(db.Snapshot()), bd.active.value.challengeId, chats.usernames[chatId],
                                     chatId, ElapsedSeconds(text).value, ChosenCode(msg))
  {
    if bd.active.None? || bd.active.value.tests == "" {
      return Ignored;
    }
    var tests := bd.active.value.tests;
    var code := SubmittedCode(msg);
    var request := Bundle(tests, code);
    if stderr.None? {
      return Raised(request);
    }
    var text := ShownText(stderr.value);
    outcome := Answer(db, bd.active.value.challengeId, chats, developer, chatId, code, request, text);
  }

  /** The part of `code_handler` after the grading call: the success test,
      then the solve's table writes and the replies. */
  method Answer(db: Database, challengeId: int, chats: ChatData, developer: string, chatId: int,
                code: string, request: seq<SourceFile>, text: string) returns (outcome: Outcome)
    requires db.Valid()
    modifies db
    ensures db.Valid()
    ensures !Passed(text, developer, chatId) ==>
      outcome == Answered(request, [Html(CodeBlock(text))]) && db.Snapshot() == old(db.Snapshot())
    ensures Passed(text, developer, chatId) && (chatId !in chats.usernames || ElapsedSeconds(text).None?) ==>
      outcome == Raised(request) && db.Snapshot() == old(db.Snapshot())
    ensures Passed(text, developer, chatId) && chatId in chats.usernames && ElapsedSeconds(text).Some? ==>
      && outcome == Answered(request, [Plain(CheckMark), Html(CodeBlock(text))])
      && db.Snapshot() == Solved(old(db.Snapshot()), challengeId, chats.usernames[chatId], chatId,
                                 ElapsedSeconds(text).value, code)
  {
    var replies: seq<Reply> := [];
    if EndsWith(text, "OK\n") && developer != Decimal(chatId) {
      if chatId !in chats.usernames {
        return Raised(request);
      }
      var username := chats.usernames[chatId];
      var result := ElapsedSeconds(text);
      if result.None? {
        return Raised(request);
      }
      db.RecordSolve(challengeId, username, chatId, result.value, code);
      replies := [Plain(CheckMark)];
    }
    replies := replies + [Html(CodeBlock(text))];
    outcome := Answered(request, replies);
  }
}
