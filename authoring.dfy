/**
 * The developer's conversation that creates a challenge (main.py's
 * `new_challenge_handler` and the three `challenge_*_handler`s, wired into
 * a ConversationHandler with re-entry allowed). Each update is offered to
 * the entry command first, then to the handlers of the current state; an
 * update no handler accepts leaves everything as it was.
 */
module Authoring {
  import opened Options
  import opened Strings
  import opened Grading
  import opened Tables
  import opened BotState

  /** CHALLENGE_DESCRIPTION, CHALLENGE_SOLUTION, CHALLENGE_TEST, or no
      conversation (ConversationHandler.END). */
  datatype Stage = Ended | AwaitingDescription | AwaitingSolution | AwaitingTests

  /** A message as the conversation's filters see it. */
  datatype Message =
    | Command(name: string)
      /** A text that is not a command, with the framework's `text_html` and
          `text_markdown_v2` renderings. */
    | Text(html: string, markdownV2: string)
      /** A photo; `fileId` is `photo[0].file_id`. */
    | Photo(fileId: string)
      /** An uploaded file, downloaded as lines; `python` is `Document.PY`. */
    | Document(python: bool, lines: seq<string>)
    | Other

  const EntryCommand: string := "yangi_masala"

  const Greeting: string := "Hello, Developer!\n\nSend description of new challenge"
  const AskSolution: string := "Send solution picture or text"
  const AskTests: string := "Send test file"
  const Added: string := "New challenge added"

  /** The conversation's state and the drafts it keeps in user_data. */
  datatype Draft = Draft(stage: Stage, description: Option<string>, solutionPhotoId: Option<string>, solutionText: Option<string>)

  /** What the earlier stages have stored is there when a later one needs it. */
  predicate Ready(d: Draft)
  {
    && (d.stage == AwaitingSolution ==> d.description.Some?)
    && (d.stage == AwaitingTests ==> d.description.Some? && d.solutionPhotoId.Some? && d.solutionText.Some?)
  }

  /** The tests a message in the test stage carries: a text loses its
      backticks, a file is read whole. */
  function TestsOf(msg: Message): string
    requires msg.Text? || msg.Document?
  {
    if msg.Text? then ReplaceAll(msg.markdownV2, "`", "") else Concat(msg.lines)
  }

  /** The result of one update. */
  datatype Effect = Effect(next: Draft, created: Option<Challenge>, reply: Option<string>)

  function Step(d: Draft, msg: Message, isDeveloper: bool): (e: Effect)
    requires Ready(d)
    ensures Ready(e.next)
  {
    if msg == Command(EntryCommand) then
      if isDeveloper then Effect(d.(stage := AwaitingDescription), None, Some(Greeting))
      else Effect(d.(stage := Ended), None, None)
    else
      match d.stage
      case Ended => Effect(d, None, None)
      case AwaitingDescription =>
        if msg.Text? then Effect(d.(stage := AwaitingSolution, description := Some(msg.html)), None, Some(AskSolution))
        else Effect(d, None, None)
      case AwaitingSolution =>
        if msg.Photo? then
          Effect(d.(stage := AwaitingTests, solutionPhotoId := Some(msg.fileId), solutionText := Some("")), None, Some(AskTests))
        else if msg.Text? then
          Effect(d.(stage := AwaitingTests, solutionText := Some(msg.html), solutionPhotoId := Some("")), None, Some(AskTests))
        else Effect(d, None, None)
      case AwaitingTests =>
        if msg.Text? || (msg.Document? && msg.python) then
          var c := Challenge(d.description.value, d.solutionPhotoId.value, d.solutionText.value, TestsOf(msg));
          Effect(d.(stage := Ended), Some(c), Some(Added))
        else Effect(d, None, None)
  }

  /** A sequence of updates: the final draft and the challenges created. */
  function Run(d: Draft, msgs: seq<Message>, isDeveloper: bool): (r: (Draft, seq<Challenge>))
    requires Ready(d)
    ensures Ready(r.0)
    decreases |msgs|
  {
    if msgs == [] then (d, [])
    else
      var e := Step(d, msgs[0], isDeveloper);
      var rest := Run(e.next, msgs[1..], isDeveloper);
      (rest.0, (if e.created.Some? then [e.created.value] else []) + rest.1)
  }

  function Successor(s: Stage): Stage
  {
    match s
    case Ended => Ended
    case AwaitingDescription => AwaitingSolution
    case AwaitingSolution => AwaitingTests
    case AwaitingTests => Ended
  }

  /** Apart from the entry command, an update either leaves the stage alone
      or moves it one stage on; a challenge is created exactly on the step
      out of the test stage. */
  lemma StepAdvancesOneStage(d: Draft, msg: Message, isDeveloper: bool)
    requires Ready(d) && msg != Command(EntryCommand)
    ensures var e := Step(d, msg, isDeveloper);
      && (e.next.stage == d.stage || e.next.stage == Successor(d.stage))
      && (e.created.Some? <==> d.stage == AwaitingTests && e.next.stage == Ended)
      && (e.next.stage == d.stage ==> e.next == d && e.reply.None?)
  {
  }

  /** The entry command ends the conversation for anyone but the developer,
      and restarts it at the description for the developer. */
  lemma EntryGate(d: Draft, isDeveloper: bool)
    requires Ready(d)
    ensures var e := Step(d, Command(EntryCommand), isDeveloper);
      && e.created.None?
      && e.next.stage == (if isDeveloper then AwaitingDescription else Ended)
      && (!isDeveloper ==> e.reply.None?)
  {
  }

  /** The solution stage stores a photo id or a solution text, and sets the
      other one to the empty string. */
  lemma SolutionStepSetsOne(d: Draft, msg: Message, isDeveloper: bool)
    requires Ready(d) && d.stage == AwaitingSolution && (msg.Photo? || msg.Text?)
    ensures var n := Step(d, msg, isDeveloper).next;
      && n.stage == AwaitingTests
      && (msg.Photo? ==> n.solutionPhotoId == Some(msg.fileId) && n.solutionText == Some(""))
      && (msg.Text? ==> n.solutionText == Some(msg.html) && n.solutionPhotoId == Some(""))
  {
  }

  /** Tests sent as text keep no backtick. */
  lemma TestsWithoutBackticks(msg: Message)
    requires msg.Text?
    ensures forall i :: 0 <= i < |TestsOf(msg)| ==> TestsOf(msg)[i] != '`'
  {
    DeleteCharRemovesAll(msg.markdownV2, '`');
  }

  /** The developer's four messages (command, description, solution, tests)
      create one challenge holding what they carried, and end the
      conversation. */
  lemma DeveloperCreatesChallenge(d: Draft, desc: Message, solution: Message, tests: Message)
    requires Ready(d)
    requires desc.Text? && (solution.Photo? || solution.Text?)
    requires tests.Text? || (tests.Document? && tests.python)
    ensures var r := Run(d, [Command(EntryCommand), desc, solution, tests], true);
      && r.0.stage == Ended
      && r.1 == [Challenge(desc.html,
                           if solution.Photo? then solution.fileId else "",
                           if solution.Text? then solution.html else "",
                           TestsOf(tests))]
  {
    var e0 := Step(d, Command(EntryCommand), true);
    var e1 := Step(e0.next, desc, true);
    var e2 := Step(e1.next, solution, true);
    var e3 := Step(e2.next, tests, true);
    assert e0.next.stage == AwaitingDescription && e0.created.None?;
    assert e1.next.stage == AwaitingSolution && e1.created.None?;
    assert e2.next.stage == AwaitingTests && e2.created.None?;
    var c := e3.created.value;
    var r3 := Run(e3.next, [], true);
    assert r3 == (e3.next, []);
    assert [tests][1..] == [];
    var r2 := Run(e2.next, [tests], true);
    assert r2.0 == e3.next && r2.1 == [c];
    assert [solution, tests][1..] == [tests];
    var r1 := Run(e1.next, [solution, tests], true);
    assert r1.0 == e3.next && r1.1 == r2.1;
    assert [desc, solution, tests][1..] == [solution, tests];
    var r0 := Run(e0.next, [desc, solution, tests], true);
    assert r0.0 == e3.next && r0.1 == r1.1;
    assert [Command(EntryCommand), desc, solution, tests][1..] == [desc, solution, tests];
  }

  /** Whatever anyone but the developer sends, no conversation starts and
      no challenge is created. */
  lemma {:induction false} OutsiderCreatesNothing(d: Draft, msgs: seq<Message>)
    requires Ready(d) && d.stage == Ended
    ensures Run(d, msgs, false).0.stage == Ended && Run(d, msgs, false).1 == []
    decreases |msgs|
  {
    if msgs != [] {
      var e := Step(d, msgs[0], false);
      assert e.next.stage == Ended && e.created.None?;
      OutsiderCreatesNothing(e.next, msgs[1..]);
    }
  }

  /** The conversation of one developer chat, updated in place. */
  class Conversation {
    var stage: Stage
    var description: Option<string>
    var solutionPhotoId: Option<string>
    var solutionText: Option<string>

    function Snapshot(): Draft
      reads this
    {
      Draft(stage, description, solutionPhotoId, solutionText)
    }

    ghost predicate Valid()
      reads this
    {
      Ready(Snapshot())
    }

    constructor ()
      ensures Valid() && Snapshot() == Draft(Ended, None, None, None)
    {
      stage, description, solutionPhotoId, solutionText := Ended, None, None, None;
    }

    /** One update from chat `chatId`; a created challenge is inserted into
        the database and becomes the active one in bot_data. */
    method Receive(msg: Message, developer: string, chatId: int, db: Database, bd: BotData)
      returns (reply: Option<string>)
      requires Valid() && db.Valid()
      modifies this, db, bd
      ensures Valid() && db.Valid()
      ensures var e := Step(old(Snapshot()), msg, IsDeveloper(developer, chatId));
        && Snapshot() == e.next
        && reply == e.reply
        && bd.Sets() == old(bd.Sets())
        && match e.created
           case None => db.Snapshot() == old(db.Snapshot()) && bd.active == old(bd.active)
           case Some(c) =>
             && db.Snapshot() == WithChallenge(old(db.Snapshot()), c)
             && bd.active == Some(Activated(old(db.challengeSeq) + 1, c))
    {
      reply := None;
      if msg == Command(EntryCommand) {
        if Decimal(chatId) == developer {
          reply := Some(Greeting);
          stage := AwaitingDescription;
        } else {
          stage := Ended;
        }
        return;
      }
      match stage
      case Ended =>
      case AwaitingDescription =>
        if msg.Text? {
          description := Some(msg.html);
          reply := Some(AskSolution);
          stage := AwaitingSolution;
        }
      case AwaitingSolution =>
        if msg.Photo? {
          solutionPhotoId := Some(msg.fileId);
          solutionText := Some("");
          reply := Some(AskTests);
          stage := AwaitingTests;
        } else if msg.Text? {
          solutionText := Some(msg.html);
          solutionPhotoId := Some("");
          reply := Some(AskTests);
          stage := AwaitingTests;
        }
      case AwaitingTests =>
        if msg.Text? || (msg.Document? && msg.python) {
          var tests := "";
          if msg.Text? {
            tests := ReplaceAll(msg.markdownV2, "`", "");
          } else {
            tests := ReadLines(msg.lines);
          }
          var c := Challenge(description.value, solutionPhotoId.value, solutionText.value, tests);
          var id := db.InsertChallenge(c);
          bd.active := Some(Activated(id, c));
          reply := Some(Added);
          stage := Ended;
        }
    }
  }
}
