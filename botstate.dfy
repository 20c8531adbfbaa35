/**
 * The persistent dictionaries the bot framework hands to every handler:
 * `bot_data`, shared by all chats, and `chat_data`, one per chat.
 */
module BotState {
  import opened Options
  import opened Tables

  /** The challenge fields main.py copies into bot_data. */
  datatype ActiveChallenge = ActiveChallenge(
    challengeId: int, description: string, solutionPhotoId: string, solutionText: string, tests: string)

  /** The chat-id sets kept in bot_data. A key that `setdefault` has not
      created yet reads as the empty set. */
  datatype ChatSets = ChatSets(userIds: set<int>, groupIds: set<int>, channelIds: set<int>, chatIds: set<int>)

  function Activated(id: int, c: Challenge): ActiveChallenge
  {
    ActiveChallenge(id, c.description, c.solutionPhotoId, c.solutionText, c.tests)
  }

  class BotData {
    var active: Option<ActiveChallenge>
    var userIds: set<int>
    var groupIds: set<int>
    var channelIds: set<int>
    var chatIds: set<int>

    function Sets(): ChatSets
      reads this
    {
      ChatSets(userIds, groupIds, channelIds, chatIds)
    }

    constructor ()
      ensures active == None && Sets() == ChatSets({}, {}, {}, {})
    {
      active := None;
      userIds, groupIds, channelIds, chatIds := {}, {}, {}, {};
    }
  }

  class ChatData {
    /** `chat_data["username"]` of each chat that has one. */
    var usernames: map<int, string>

    constructor ()
      ensures usernames == map[]
    {
      usernames := map[];
    }
  }

  /** Startup in main(): the newest challenge row, if any, becomes the
      active challenge. */
  method LoadLatestChallenge(db: Database, bd: BotData)
    modifies bd
    ensures bd.Sets() == old(bd.Sets())
    ensures match Latest(db.challenges)
      case None => bd.active == old(bd.active)
      case Some(id) => bd.active == Some(Activated(id, db.challenges[id]))
  {
    var latest := Latest(db.challenges);
    if latest.Some? {
      var id := latest.value;
      bd.active := Some(Activated(id, db.challenges[id]));
    }
  }
}
