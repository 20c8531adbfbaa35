/**
 * Tracking the chats the bot is in, as main.py and main_copy.py both do
 * (the two copies are the same): `extract_status_change` classifies a
 * change of the bot's own membership, and `track_chats` adds or discards
 * the chat's id in the set for its kind of chat.
 */
module Membership {
  import opened Options
  import opened BotState

  /** The values of `ChatMember.status`. */
  datatype Status = Owner | Administrator | Member | Restricted | Left | Banned

  /** `ChatMemberUpdated.difference()` as the code reads it: the changed
      `status` and the changed `is_member` flag, each as an (old, new)
      pair, present only when the attribute changed. A side without an
      `is_member` attribute reads as `None`. */
  datatype Difference = Difference(status: Option<(Status, Status)>, isMember: Option<(Option<bool>, Option<bool>)>)

  /** Present in the chat: owner, administrator or member, or restricted
      while still in it. */
  predicate InChat(status: Status, isMember: Option<bool>)
  {
    match status
    case Owner => true
    case Administrator => true
    case Member => true
    case Restricted => isMember == Some(true)
    case Left => false
    case Banned => false
  }

  function OldFlag(d: Difference): Option<bool>
  {
    if d.isMember.Some? then d.isMember.value.0 else None
  }

  function NewFlag(d: Difference): Option<bool>
  {
    if d.isMember.Some? then d.isMember.value.1 else None
  }

  /** `extract_status_change`: nothing when the status did not change,
      otherwise whether the bot was and is in the chat. */
  function ExtractStatusChange(d: Difference): (r: Option<(bool, bool)>)
    ensures r.None? <==> d.status.None?
    ensures r.Some? ==> r.value.0 == InChat(d.status.value.0, OldFlag(d))
    ensures r.Some? ==> r.value.1 == InChat(d.status.value.1, NewFlag(d))
  {
    var (oldIsMember, newIsMember) := if d.isMember.Some? then d.isMember.value else (None, None);
    if d.status.None? then None
    else
      var (oldStatus, newStatus) := d.status.value;
      var wasMember := oldStatus in [Member, Owner, Administrator] || (oldStatus == Restricted && oldIsMember == Some(true));
      var isMember := newStatus in [Member, Owner, Administrator] || (newStatus == Restricted && newIsMember == Some(true));
      Some((wasMember, isMember))
  }

  /** `telegram.Chat` types. */
  datatype ChatType = Private | Group | Supergroup | Channel | Sender

  /** Which of the tracked sets a chat of this type goes to. */
  function KindSet(s: ChatSets, kind: ChatType): set<int>
  {
    if kind == Private then s.userIds
    else if kind == Group || kind == Supergroup then s.groupIds
    else s.channelIds
  }

  predicate SameKind(a: ChatType, b: ChatType)
  {
    (a == Private) == (b == Private) && (a in {Group, Supergroup}) == (b in {Group, Supergroup})
  }

  /** The sets after `track_chats` for one membership change. */
  function Tracked(s: ChatSets, kind: ChatType, chatId: int, change: Option<(bool, bool)>): ChatSets
  {
    match change
    case None => s
    case Some((was, now)) =>
      if kind == Private then
        if !was && now then s.(userIds := s.userIds + {chatId})
        else if was && !now then s.(userIds := s.userIds - {chatId})
        else s
      else if kind == Group || kind == Supergroup then
        if !was && now then s.(groupIds := s.groupIds + {chatId})
        else if was && !now then s.(groupIds := s.groupIds - {chatId})
        else s
      else if !was && now then s.(channelIds := s.channelIds + {chatId})
      else if was && !now then s.(channelIds := s.channelIds - {chatId})
      else s
  }

  /** The chat's id is added to the set for its kind exactly on a change
      from outside to inside, discarded exactly on the opposite change, and
      the set is untouched otherwise; the sets of other kinds and the
      `chat_ids` set never change. */
  lemma TrackedChangesOneSet(s: ChatSets, kind: ChatType, chatId: int, change: Option<(bool, bool)>, other: ChatType)
    ensures var after := Tracked(s, kind, chatId, change);
      var joined := change.Some? && !change.value.0 && change.value.1;
      var left := change.Some? && change.value.0 && !change.value.1;
      && KindSet(after, kind) == (if joined then KindSet(s, kind) + {chatId}
                                  else if left then KindSet(s, kind) - {chatId}
                                  else KindSet(s, kind))
      && (!SameKind(kind, other) ==> KindSet(after, other) == KindSet(s, other))
      && after.chatIds == s.chatIds
  {
  }

  /** Handling the same update twice is the same as handling it once. */
  lemma TrackedIdempotent(s: ChatSets, kind: ChatType, chatId: int, change: Option<(bool, bool)>)
    ensures Tracked(Tracked(s, kind, chatId, change), kind, chatId, change) == Tracked(s, kind, chatId, change)
  {
  }

  /** `track_chats`. */
  method TrackChats(bd: BotData, d: Difference, kind: ChatType, chatId: int)
    modifies bd
    ensures bd.Sets() == Tracked(old(bd.Sets()), kind, chatId, ExtractStatusChange(d))
    ensures bd.active == old(bd.active)
  {
    var result := ExtractStatusChange(d);
    if result.None? {
      return;
    }
    var (wasMember, isMember) := result.value;
    if kind == Private {
      if !wasMember && isMember {
        bd.userIds := bd.userIds + {chatId};
      } else if wasMember && !isMember {
        bd.userIds := bd.userIds - {chatId};
      }
    } else if kind == Group || kind == Supergroup {
      if !wasMember && isMember {
        bd.groupIds := bd.groupIds + {chatId};
      } else if wasMember && !isMember {
        bd.groupIds := bd.groupIds - {chatId};
      }
    } else if !wasMember && isMember {
      bd.channelIds := bd.channelIds + {chatId};
    } else if wasMember && !isMember {
      bd.channelIds := bd.channelIds - {chatId};
    }
  }

  /** The set insertions of `start` in main_copy.py. */
  function Started(s: ChatSets, chatId: int, userId: int): ChatSets
  {
    s.(chatIds := s.chatIds + {chatId}, userIds := s.userIds + {userId})
  }

  /** `/start` records the chat and the user; repeating it changes nothing. */
  lemma StartedIdempotent(s: ChatSets, chatId: int, userId: int)
    ensures chatId in Started(s, chatId, userId).chatIds && userId in Started(s, chatId, userId).userIds
    ensures Started(Started(s, chatId, userId), chatId, userId) == Started(s, chatId, userId)
    ensures Started(s, chatId, userId).groupIds == s.groupIds && Started(s, chatId, userId).channelIds == s.channelIds
  {
  }

  /** `start` in main_copy.py (the menu it then shows is left out). */
  method Start(bd: BotData, chatId: int, userId: int)
    modifies bd
    ensures bd.Sets() == Started(old(bd.Sets()), chatId, userId)
    ensures bd.active == old(bd.active)
  {
    bd.chatIds := bd.chatIds + {chatId};
    bd.userIds := bd.userIds + {userId};
  }
}
