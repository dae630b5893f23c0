/** The conversation list (`src/components/ChatList.tsx`): the unread badge of
    each conversation and the age shown for its last message.

    The list keeps, per chat, the latest messages of that chat (at most 20,
    newest first) and, per chat, the viewer's last-read mark. Times are
    milliseconds since the epoch. */
module ChatList {
  import opened Basics
  import opened Store

  function InChat(chatId: Id): Message -> bool {
    (m: Message) => m.chatId == chatId
  }

  function Sent(m: Message): int {
    m.createdAt
  }

  /** The live query behind each row: the chat's messages, newest first, at
      most 20 of them. Every message kept is one of the chat's, each as often
      as it was sent at most; all of them are kept when there are fewer than
      20, and a message of the chat left out is no newer than any kept. */
  function LatestMessages(all: seq<Message>, chatId: Id): (r: seq<Message>)
    ensures |r| == if Count(all, InChat(chatId)) < 20 then Count(all, InChat(chatId)) else 20
    ensures forall i :: 0 <= i < |r| ==> r[i].chatId == chatId
    ensures multiset(r) <= multiset(all)
    ensures SortedDesc(r, Sent)
    ensures forall m :: m in all && m.chatId == chatId && m !in r ==>
              |r| == 20 && forall k :: 0 <= k < |r| ==> r[k].createdAt >= m.createdAt
  {
    var mine := Filter(all, InChat(chatId));
    var r := Take(SortDesc(mine, Sent), 20);
    FilterSubMultiset(all, InChat(chatId));
    TopOfSortedSize(mine, Sent, 20);
    LatestOfChat(all, chatId, mine, r);
    LatestNewest(all, chatId, mine, r);
    r
  }

  lemma {:induction false} LatestOfChat(all: seq<Message>, chatId: Id, mine: seq<Message>, r: seq<Message>)
    requires mine == Filter(all, InChat(chatId)) && multiset(r) <= multiset(mine)
    ensures forall i :: 0 <= i < |r| ==> r[i].chatId == chatId
  {
    FilterMembers(all, InChat(chatId));
    forall i | 0 <= i < |r|
      ensures r[i].chatId == chatId
    {
      assert r[i] in multiset(r);
      assert r[i] in mine;
    }
  }

  lemma {:induction false} LatestNewest(all: seq<Message>, chatId: Id, mine: seq<Message>, r: seq<Message>)
    requires mine == Filter(all, InChat(chatId)) && r == Take(SortDesc(mine, Sent), 20)
    ensures forall m :: m in all && m.chatId == chatId && m !in r ==>
              |r| == 20 && forall k :: 0 <= k < |r| ==> r[k].createdAt >= m.createdAt
  {
    FilterMembers(all, InChat(chatId));
    TopOfSorted(mine, Sent, 20);
    forall m | m in all && m.chatId == chatId && m !in r
      ensures |r| == 20 && forall k :: 0 <= k < |r| ==> r[k].createdAt >= m.createdAt
    {
      assert m in mine;
      assert forall k :: 0 <= k < |r| ==> Sent(r[k]) >= Sent(m);
    }
  }

  /** The chat with id `chatId` among the viewer's chats, if any. */
  function FindChat(chats: seq<Chat>, chatId: Id): Option<Chat> {
    Find(chats, (c: Chat) => c.id == chatId)
  }

  /** The other party of a chat: the retailer for a farmer, otherwise the
      farmer. */
  function OtherParty(chat: Chat, viewer: User): Id {
    if viewer.role == Farmer then chat.retailerId else chat.farmerId
  }

  /** A message counts as unread when the other party wrote it and it is
      strictly newer than the last-read mark, if there is one. */
  predicate Unread(m: Message, other: Id, lastRead: Option<Timestamp>) {
    m.senderId == other && (lastRead.None? || m.createdAt > lastRead.value)
  }

  function MarkOf(lastReads: map<Id, Timestamp>, chatId: Id): Option<Timestamp> {
    if chatId in lastReads then Some(lastReads[chatId]) else None
  }

  function MessagesOf(recent: map<Id, seq<Message>>, chatId: Id): seq<Message> {
    if chatId in recent then recent[chatId] else []
  }

  /** `getUnreadCount`: no badge without a viewer or for a chat the viewer
      does not have; otherwise the number of unread messages among the ones
      the row holds. */
  function UnreadCount(chatId: Id, chats: seq<Chat>, user: Option<User>,
                       lastReads: map<Id, Timestamp>, recent: map<Id, seq<Message>>): (n: nat)
    ensures user.None? || (forall c :: c in chats ==> c.id != chatId) ==> n == 0
    ensures n <= |MessagesOf(recent, chatId)|
  {
    match FindChat(chats, chatId)
    case None => 0
    case Some(chat) =>
      if user.None? then 0
      else
        var other := OtherParty(chat, user.value);
        var mark := MarkOf(lastReads, chatId);
        Count(MessagesOf(recent, chatId), (m: Message) => Unread(m, other, mark))
  }

  /** The badge never exceeds 20: each row holds at most the latest 20
      messages of its chat. */
  lemma {:induction false} UnreadAtMost20(chatId: Id, chats: seq<Chat>, user: Option<User>,
                                          lastReads: map<Id, Timestamp>, recent: map<Id, seq<Message>>,
                                          all: seq<Message>)
    requires chatId in recent && recent[chatId] == LatestMessages(all, chatId)
    ensures UnreadCount(chatId, chats, user, lastReads, recent) <= 20
  {
    assert |MessagesOf(recent, chatId)| <= 20;
  }

  /** Without a last-read mark, every message of the other party counts. */
  lemma {:induction false} UnreadWithoutMark(chatId: Id, chats: seq<Chat>, user: User,
                                             lastReads: map<Id, Timestamp>, recent: map<Id, seq<Message>>,
                                             chat: Chat)
    requires FindChat(chats, chatId) == Some(chat) && chatId !in lastReads
    ensures UnreadCount(chatId, chats, Some(user), lastReads, recent)
            == Count(MessagesOf(recent, chatId), (m: Message) => m.senderId == OtherParty(chat, user))
  {
    var other := OtherParty(chat, user);
    var f := (m: Message) => Unread(m, other, None);
    var g := (m: Message) => m.senderId == other;
    SameFilter(MessagesOf(recent, chatId), f, g);
  }

  lemma {:induction false} SameFilter<T>(s: seq<T>, f: T -> bool, g: T -> bool)
    requires forall x :: f(x) == g(x)
    ensures Filter(s, f) == Filter(s, g)
  {
    if s != [] {
      SameFilter(s[1..], f, g);
    }
  }

  /** A later last-read mark (or a first one) never raises the badge. */
  lemma {:induction false} UnreadMonotone(chatId: Id, chats: seq<Chat>, user: Option<User>,
                                          lastReads: map<Id, Timestamp>, recent: map<Id, seq<Message>>,
                                          later: Timestamp)
    requires chatId in lastReads ==> lastReads[chatId] <= later
    ensures UnreadCount(chatId, chats, user, lastReads[chatId := later], recent)
            <= UnreadCount(chatId, chats, user, lastReads, recent)
  {
    match FindChat(chats, chatId)
    case None =>
    case Some(chat) =>
      if user.Some? {
        var other := OtherParty(chat, user.value);
        var before := MarkOf(lastReads, chatId);
        var after := MarkOf(lastReads[chatId := later], chatId);
        assert after == Some(later);
        CountMonotone(MessagesOf(recent, chatId), (m: Message) => Unread(m, other, after),
                      (m: Message) => Unread(m, other, before));
      }
  }

  /** Messages the viewer writes never count: adding one to a row leaves its
      badge as it was, while a new message of the other party newer than the
      mark adds exactly one. */
  lemma {:induction false} UnreadCountsOtherPartyOnly(chatId: Id, chats: seq<Chat>, user: User,
                                                      lastReads: map<Id, Timestamp>, recent: map<Id, seq<Message>>,
                                                      chat: Chat, m: Message)
    requires FindChat(chats, chatId) == Some(chat)
    ensures var more := recent[chatId := MessagesOf(recent, chatId) + [m]];
            var mark := MarkOf(lastReads, chatId);
            UnreadCount(chatId, chats, Some(user), lastReads, more)
            == UnreadCount(chatId, chats, Some(user), lastReads, recent)
               + (if m.senderId == OtherParty(chat, user) && (mark.None? || m.createdAt > mark.value) then 1 else 0)
  {
    var other := OtherParty(chat, user);
    var mark := MarkOf(lastReads, chatId);
    var more := recent[chatId := MessagesOf(recent, chatId) + [m]];
    var f := (x: Message) => Unread(x, other, mark);
    assert MessagesOf(more, chatId) == MessagesOf(recent, chatId) + [m];
    CountAppend(MessagesOf(recent, chatId), [m], f);
    assert Filter([m], f) == (if f(m) then [m] else []) + Filter([], f);
  }

  // ---------------------------------------------------------------------
  // Age of the last message

  const HourMs := 3600000

  /** The age label of a row: "No messages", "Just now", "<h>h ago" with
      the whole hours elapsed, or the calendar date of the message (whose
      locale formatting is not part of this model). */
  datatype TimeLabel = NoMessages | JustNow | HoursAgo(hours: nat) | OnDate(at: Timestamp)

  /** `formatLastMessageTime`: the label for a message sent at `ts`, read at
      `now`. */
  function FormatLastMessageTime(ts: Option<Timestamp>, now: Timestamp): (r: TimeLabel)
    ensures r == NoMessages <==> ts.None?
    ensures r == JustNow <==> ts.Some? && now - ts.value < HourMs
    ensures r.HoursAgo? <==> ts.Some? && HourMs <= now - ts.value < 24 * HourMs
    ensures r.HoursAgo? ==> 1 <= r.hours <= 23
    ensures r.HoursAgo? ==> r.hours * HourMs <= now - ts.value < (r.hours + 1) * HourMs
    ensures r.OnDate? ==> r.at == ts.value && now - ts.value >= 24 * HourMs
  {
    if ts.None? then NoMessages
    else if now - ts.value < HourMs then JustNow
    else if now - ts.value < 24 * HourMs then HoursAgo((now - ts.value) / HourMs)
    else OnDate(ts.value)
  }

  /** The text of a label other than a date. */
  function LabelText(l: TimeLabel): (r: Option<string>)
    ensures r.None? <==> l.OnDate?
    ensures l.HoursAgo? ==> r == Some(Digits(l.hours) + "h ago")
  {
    match l
    case NoMessages => Some("No messages")
    case JustNow => Some("Just now")
    case HoursAgo(h) => Some(Decimal(h) + "h ago")
    case OnDate(_) => None
  }

  /** An older message never gets a younger label: as the message ages the
      label moves from "Just now" through the hours to a date. */
  lemma {:induction false} LabelAges(ts: Timestamp, now: Timestamp, later: Timestamp)
    requires now <= later
    ensures var a := FormatLastMessageTime(Some(ts), now);
            var b := FormatLastMessageTime(Some(ts), later);
            (a.OnDate? ==> b.OnDate?)
            && (a.HoursAgo? ==> b.OnDate? || (b.HoursAgo? && a.hours <= b.hours))
  {
    var a := FormatLastMessageTime(Some(ts), now);
    var b := FormatLastMessageTime(Some(ts), later);
    if a.HoursAgo? && b.HoursAgo? {
      assert a.hours * HourMs <= now - ts <= later - ts < (b.hours + 1) * HourMs;
    }
  }
}
