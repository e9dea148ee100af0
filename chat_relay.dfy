/** The realtime chat relay: the table of active chats, the socket rooms that
    carry their broadcasts, and the handlers of the `startChat`,
    `sendMessage`, `offer`, `answer`, `iceCandidate`, `terminateChat` and
    `disconnect` events. Each handler is one atomic step of a `ChatServer`.
    A room is the set of sockets subscribed to a chat id, and every `emit`
    is recorded in `outbox` as the set of sockets it reached together with
    the event it carried. */
module ChatRelay {

  type SocketId = string
  type ChatId = string

  /** The message `type` that selects the text body instead of the media URL. */
  const TextKind := "text"

  datatype Message = Message(sender: string, kind: string, content: string, timestamp: int)

  datatype Chat = Chat(userId: string, adminId: string, messages: seq<Message>)

  /** A WebRTC negotiation payload; it is forwarded verbatim, never read. */
  datatype Signal = Offer(offer: string) | Answer(answer: string) | IceCandidate(candidate: string)

  /** The events the server emits to sockets. */
  datatype ServerEvent =
    | ChatStarted(chatId: ChatId)
    | NewMessage(message: Message)
    | Relayed(signal: Signal)
    | ChatTerminated(chatId: ChatId)

  /** One `emit`: the sockets it reached and what it carried. */
  datatype Delivery = Delivery(recipients: set<SocketId>, event: ServerEvent)

  /** The id of the chat between `userId` and `adminId`: the user id, a
      dash, then the admin id. */
  function ChatKey(userId: string, adminId: string): (id: ChatId)
    ensures |id| == |userId| + 1 + |adminId|
    ensures id[..|userId|] == userId && id[|userId|] == '-' && id[|userId| + 1..] == adminId
  {
    userId + "-" + adminId
  }

  /** The sockets currently in room `chatId` (none when the room does not exist). */
  function Members(rooms: map<ChatId, set<SocketId>>, chatId: ChatId): set<SocketId>
  {
    if chatId in rooms then rooms[chatId] else {}
  }

  /** The rooms after `socket` has left all of them; a room left empty is gone. */
  function WithoutSocket(rooms: map<ChatId, set<SocketId>>, socket: SocketId): map<ChatId, set<SocketId>>
  {
    map id | id in rooms && rooms[id] - {socket} != {} :: rooms[id] - {socket}
  }

  /** The events socket `s` receives from `outbox`, in emission order. */
  function Inbox(outbox: seq<Delivery>, s: SocketId): seq<ServerEvent>
  {
    if outbox == [] then []
    else (if s in outbox[0].recipients then [outbox[0].event] else []) + Inbox(outbox[1..], s)
  }

  /** What a socket receives from two stretches of emits is what it receives
      from the first, followed by what it receives from the second. */
  lemma {:induction false} InboxConcat(first: seq<Delivery>, second: seq<Delivery>, s: SocketId)
    ensures Inbox(first + second, s) == Inbox(first, s) + Inbox(second, s)
  {
    if first == [] {
      assert first + second == second;
    } else {
      assert (first + second)[1..] == first[1..] + second;
      InboxConcat(first[1..], second, s);
    }
  }

  /** One more emit delivers its event exactly once to each of its
      recipients, after everything they had received, and nothing to anyone else. */
  lemma InboxAppend(outbox: seq<Delivery>, d: Delivery, s: SocketId)
    ensures Inbox(outbox + [d], s) == Inbox(outbox, s) + (if s in d.recipients then [d.event] else [])
  {
    InboxConcat(outbox, [d], s);
    assert [d][1..] == [];
  }

  /** The chat key is not injective: two different pairs share one chat. */
  lemma ChatKeyCollision()
    ensures ChatKey("a-b", "c") == ChatKey("a", "b-c")
  {
  }

  predicate DashFree(s: string)
  {
    forall i :: 0 <= i < |s| ==> s[i] != '-'
  }

  /** The position of the first dash in `s` (`|s|` when there is none). */
  function FirstDash(s: string): (r: nat)
    ensures r <= |s|
  {
    if s == [] then 0 else if s[0] == '-' then 0 else 1 + FirstDash(s[1..])
  }

  /** Splitting a chat id at its first dash gives back the pair it was made
      from, as long as the user id has no dash of its own. */
  lemma {:induction false} ChatKeySplitsAtFirstDash(userId: string, adminId: string)
    requires DashFree(userId)
    ensures var k := ChatKey(userId, adminId);
      FirstDash(k) == |userId| && k[..FirstDash(k)] == userId && k[FirstDash(k) + 1..] == adminId
  {
    var k := ChatKey(userId, adminId);
    if userId != [] {
      assert k[0] == userId[0] != '-';
      assert k[1..] == ChatKey(userId[1..], adminId);
      ChatKeySplitsAtFirstDash(userId[1..], adminId);
    }
  }

  /** For dash-free user ids (such as database object ids) the chat key
      does tell the pairs apart. */
  lemma ChatKeyInjectiveForDashFreeUsers(u1: string, a1: string, u2: string, a2: string)
    requires DashFree(u1) && DashFree(u2)
    requires ChatKey(u1, a1) == ChatKey(u2, a2)
    ensures u1 == u2 && a1 == a2
  {
    ChatKeySplitsAtFirstDash(u1, a1);
    ChatKeySplitsAtFirstDash(u2, a2);
  }

  class ChatServer {
    /** The active chats by id: the server's `activeChats` map. */
    var activeChats: map<ChatId, Chat>
    /** The socket rooms by chat id. */
    var rooms: map<ChatId, set<SocketId>>
    /** Every emit so far, oldest first. */
    var outbox: seq<Delivery>

    /** No room is empty, every room belongs to an active chat, and every
        chat is stored under the key of its own pair. */
    ghost predicate Valid()
      reads this
    {
      && (forall id :: id in rooms ==> rooms[id] != {})
      && rooms.Keys <= activeChats.Keys
      && (forall id :: id in activeChats ==> id == ChatKey(activeChats[id].userId, activeChats[id].adminId))
    }

    constructor ()
      ensures Valid()
      ensures activeChats == map[] && rooms == map[] && outbox == []
    {
      activeChats := map[];
      rooms := map[];
      outbox := [];
    }

    /** `startChat`: (re)creates the chat with an empty log, joins the calling
        socket to its room and tells the whole room, caller included. */
    method StartChat(socket: SocketId, userId: string, adminId: string)
      requires Valid()
      modifies this
      ensures Valid()
      ensures var id := ChatKey(userId, adminId);
        && activeChats == old(activeChats)[id := Chat(userId, adminId, [])]
        && rooms == old(rooms)[id := Members(old(rooms), id) + {socket}]
        && outbox == old(outbox) + [Delivery(rooms[id], ChatStarted(id))]
      ensures forall s ::
          Inbox(outbox, s) == Inbox(old(outbox), s) + (if s in Members(rooms, ChatKey(userId, adminId)) then [ChatStarted(ChatKey(userId, adminId))] else [])
    {
      var id := ChatKey(userId, adminId);
      activeChats := activeChats[id := Chat(userId, adminId, [])];
      rooms := rooms[id := Members(rooms, id) + {socket}];
      var d := Delivery(rooms[id], ChatStarted(id));
      forall s ensures Inbox(outbox + [d], s) == Inbox(outbox, s) + (if s in d.recipients then [d.event] else []) {
        InboxAppend(outbox, d, s);
      }
      outbox := outbox + [d];
    }

    /** `sendMessage`: on an active chat, appends one message to its log and
        broadcasts it to the whole room; on an unknown chat, does nothing. */
    method SendMessage(chatId: ChatId, sender: string, message: string, kind: string, mediaUrl: string, now: int)
      requires Valid()
      modifies this
      ensures Valid()
      ensures chatId !in old(activeChats) ==>
        activeChats == old(activeChats) && rooms == old(rooms) && outbox == old(outbox)
      ensures chatId in old(activeChats) ==>
        var chat := old(activeChats)[chatId];
        var m := Message(sender, kind, if kind == TextKind then message else mediaUrl, now);
        && activeChats == old(activeChats)[chatId := chat.(messages := chat.messages + [m])]
        && rooms == old(rooms)
        && outbox == old(outbox) + [Delivery(Members(rooms, chatId), NewMessage(m))]
        && (forall s :: Inbox(outbox, s) == Inbox(old(outbox), s) + (if s in Members(rooms, chatId) then [NewMessage(m)] else []))
    {
      if chatId in activeChats {
        var chat := activeChats[chatId];
        var m := Message(sender, kind, if kind == TextKind then message else mediaUrl, now);
        activeChats := activeChats[chatId := chat.(messages := chat.messages + [m])];
        var d := Delivery(Members(rooms, chatId), NewMessage(m));
        forall s ensures Inbox(outbox + [d], s) == Inbox(outbox, s) + (if s in d.recipients then [d.event] else []) {
          InboxAppend(outbox, d, s);
        }
        outbox := outbox + [d];
      }
    }

    /** `offer`, `answer` and `iceCandidate`: forwards the payload to every
        socket of the room except the one that sent it. */
    method Relay(socket: SocketId, chatId: ChatId, signal: Signal)
      requires Valid()
      modifies this
      ensures Valid()
      ensures activeChats == old(activeChats) && rooms == old(rooms)
      ensures outbox == old(outbox) + [Delivery(Members(rooms, chatId) - {socket}, Relayed(signal))]
      ensures forall s ::
          Inbox(outbox, s) == Inbox(old(outbox), s) + (if s in Members(rooms, chatId) && s != socket then [Relayed(signal)] else [])
      ensures Inbox(outbox, socket) == Inbox(old(outbox), socket)
      ensures chatId !in old(activeChats) ==> forall s :: Inbox(outbox, s) == Inbox(old(outbox), s)
    {
      var d := Delivery(Members(rooms, chatId) - {socket}, Relayed(signal));
      forall s ensures Inbox(outbox + [d], s) == Inbox(outbox, s) + (if s in d.recipients then [d.event] else []) {
        InboxAppend(outbox, d, s);
      }
      outbox := outbox + [d];
    }

    /** `terminateChat`: forgets the chat, tells the sockets of its room and
        then empties the room. An unknown chat id leaves the table as it was. */
    method TerminateChat(chatId: ChatId)
      requires Valid()
      modifies this
      ensures Valid()
      ensures activeChats == old(activeChats) - {chatId}
      ensures rooms == old(rooms) - {chatId}
      ensures outbox == old(outbox) + [Delivery(Members(old(rooms), chatId), ChatTerminated(chatId))]
      ensures forall s ::
          Inbox(outbox, s) == Inbox(old(outbox), s) + (if s in Members(old(rooms), chatId) then [ChatTerminated(chatId)] else [])
    {
      activeChats := activeChats - {chatId};
      var d := Delivery(Members(rooms, chatId), ChatTerminated(chatId));
      forall s ensures Inbox(outbox + [d], s) == Inbox(outbox, s) + (if s in d.recipients then [d.event] else []) {
        InboxAppend(outbox, d, s);
      }
      outbox := outbox + [d];
      rooms := rooms - {chatId};
    }

    /** `disconnect`: the socket leaves every room it was in; the chats
        survive and nothing is emitted. */
    method Disconnect(socket: SocketId)
      requires Valid()
      modifies this
      ensures Valid()
      ensures activeChats == old(activeChats) && outbox == old(outbox)
      ensures rooms == WithoutSocket(old(rooms), socket)
      ensures forall id :: id in rooms ==> socket !in rooms[id]
    {
      rooms := WithoutSocket(rooms, socket);
    }
  }

  /** A user socket and an admin socket start the same chat, the user says
      "hi" and the chat is terminated: both sockets receive the message once,
      and the chat is gone afterwards. */
  method SessionScenario() returns (userInbox: seq<ServerEvent>, adminInbox: seq<ServerEvent>, log: seq<Message>, live: bool)
    ensures var hi := NewMessage(Message("u1", "text", "hi", 7));
      && userInbox == [ChatStarted("u1-a1"), ChatStarted("u1-a1"), hi, ChatTerminated("u1-a1")]
      && adminInbox == [ChatStarted("u1-a1"), hi, ChatTerminated("u1-a1")]
    ensures log == [Message("u1", "text", "hi", 7)]
    ensures !live
  {
    assert ChatKey("u1", "a1") == "u1-a1";
    var server := new ChatServer();
    server.StartChat("user-socket", "u1", "a1");
    server.StartChat("admin-socket", "u1", "a1");
    server.SendMessage("u1-a1", "u1", "hi", "text", "", 7);
    log := server.activeChats["u1-a1"].messages;
    server.TerminateChat("u1-a1");
    userInbox := Inbox(server.outbox, "user-socket");
    adminInbox := Inbox(server.outbox, "admin-socket");
    live := "u1-a1" in server.activeChats;
  }
}
