/** The server of server.js: the session registry `users` (socket id to
    `{username, roomId}`), the per-room message history `rooms`, and the three
    socket event handlers that update them. Everything the server sends is
    recorded in a ghost log instead of going over a socket. */
module ChatServer {

  type SocketId = string
  type RoomId = string

  /** A chat message as the server stores and broadcasts it. */
  datatype Msg = Msg(user: string, text: string, timestamp: string)

  /** A session: the display name given to a socket and the room it joined. */
  datatype User = User(username: string, roomId: RoomId)

  /** Where an emit goes: back to one socket (`socket.emit`) or to a whole
      room (`io.to(roomId).emit`). */
  datatype Target = ToSocket(socket: SocketId) | ToRoom(room: RoomId)

  /** The server-to-client events, each with its payload. */
  datatype Payload =
    | History(messages: seq<Msg>)
    | Joined(username: string)
    | Message(msg: Msg)

  datatype Emit = Emit(target: Target, payload: Payload)

  /** The author of the join and leave notices. */
  const SystemUser := "System"

  /** At most this many messages are kept per room. */
  const HistoryLimit := 100

  const Adjectives: seq<string> :=
    ["Happy", "Sleepy", "Grumpy", "Sneezy", "Dopey", "Bashful", "Doc", "Swift", "Silent", "Brave"]
  const Animals: seq<string> :=
    ["Badger", "Fox", "Owl", "Bear", "Raccoon", "Eagle", "Wolf", "Tiger", "Lion", "Hawk"]

  const AnonymousPrefix := "Anonymous "

  /** `Math.floor(Math.random() * adjectives.length)`: some index into the list. */
  type AdjectiveIndex = i: int | 0 <= i < |Adjectives|
  /** `Math.floor(Math.random() * animals.length)`. */
  type AnimalIndex = i: int | 0 <= i < |Animals|

  /** A name of the shape `generateUsername` produces. */
  ghost predicate IsGeneratedName(name: string) {
    exists adj: AdjectiveIndex, animal: AnimalIndex :: name == AnonymousPrefix + Adjectives[adj] + " " + Animals[animal]
  }

  /** `generateUsername()`, with the two random draws passed in. */
  function GenerateUsername(adj: AdjectiveIndex, animal: AnimalIndex): (name: string)
    ensures IsGeneratedName(name)
    ensures name[..|AnonymousPrefix|] == AnonymousPrefix
    ensures name != SystemUser
  {
    AnonymousPrefix + Adjectives[adj] + " " + Animals[animal]
  }

  function SystemMessage(text: string, now: string): Msg {
    Msg(SystemUser, text, now)
  }

  function JoinedText(username: string): string {
    username + " has joined the chat"
  }

  function LeftText(username: string): string {
    username + " has left the chat"
  }

  // ---------------------------------------------------------------------------
  // The bounded history of one room

  /** The history after `push(m)` followed by the one `shift()` done when the
      length then exceeds the limit. */
  function Pushed(history: seq<Msg>, m: Msg): (r: seq<Msg>)
    ensures |history| <= HistoryLimit ==> |r| <= HistoryLimit
    ensures |history| < HistoryLimit ==> r == history + [m]
    ensures |history| == HistoryLimit ==> r == history[1..] + [m]
    ensures |r| > 0 && r[|r| - 1] == m
  {
    var pushed := history + [m];
    if |pushed| > HistoryLimit then pushed[1..] else pushed
  }

  /** The most recent `HistoryLimit` messages of `s`, oldest first. */
  function Latest(s: seq<Msg>): seq<Msg> {
    if |s| <= HistoryLimit then s else s[|s| - HistoryLimit..]
  }

  /** The history after the messages `ms` have been pushed one by one. */
  function PushedAll(history: seq<Msg>, ms: seq<Msg>): seq<Msg>
    decreases |ms|
  {
    if ms == [] then history else PushedAll(Pushed(history, ms[0]), ms[1..])
  }

  /** Keeping the latest messages of a long enough suffix of `s` is keeping
      the latest messages of `s`. */
  lemma {:induction false} LatestOfSuffix(p: seq<Msg>, u: seq<Msg>, t: seq<Msg>)
    requires |u| >= HistoryLimit || p == []
    ensures Latest(u + t) == Latest(p + u + t)
  {
    var s := p + u + t;
    assert s == p + (u + t);
    if |u + t| > HistoryLimit {
      assert s[|s| - HistoryLimit..] == (u + t)[|u + t| - HistoryLimit..];
    } else if p == [] {
      assert s == u + t;
    }
  }

  /** However many messages arrive, a room that starts within the limit holds
      exactly the latest `HistoryLimit` of everything, oldest evicted first. */
  lemma {:induction false} PushedAllKeepsLatest(history: seq<Msg>, ms: seq<Msg>)
    requires |history| <= HistoryLimit
    ensures PushedAll(history, ms) == Latest(history + ms)
    decreases |ms|
  {
    if ms == [] {
      assert history + ms == history;
    } else {
      var h1 := Pushed(history, ms[0]);
      PushedAllKeepsLatest(h1, ms[1..]);
      assert history + ms == history + [ms[0]] + ms[1..];
      if |history| < HistoryLimit {
        assert h1 == history + [ms[0]];
        LatestOfSuffix([], h1, ms[1..]);
      } else {
        assert history + [ms[0]] == [history[0]] + h1;
        LatestOfSuffix([history[0]], h1, ms[1..]);
      }
    }
  }

  /** Pushing 101 messages into a new room evicts the first: the history then
      starts with the second. */
  lemma HundredAndFirstEvictsFirst(ms: seq<Msg>)
    requires |ms| == HistoryLimit + 1
    ensures |PushedAll([], ms)| == HistoryLimit
    ensures PushedAll([], ms)[0] == ms[1]
    ensures PushedAll([], ms) == ms[1..]
  {
    PushedAllKeepsLatest([], ms);
    assert [] + ms == ms;
  }

  // ---------------------------------------------------------------------------
  // Registry invariants

  ghost predicate HistoriesBounded(rooms: map<RoomId, seq<Msg>>) {
    forall r :: r in rooms ==> |rooms[r]| <= HistoryLimit
  }

  /** Every session's room has a history: the guard `if (rooms[user.roomId])`
      in the chat handler always holds for a registered socket. */
  ghost predicate RoomsCoverUsers(rooms: map<RoomId, seq<Msg>>, users: map<SocketId, User>) {
    forall s :: s in users ==> users[s].roomId in rooms
  }

  /** Join and leave notices are broadcast but never stored. */
  ghost predicate NoSystemInHistory(rooms: map<RoomId, seq<Msg>>) {
    forall r, i :: r in rooms && 0 <= i < |rooms[r]| ==> rooms[r][i].user != SystemUser
  }

  ghost predicate NamesAreGenerated(users: map<SocketId, User>) {
    forall s :: s in users ==> IsGeneratedName(users[s].username) && users[s].username != SystemUser
  }

  // ---------------------------------------------------------------------------
  // Creating a room on join (see Findings in README.md)

  /** Property names every plain JavaScript object inherits from
      `Object.prototype`; reading `rooms[k]` for one of them yields a truthy
      value although no room `k` was ever stored. */
  const InheritedKeys: set<string> := {
    "constructor", "__proto__", "hasOwnProperty", "isPrototypeOf", "propertyIsEnumerable",
    "toString", "toLocaleString", "valueOf",
    "__defineGetter__", "__defineSetter__", "__lookupGetter__", "__lookupSetter__"
  }

  /** The `rooms` map after `if (!rooms[roomId]) rooms[roomId] = []` as
      written, where the lookup also sees inherited properties. */
  function EnsureRoomAsWritten(rooms: map<RoomId, seq<Msg>>, roomId: RoomId): (r: map<RoomId, seq<Msg>>)
    ensures roomId in InheritedKeys ==> r == rooms
    ensures roomId !in InheritedKeys ==> r == EnsureRoom(rooms, roomId)
  {
    if roomId in rooms || roomId in InheritedKeys then rooms else rooms[roomId := []]
  }

  /** The written check lets a join to room "constructor" register a session
      whose room has no history. */
  lemma AsWrittenJoinLeavesSessionWithoutRoom(socket: SocketId, username: string)
    ensures !RoomsCoverUsers(EnsureRoomAsWritten(map[], "constructor"), map[socket := User(username, "constructor")])
  {
    var rooms := EnsureRoomAsWritten(map[], "constructor");
    var users := map[socket := User(username, "constructor")];
    assert "constructor" in InheritedKeys;
    assert rooms == map[];
    assert socket in users && users[socket].roomId !in rooms;
  }

  /** The intended check: create an empty history exactly when the room has
      none of its own. */
  function EnsureRoom(rooms: map<RoomId, seq<Msg>>, roomId: RoomId): (r: map<RoomId, seq<Msg>>)
    ensures roomId in r
    ensures roomId in rooms ==> r == rooms
    ensures roomId !in rooms ==> r == rooms[roomId := []]
  {
    if roomId in rooms then rooms else rooms[roomId := []]
  }

  /** With the intended check, a join keeps every session's room in `rooms`,
      whatever the room id. */
  lemma JoinKeepsRoomsCoverUsers(rooms: map<RoomId, seq<Msg>>, users: map<SocketId, User>,
                                 socket: SocketId, user: User)
    requires RoomsCoverUsers(rooms, users)
    ensures RoomsCoverUsers(EnsureRoom(rooms, user.roomId), users[socket := user])
  {
  }

  /** A join with a generated name keeps all four registry invariants. */
  lemma JoinKeepsInvariants(rooms: map<RoomId, seq<Msg>>, users: map<SocketId, User>,
                            socket: SocketId, user: User)
    requires HistoriesBounded(rooms) && RoomsCoverUsers(rooms, users)
    requires NoSystemInHistory(rooms) && NamesAreGenerated(users)
    requires IsGeneratedName(user.username) && user.username != SystemUser
    ensures HistoriesBounded(EnsureRoom(rooms, user.roomId))
    ensures RoomsCoverUsers(EnsureRoom(rooms, user.roomId), users[socket := user])
    ensures NoSystemInHistory(EnsureRoom(rooms, user.roomId))
    ensures NamesAreGenerated(users[socket := user])
  {
    JoinKeepsRoomsCoverUsers(rooms, users, socket, user);
  }

  // ---------------------------------------------------------------------------
  // The server state and its event handlers

  class Server {
    /** `rooms`: room id to message history. */
    var rooms: map<RoomId, seq<Msg>>
    /** `users`: socket id to session. */
    var users: map<SocketId, User>
    /** Every emit so far, in order. */
    ghost var log: seq<Emit>

    ghost predicate Valid()
      reads this
    {
      && HistoriesBounded(rooms)
      && RoomsCoverUsers(rooms, users)
      && NoSystemInHistory(rooms)
      && NamesAreGenerated(users)
    }

    constructor ()
      ensures Valid()
      ensures rooms == map[] && users == map[] && log == []
    {
      rooms := map[];
      users := map[];
      log := [];
    }

    /** `socket.on('joinRoom', roomId => ...)`, with the two random word
        draws and the clock reading passed in. */
    method JoinRoom(socket: SocketId, roomId: RoomId, adj: AdjectiveIndex, animal: AnimalIndex, now: string)
      requires Valid()
      modifies this
      ensures Valid()
      ensures users == old(users)[socket := User(GenerateUsername(adj, animal), roomId)]
      ensures rooms == EnsureRoom(old(rooms), roomId)
      ensures log == old(log) + [
        Emit(ToSocket(socket), History(rooms[roomId])),
        Emit(ToSocket(socket), Joined(GenerateUsername(adj, animal))),
        Emit(ToRoom(roomId), Message(SystemMessage(JoinedText(GenerateUsername(adj, animal)), now)))]
    {
      var username := GenerateUsername(adj, animal);
      JoinKeepsInvariants(rooms, users, socket, User(username, roomId));
      users := users[socket := User(username, roomId)];
      if roomId !in rooms {
        rooms := rooms[roomId := []];
      }
      assert rooms == EnsureRoom(old(rooms), roomId);
      log := log + [Emit(ToSocket(socket), History(rooms[roomId]))];
      log := log + [Emit(ToSocket(socket), Joined(username))];
      log := log + [Emit(ToRoom(roomId), Message(SystemMessage(JoinedText(username), now)))];
    }

    /** `socket.on('chatMessage', msg => ...)`: stamp, store in the bounded
        history, broadcast; dropped when the socket has no session. */
    method ChatMessage(socket: SocketId, text: string, now: string)
      requires Valid()
      modifies this
      ensures Valid()
      ensures users == old(users)
      ensures socket !in old(users) ==> rooms == old(rooms) && log == old(log)
      ensures socket in old(users) ==>
        var user := old(users)[socket];
        var stored := Msg(user.username, text, now);
        && rooms == old(rooms)[user.roomId := Pushed(old(rooms)[user.roomId], stored)]
        && log == old(log) + [Emit(ToRoom(user.roomId), Message(stored))]
    {
      if socket in users {
        var user := users[socket];
        var messageData := Msg(user.username, text, now);
        if user.roomId in rooms {
          var history := rooms[user.roomId] + [messageData];
          if |history| > HistoryLimit {
            history := history[1..];
          }
          rooms := rooms[user.roomId := history];
        }
        log := log + [Emit(ToRoom(user.roomId), Message(messageData))];
      }
    }

    /** `socket.on('disconnect', ...)`: announce the departure to the room and
        forget the session; nothing happens for a socket that never joined. */
    method Disconnect(socket: SocketId, now: string)
      requires Valid()
      modifies this
      ensures Valid()
      ensures rooms == old(rooms)
      ensures socket !in old(users) ==> users == old(users) && log == old(log)
      ensures socket in old(users) ==>
        var user := old(users)[socket];
        && users == old(users) - {socket}
        && log == old(log) + [Emit(ToRoom(user.roomId), Message(SystemMessage(LeftText(user.username), now)))]
    {
      if socket in users {
        var user := users[socket];
        log := log + [Emit(ToRoom(user.roomId), Message(SystemMessage(LeftText(user.username), now)))];
        users := users - {socket};
      }
    }
  }
}
