/** The data the game server keeps and sends: players, rooms, chat events
    and the named events that stand for every `emit` of a socket. */
module Values {

  /** A socket connection id (`client.id`). */
  type ConnId = string
  /** A room id, chosen by the client that sends `CreateRoom`. */
  type RoomId = string
  /** A player id, chosen by the client (`userData.id`). */
  type PlayerId = string
  /** A round index, in the string form a JavaScript object key takes. */
  type RoundKey = string

  datatype Option<+T> = None | Some(value: T)

  /** The `timeStamp` of a chat event: a clock reading, or `null`. */
  datatype TimeStamp = NoTime | At(millis: int)

  /** The `userID` of a chat event: a player id, or the literal 0 of a system message. */
  datatype UserRef = Zero | User(id: PlayerId)

  datatype ChatEvent = ChatEvent(message: string, username: string, userID: UserRef, timeStamp: TimeStamp)

  /** A player record as the client sends it on `UserEnteredRoom` and the
      server later updates it. */
  datatype Player = Player(
    id: PlayerId,
    username: string,
    hasWord: bool,
    word: Option<string>,
    scores: map<RoundKey, int>,
    turnTaken: bool)

  /** A room: its id, its roster of connections in join order (which is also
      the turn order) and its chat transcript. */
  datatype Room = Room(id: RoomId, clientsInRoom: seq<ConnId>, chatRoomData: seq<ChatEvent>)

  /** The outbound events, with their payloads. */
  datatype Event =
    | RetrieveChatRoomData(transcript: seq<ChatEvent>)
    | RetrievePlayersList(players: seq<Option<Player>>)
    | RoomNotAvailable
    | StartGame
    | SetWordsMap(words: map<PlayerId, Option<string>>)
    | StartRound(word: Option<string>, playerId: PlayerId)
    | GameOver(allScores: map<string, int>, maxScore: int, winningUsername: string)
    | RoomDestroyed

  /** One `emit`: the connection it goes to and the event. */
  datatype Emit = Emit(to: ConnId, event: Event)

  /** The emits of `roster.forEach(c => c.emit(e))`: one per roster entry, in
      roster order, each carrying the same event. */
  function Broadcast(roster: seq<ConnId>, e: Event): (out: seq<Emit>)
    ensures |out| == |roster|
    ensures forall i :: 0 <= i < |roster| ==> out[i] == Emit(roster[i], e)
  {
    if roster == [] then []
    else Broadcast(roster[..|roster| - 1], e) + [Emit(roster[|roster| - 1], e)]
  }

  /** The record registered for `c`, if any (`connectedClients[c.id]`). */
  function Lookup(clients: map<ConnId, Player>, c: ConnId): Option<Player>
  {
    if c in clients then Some(clients[c]) else None
  }

  /** The players list that `sendUpdatedPlayersList` collects: the lookup of
      each roster entry, in roster order, absent where a connection has no record. */
  function PlayersList(clients: map<ConnId, Player>, roster: seq<ConnId>): (ps: seq<Option<Player>>)
    ensures |ps| == |roster|
    ensures forall i :: 0 <= i < |roster| ==>
      (roster[i] in clients <==> ps[i].Some?) && (ps[i].Some? ==> ps[i].value == clients[roster[i]])
  {
    if roster == [] then []
    else PlayersList(clients, roster[..|roster| - 1]) + [Lookup(clients, roster[|roster| - 1])]
  }

  /** Every roster entry has a registered record. */
  predicate RosterRegistered(clients: map<ConnId, Player>, roster: seq<ConnId>)
  {
    forall i :: 0 <= i < |roster| ==> roster[i] in clients
  }

  /** The records of a registered roster, in roster order. */
  function PlayersIn(clients: map<ConnId, Player>, roster: seq<ConnId>): seq<Player>
    requires RosterRegistered(clients, roster)
  {
    seq(|roster|, i requires 0 <= i < |roster| => clients[roster[i]])
  }

  /** The roster after `filter((c) => c is not the leaving client)`: every
      occurrence of `c` removed, everything else kept in order. */
  function Without(roster: seq<ConnId>, c: ConnId): (r: seq<ConnId>)
    ensures multiset(r) == multiset(roster)[c := 0]
    ensures c !in roster ==> r == roster
  {
    if roster == [] then []
    else
      assert roster == [roster[0]] + roster[1..];
      (if roster[0] == c then [] else [roster[0]]) + Without(roster[1..], c)
  }

  lemma {:induction false} WithoutAppend(s: seq<ConnId>, t: seq<ConnId>, c: ConnId)
    ensures Without(s + t, c) == Without(s, c) + Without(t, c)
  {
    if s == [] {
      assert s + t == t;
    } else {
      var head := if s[0] == c then [] else [s[0]];
      assert (s + t)[0] == s[0];
      assert (s + t)[1..] == s[1..] + t;
      assert Without(s + t, c) == head + Without(s[1..] + t, c);
      WithoutAppend(s[1..], t, c);
    }
  }

  /** Removing `c` from a registered roster leaves it registered once `c`'s
      record is gone. */
  lemma WithoutRegistered(clients: map<ConnId, Player>, roster: seq<ConnId>, c: ConnId)
    requires RosterRegistered(clients, roster)
    ensures RosterRegistered(clients - {c}, Without(roster, c))
  {
    var r := Without(roster, c);
    forall i | 0 <= i < |r| ensures r[i] in clients - {c} {
      assert r[i] in multiset(r);
      assert r[i] != c && r[i] in multiset(roster);
      var j :| 0 <= j < |roster| && roster[j] == r[i];
    }
  }

  /** The object that assigning `obj[k] = v` for each entry in order builds:
      a later assignment to the same key overwrites an earlier one. */
  function ToObject<K, V>(entries: seq<(K, V)>): (obj: map<K, V>)
    ensures obj.Keys == set e | e in entries :: e.0
  {
    if entries == [] then map[]
    else
      var last := entries[|entries| - 1];
      assert entries == entries[..|entries| - 1] + [last];
      ToObject(entries[..|entries| - 1])[last.0 := last.1]
  }

  lemma ToObjectSnoc<K, V>(entries: seq<(K, V)>, e: (K, V))
    ensures ToObject(entries + [e]) == ToObject(entries)[e.0 := e.1]
  {
    assert (entries + [e])[..|entries|] == entries;
  }

  /** The value under a key is that of the LAST entry with that key. */
  lemma {:induction false} ToObjectLastWins<K, V>(entries: seq<(K, V)>, i: nat)
    requires i < |entries|
    requires forall j :: i < j < |entries| ==> entries[j].0 != entries[i].0
    ensures entries[i].0 in ToObject(entries)
    ensures ToObject(entries)[entries[i].0] == entries[i].1
  {
    var n := |entries|;
    if i < n - 1 {
      var init := entries[..n - 1];
      ToObjectLastWins(init, i);
      ToObjectSnoc(init, entries[n - 1]);
      assert entries == init + [entries[n - 1]];
    }
  }
}
