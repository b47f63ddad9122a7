/** The socket server's state machine: the room registry, the player
    registry, and one method per inbound event. Every `emit` is an append to
    `outbox`. */
module GameServer {
  import opened Values
  import opened Scoring
  import opened Turns

  /** The system message appended when a player enters a room. */
  function EnteredMessage(userData: Player, now: int): ChatEvent
  {
    ChatEvent(userData.username + " has entered the waiting room", userData.username, User(userData.id), At(now))
  }

  /** The system message appended when a player leaves a room. */
  function LeftMessage(p: Player): ChatEvent
  {
    ChatEvent(p.username + " has left the chat", "", Zero, NoTime)
  }

  /** Every roster entry of every room has a registered record. */
  ghost predicate AllRostersRegistered(rooms: map<RoomId, Room>, clients: map<ConnId, Player>)
  {
    forall k :: k in rooms ==> RosterRegistered(clients, rooms[k].clientsInRoom)
  }

  /** A client that is on no other room's roster can leave `roomId` and lose
      its record without leaving any roster entry unregistered. */
  lemma LeaveKeepsRegistered(rooms: map<RoomId, Room>, clients: map<ConnId, Player>, roomId: RoomId, client: ConnId, room: Room)
    requires AllRostersRegistered(rooms, clients) && roomId in rooms
    requires forall k :: k in rooms && k != roomId ==> client !in rooms[k].clientsInRoom
    requires room.clientsInRoom == Without(rooms[roomId].clientsInRoom, client)
    ensures AllRostersRegistered(rooms[roomId := room], clients - {client})
    ensures AllRostersRegistered(rooms - {roomId}, clients - {client})
  {
    WithoutRegistered(clients, rooms[roomId].clientsInRoom, client);
    forall k | k in rooms && k != roomId
      ensures RosterRegistered(clients - {client}, rooms[k].clientsInRoom)
    {
      var roster := rooms[k].clientsInRoom;
      forall i | 0 <= i < |roster| ensures roster[i] in clients - {client} {
        assert roster[i] in roster;
      }
    }
  }

  class Server {
    /** `rooms`: room id to room. */
    var rooms: map<RoomId, Room>
    /** `connectedClients`: connection id to player record. */
    var connectedClients: map<ConnId, Player>
    /** Every emit so far, in order. */
    var outbox: seq<Emit>

    /** Every room is stored under its own id. */
    ghost predicate Valid()
      reads this
    {
      forall k :: k in rooms ==> rooms[k].id == k
    }

    /** Every roster entry of every room has a registered record. */
    ghost predicate AllRegistered()
      reads this
    {
      AllRostersRegistered(rooms, connectedClients)
    }

    /** The only effect of the step was `RoomNotAvailable` to `client`. */
    twostate predicate KickedOnly(client: ConnId)
      reads this
    {
      rooms == old(rooms) && connectedClients == old(connectedClients)
      && outbox == old(outbox) + [Emit(client, RoomNotAvailable)]
    }

    /** The registries are those of `o` and its emits were appended. */
    twostate predicate Became(o: Outcome)
      reads this
    {
      rooms == o.rooms && connectedClients == o.clients && outbox == old(outbox) + o.emits
    }

    constructor ()
      ensures Valid() && AllRegistered()
      ensures rooms == map[] && connectedClients == map[] && outbox == []
    {
      rooms, connectedClients, outbox := map[], map[], [];
    }

    /** `roster.forEach(c => c.emit(e))`. */
    method EmitAll(roster: seq<ConnId>, e: Event)
      modifies this`outbox
      ensures outbox == old(outbox) + Broadcast(roster, e)
    {
      var i := 0;
      while i < |roster|
        invariant 0 <= i <= |roster|
        invariant outbox == old(outbox) + Broadcast(roster[..i], e)
      {
        assert roster[..i + 1][..i] == roster[..i];
        outbox := outbox + [Emit(roster[i], e)];
        i := i + 1;
      }
      assert roster[..|roster|] == roster;
    }

    /** `kick(client)`. */
    method Kick(client: ConnId)
      modifies this`outbox
      ensures outbox == old(outbox) + [Emit(client, RoomNotAvailable)]
    {
      outbox := outbox + [Emit(client, RoomNotAvailable)];
    }

    /** `sendUpdatedChatRoomData(room)`: the whole transcript to every member. */
    method SendUpdatedChatRoomData(room: Room)
      modifies this`outbox
      ensures outbox == old(outbox) + Broadcast(room.clientsInRoom, RetrieveChatRoomData(room.chatRoomData))
    {
      EmitAll(room.clientsInRoom, RetrieveChatRoomData(room.chatRoomData));
    }

    /** `sendUpdatedPlayersList(room)`: collect each member's record, then send
        the list to every member. */
    method SendUpdatedPlayersList(room: Room)
      modifies this`outbox
      ensures outbox == old(outbox)
        + Broadcast(room.clientsInRoom, RetrievePlayersList(PlayersList(connectedClients, room.clientsInRoom)))
    {
      var roster := room.clientsInRoom;
      var playersList := [];
      var i := 0;
      while i < |roster|
        invariant 0 <= i <= |roster|
        invariant playersList == PlayersList(connectedClients, roster[..i])
      {
        assert roster[..i + 1][..i] == roster[..i];
        playersList := playersList + [Lookup(connectedClients, roster[i])];
        i := i + 1;
      }
      assert roster[..|roster|] == roster;
      EmitAll(roster, RetrievePlayersList(playersList));
    }

    /** `tearDownRoom(roomId)`: `RoomDestroyed` to every member, then the room
        is deleted. */
    method TearDownRoom(roomId: RoomId)
      requires Valid() && roomId in rooms
      modifies this`rooms, this`outbox
      ensures Valid()
      ensures rooms == old(rooms) - {roomId}
      ensures outbox == old(outbox) + Broadcast(old(rooms)[roomId].clientsInRoom, RoomDestroyed)
    {
      var room := rooms[roomId];
      EmitAll(room.clientsInRoom, RoomDestroyed);
      rooms := rooms - {roomId};
    }

    /** `sendStartGame(room)`. */
    method SendStartGame(room: Room)
      modifies this`outbox
      ensures outbox == old(outbox) + Broadcast(room.clientsInRoom, StartGame)
    {
      EmitAll(room.clientsInRoom, StartGame);
    }

    /** `startNextRound(roomId)`. */
    method StartNextRound(roomId: RoomId)
      requires Valid() && roomId in rooms && RosterRegistered(connectedClients, rooms[roomId].clientsInRoom)
      modifies this
      ensures Valid()
      ensures Became(NextRound(old(rooms), old(connectedClients), roomId))
    {
      var ps := PlayersIn(connectedClients, rooms[roomId].clientsInRoom);
      if AllTurnsTaken(ps) {
        EndGame(roomId);
      } else {
        var next := FirstWithoutTurn(ps).value;
        GrantTurn(roomId, next);
      }
    }

    /** The game-over branch of `startNextRound`. */
    method EndGame(roomId: RoomId)
      requires Valid() && roomId in rooms && RosterRegistered(connectedClients, rooms[roomId].clientsInRoom)
      modifies this
      ensures Valid()
      ensures Became(GameOverStep(old(rooms), old(connectedClients), roomId))
    {
      var room := rooms[roomId];
      var ps := PlayersIn(connectedClients, room.clientsInRoom);
      var allScores, maxScore, winningUsername := Tally(ps);
      EmitAll(room.clientsInRoom, GameOver(allScores, maxScore, winningUsername));
      TearDownRoom(roomId);
    }

    /** The next-turn branch of `startNextRound`, for the player at roster
        position `next`. */
    method GrantTurn(roomId: RoomId, next: nat)
      requires Valid() && roomId in rooms && RosterRegistered(connectedClients, rooms[roomId].clientsInRoom)
      requires next < |rooms[roomId].clientsInRoom|
      modifies this
      ensures Valid()
      ensures Became(TurnStep(old(rooms), old(connectedClients), roomId, next))
    {
      var room := rooms[roomId];
      var c := room.clientsInRoom[next];
      connectedClients := connectedClients[c := connectedClients[c].(turnTaken := true)];
      var p := connectedClients[c];
      EmitAll(room.clientsInRoom, StartRound(p.word, p.id));
    }

    /** `checkIfAllPlayersHaveSetWord(roomId)`. */
    method CheckIfAllPlayersHaveSetWord(roomId: RoomId)
      requires Valid() && roomId in rooms && RosterRegistered(connectedClients, rooms[roomId].clientsInRoom)
      modifies this
      ensures Valid()
      ensures Became(WordCheck(old(rooms), old(connectedClients), roomId))
    {
      var room := rooms[roomId];
      var ps := PlayersIn(connectedClients, room.clientsInRoom);
      if AllHaveWord(ps) {
        ghost var o := NextRound(rooms, connectedClients, roomId);
        var wordsMap := CollectWords(ps);
        EmitAll(room.clientsInRoom, SetWordsMap(wordsMap));
        ghost var announced := outbox;
        StartNextRound(roomId);
        assert outbox == announced + o.emits;
      }
    }

    /** `checkIfAllPlayersHaveRoundScore(roomId, roundId)`. */
    method CheckIfAllPlayersHaveRoundScore(roomId: RoomId, roundId: RoundKey)
      requires Valid() && roomId in rooms && RosterRegistered(connectedClients, rooms[roomId].clientsInRoom)
      modifies this
      ensures Valid()
      ensures Became(ScoreCheck(old(rooms), old(connectedClients), roomId, roundId))
    {
      var room := rooms[roomId];
      var ps := PlayersIn(connectedClients, room.clientsInRoom);
      if AllHaveRoundScore(ps, roundId) {
        StartNextRound(roomId);
      }
    }

    // Inbound events.

    /** `SendMessage(messageData, roomId)`. */
    method SendMessage(client: ConnId, messageData: ChatEvent, roomId: RoomId)
      requires Valid()
      modifies this
      ensures Valid()
      ensures old(AllRegistered()) ==> AllRegistered()
      ensures roomId !in old(rooms) ==> KickedOnly(client)
      ensures roomId in old(rooms) ==>
        var r := old(rooms)[roomId];
        var room := r.(chatRoomData := r.chatRoomData + [messageData]);
        && rooms == old(rooms)[roomId := room]
        && connectedClients == old(connectedClients)
        && outbox == old(outbox) + Broadcast(room.clientsInRoom, RetrieveChatRoomData(room.chatRoomData))
    {
      if roomId !in rooms {
        Kick(client);
        return;
      }
      var room := rooms[roomId];
      room := room.(chatRoomData := room.chatRoomData + [messageData]);
      rooms := rooms[roomId := room];
      SendUpdatedChatRoomData(room);
    }

    /** `CreateRoom(roomId)`: a fresh empty room, replacing any room already
        stored under that id. */
    method CreateRoom(roomId: RoomId)
      requires Valid()
      modifies this
      ensures Valid()
      ensures old(AllRegistered()) ==> AllRegistered()
      ensures rooms == old(rooms)[roomId := Room(roomId, [], [])]
      ensures connectedClients == old(connectedClients) && outbox == old(outbox)
    {
      rooms := rooms[roomId := Room(roomId, [], [])];
    }

    /** `UserEnteredRoom(userData, roomId)`; `now` is the clock reading that
        stamps the "has entered" message. */
    method UserEnteredRoom(client: ConnId, userData: Player, roomId: RoomId, now: int)
      requires Valid()
      modifies this
      ensures Valid()
      ensures old(AllRegistered()) ==> AllRegistered()
      ensures roomId !in old(rooms) ==> KickedOnly(client)
      ensures roomId in old(rooms) ==>
        var r := old(rooms)[roomId];
        var room := Room(r.id, r.clientsInRoom + [client], r.chatRoomData + [EnteredMessage(userData, now)]);
        && rooms == old(rooms)[roomId := room]
        && connectedClients == old(connectedClients)[client := userData]
        && outbox == old(outbox)
             + Broadcast(room.clientsInRoom, RetrieveChatRoomData(room.chatRoomData))
             + Broadcast(room.clientsInRoom, RetrievePlayersList(PlayersList(connectedClients, room.clientsInRoom)))
    {
      if roomId !in rooms {
        Kick(client);
        return;
      }
      var room := rooms[roomId];
      var enteredRoomMessage := EnteredMessage(userData, now);
      room := room.(chatRoomData := room.chatRoomData + [enteredRoomMessage]);
      connectedClients := connectedClients[client := userData];
      room := room.(clientsInRoom := room.clientsInRoom + [client]);
      rooms := rooms[roomId := room];
      SendUpdatedChatRoomData(room);
      SendUpdatedPlayersList(room);
    }

    /** `disconnecting(roomId)`: a registered client leaves the room; the room
        is torn down when its id is the leaving player's id. Since `Valid()`
        stores every room under its own id, that is `roomId == p.id`. */
    method Disconnecting(client: ConnId, roomId: RoomId)
      requires Valid()
      modifies this
      ensures Valid()
      ensures old(AllRegistered())
              && (forall k :: k in old(rooms) && k != roomId ==> client !in old(rooms)[k].clientsInRoom)
              ==> AllRegistered()
      ensures roomId !in old(rooms) ==> KickedOnly(client)
      ensures roomId in old(rooms) && client !in old(connectedClients) ==>
        rooms == old(rooms) && connectedClients == old(connectedClients) && outbox == old(outbox)
      ensures roomId in old(rooms) && client in old(connectedClients) ==>
        var p := old(connectedClients)[client];
        var r := old(rooms)[roomId];
        var room := Room(r.id, Without(r.clientsInRoom, client), r.chatRoomData + [LeftMessage(p)]);
        && connectedClients == old(connectedClients) - {client}
        && (roomId == p.id ==>
              rooms == old(rooms) - {roomId}
              && outbox == old(outbox) + Broadcast(room.clientsInRoom, RoomDestroyed))
        && (roomId != p.id ==>
              rooms == old(rooms)[roomId := room]
              && outbox == old(outbox)
                   + Broadcast(room.clientsInRoom, RetrieveChatRoomData(room.chatRoomData))
                   + Broadcast(room.clientsInRoom, RetrievePlayersList(PlayersList(old(connectedClients), room.clientsInRoom))))
    {
      if roomId !in rooms {
        Kick(client);
        return;
      }
      if client in connectedClients {
        ghost var rooms0, clients0, outbox0 := rooms, connectedClients, outbox;
        var p := connectedClients[client];
        var leftRoomMessage := LeftMessage(p);
        var room := rooms[roomId];
        room := room.(clientsInRoom := Without(room.clientsInRoom, client));
        room := room.(chatRoomData := room.chatRoomData + [leftRoomMessage]);
        rooms := rooms[roomId := room];
        if room.id == p.id {
          TearDownRoom(roomId);
          assert rooms == rooms0 - {roomId};
        } else {
          SendUpdatedChatRoomData(room);
          SendUpdatedPlayersList(room);
          assert rooms == rooms0[roomId := room];
        }
        connectedClients := connectedClients - {client};
        if AllRostersRegistered(rooms0, clients0)
           && forall k :: k in rooms0 && k != roomId ==> client !in rooms0[k].clientsInRoom
        {
          LeaveKeepsRegistered(rooms0, clients0, roomId, client, room);
        }
      }
    }

    /** `ClearChat(roomId)`: the transcript is emptied and the empty
        transcript sent to every member. */
    method ClearChat(client: ConnId, roomId: RoomId)
      requires Valid()
      modifies this
      ensures Valid()
      ensures old(AllRegistered()) ==> AllRegistered()
      ensures roomId !in old(rooms) ==> KickedOnly(client)
      ensures roomId in old(rooms) ==>
        var room := old(rooms)[roomId].(chatRoomData := []);
        && rooms == old(rooms)[roomId := room]
        && connectedClients == old(connectedClients)
        && outbox == old(outbox) + Broadcast(room.clientsInRoom, RetrieveChatRoomData([]))
    {
      if roomId !in rooms {
        Kick(client);
        return;
      }
      var room := rooms[roomId];
      room := room.(chatRoomData := []);
      rooms := rooms[roomId := room];
      SendUpdatedChatRoomData(room);
    }

    /** `HostStartGame(roomId)`: `StartGame` to every member; no state changes. */
    method HostStartGame(client: ConnId, roomId: RoomId)
      requires Valid()
      modifies this
      ensures Valid()
      ensures roomId !in old(rooms) ==> KickedOnly(client)
      ensures roomId in old(rooms) ==>
        && rooms == old(rooms) && connectedClients == old(connectedClients)
        && outbox == old(outbox) + Broadcast(rooms[roomId].clientsInRoom, StartGame)
    {
      if roomId !in rooms {
        Kick(client);
        return;
      }
      SendStartGame(rooms[roomId]);
    }

    /** `SetWord(roomId, word)`: the sender's record gets `hasWord` and the
        word, then the words check runs. */
    method SetWord(client: ConnId, roomId: RoomId, word: string)
      requires Valid()
      requires roomId in rooms ==>
        client in connectedClients && RosterRegistered(connectedClients, rooms[roomId].clientsInRoom)
      modifies this
      ensures Valid()
      ensures old(AllRegistered()) ==> AllRegistered()
      ensures roomId !in old(rooms) ==> KickedOnly(client)
      ensures roomId in old(rooms) ==>
        var clients := old(connectedClients)[client := old(connectedClients)[client].(hasWord := true, word := Some(word))];
        Became(WordCheck(old(rooms), clients, roomId))
    {
      if roomId !in rooms {
        Kick(client);
        return;
      }
      var userData := connectedClients[client];
      userData := userData.(hasWord := true, word := Some(word));
      connectedClients := connectedClients[client := userData];
      CheckIfAllPlayersHaveSetWord(roomId);
    }

    /** `SetRoundScore(roomId, roundId, score)`: the sender's score for the
        round is recorded, then the round-score check runs. */
    method SetRoundScore(client: ConnId, roomId: RoomId, roundId: RoundKey, score: int)
      requires Valid()
      requires roomId in rooms ==>
        client in connectedClients && RosterRegistered(connectedClients, rooms[roomId].clientsInRoom)
      modifies this
      ensures Valid()
      ensures old(AllRegistered()) ==> AllRegistered()
      ensures roomId !in old(rooms) ==> KickedOnly(client)
      ensures roomId in old(rooms) ==>
        var p := old(connectedClients)[client];
        var clients := old(connectedClients)[client := p.(scores := p.scores[roundId := score])];
        Became(ScoreCheck(old(rooms), clients, roomId, roundId))
    {
      if roomId !in rooms {
        Kick(client);
        return;
      }
      var userData := connectedClients[client];
      userData := userData.(scores := userData.scores[roundId := score]);
      connectedClients := connectedClients[client := userData];
      CheckIfAllPlayersHaveRoundScore(roomId, roundId);
    }
  }
}
