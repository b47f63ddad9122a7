/** The turn engine's queries over a room's players (the `every` and `find`
    of the source), the words map, and the specification of round
    advancement on the two registries. */
module Turns {
  import opened Values
  import opened Scoring

  /** `clientsInRoom.every(c => connectedClients[c.id].hasWord)`. */
  predicate AllHaveWord(ps: seq<Player>)
  {
    forall i :: 0 <= i < |ps| ==> ps[i].hasWord
  }

  /** `clientsInRoom.every(c => roundId in connectedClients[c.id].scores)`. */
  predicate AllHaveRoundScore(ps: seq<Player>, roundId: RoundKey)
  {
    forall i :: 0 <= i < |ps| ==> roundId in ps[i].scores
  }

  /** `clientsInRoom.every(c => connectedClients[c.id].turnTaken)`. */
  predicate AllTurnsTaken(ps: seq<Player>)
  {
    forall i :: 0 <= i < |ps| ==> ps[i].turnTaken
  }

  /** `clientsInRoom.find(c => !connectedClients[c.id].turnTaken)`, as a
      roster index: the first player in roster order who has not had a turn. */
  function FirstWithoutTurn(ps: seq<Player>): (r: Option<nat>)
    ensures r.None? <==> AllTurnsTaken(ps)
    ensures r.Some? ==> r.value < |ps| && !ps[r.value].turnTaken
    ensures r.Some? ==> forall j :: 0 <= j < r.value ==> ps[j].turnTaken
  {
    if ps == [] then None
    else if !ps[0].turnTaken then Some(0)
    else
      match FirstWithoutTurn(ps[1..])
      case None => None
      case Some(k) => Some(k + 1)
  }

  /** A turn that is taken stays taken, and the granted one is taken: the
      next turn goes to a player strictly later in the roster, or the game ends. */
  lemma {:induction false} TurnsAdvance(ps: seq<Player>, ps': seq<Player>, i: nat)
    requires FirstWithoutTurn(ps) == Some(i)
    requires |ps'| == |ps| && ps'[i].turnTaken
    requires forall j :: 0 <= j < |ps| && ps[j].turnTaken ==> ps'[j].turnTaken
    ensures FirstWithoutTurn(ps') == None || FirstWithoutTurn(ps').value > i
  {
    var next := FirstWithoutTurn(ps');
    if next.Some? {
      assert !ps'[next.value].turnTaken;
    }
  }

  /** The `wordsMap[id] = word` assignments, in roster order. */
  function WordEntries(ps: seq<Player>): (es: seq<(PlayerId, Option<string>)>)
    ensures |es| == |ps|
    ensures forall i :: 0 <= i < |ps| ==> es[i] == (ps[i].id, ps[i].word)
  {
    if ps == [] then []
    else WordEntries(ps[..|ps| - 1]) + [(ps[|ps| - 1].id, ps[|ps| - 1].word)]
  }

  /** The payload of `SetWordsMap`. */
  function WordsMap(ps: seq<Player>): map<PlayerId, Option<string>>
  {
    ToObject(WordEntries(ps))
  }

  /** The words map has exactly the roster's player ids as keys, and under an
      id the word of the last roster player with that id. */
  lemma WordsMapMeaning(ps: seq<Player>, i: nat)
    requires i < |ps|
    requires forall j :: i < j < |ps| ==> ps[j].id != ps[i].id
    ensures WordsMap(ps).Keys == set p | p in ps :: p.id
    ensures WordsMap(ps)[ps[i].id] == ps[i].word
  {
    var es := WordEntries(ps);
    ToObjectLastWins(es, i);
    forall u | u in WordsMap(ps).Keys ensures exists p :: p in ps && p.id == u {
      var e :| e in es && e.0 == u;
      var k :| 0 <= k < |es| && es[k] == e;
      assert ps[k] in ps;
    }
    forall p | p in ps ensures p.id in WordsMap(ps).Keys {
      var k :| 0 <= k < |ps| && ps[k] == p;
      assert es[k] in es;
    }
  }

  /** The `forEach` that fills `wordsMap` in `checkIfAllPlayersHaveSetWord`. */
  method CollectWords(ps: seq<Player>) returns (wordsMap: map<PlayerId, Option<string>>)
    ensures wordsMap == WordsMap(ps)
  {
    wordsMap := map[];
    var i := 0;
    while i < |ps|
      invariant 0 <= i <= |ps|
      invariant wordsMap == ToObject(WordEntries(ps[..i]))
    {
      assert ps[..i + 1][..i] == ps[..i];
      ToObjectSnoc(WordEntries(ps[..i]), (ps[i].id, ps[i].word));
      wordsMap := wordsMap[ps[i].id := ps[i].word];
      i := i + 1;
    }
    assert ps[..|ps|] == ps;
  }

  /** The two registries and the emits after one step. */
  datatype Outcome = Outcome(rooms: map<RoomId, Room>, clients: map<ConnId, Player>, emits: seq<Emit>)

  /** The game-over branch of `startNextRound(roomId)`: `GameOver` with the
      tally to every member, then the room is torn down (`RoomDestroyed` to
      every member, room deleted). */
  ghost function GameOverStep(rooms: map<RoomId, Room>, clients: map<ConnId, Player>, roomId: RoomId): Outcome
    requires roomId in rooms && RosterRegistered(clients, rooms[roomId].clientsInRoom)
  {
    var roster := rooms[roomId].clientsInRoom;
    var ps := PlayersIn(clients, roster);
    Outcome(rooms - {roomId}, clients,
            Broadcast(roster, GameOver(ScoreTable(ps), MaxScore(ps), Winner(ps))) + Broadcast(roster, RoomDestroyed))
  }

  /** The next-turn branch of `startNextRound(roomId)`: the player at roster
      position `i` gets `turnTaken`, and every member is sent `StartRound`
      with that player's word and id. */
  function TurnStep(rooms: map<RoomId, Room>, clients: map<ConnId, Player>, roomId: RoomId, i: nat): Outcome
    requires roomId in rooms && RosterRegistered(clients, rooms[roomId].clientsInRoom)
    requires i < |rooms[roomId].clientsInRoom|
  {
    var roster := rooms[roomId].clientsInRoom;
    var c := roster[i];
    var p := clients[c].(turnTaken := true);
    Outcome(rooms, clients[c := p], Broadcast(roster, StartRound(p.word, p.id)))
  }

  /** `startNextRound(roomId)`: the game is over when every roster player has
      had a turn; otherwise the first roster player without a turn gets it. */
  ghost function NextRound(rooms: map<RoomId, Room>, clients: map<ConnId, Player>, roomId: RoomId): Outcome
    requires roomId in rooms && RosterRegistered(clients, rooms[roomId].clientsInRoom)
  {
    match FirstWithoutTurn(PlayersIn(clients, rooms[roomId].clientsInRoom))
    case None => GameOverStep(rooms, clients, roomId)
    case Some(i) => TurnStep(rooms, clients, roomId, i)
  }

  /** The room is removed, and `GameOver` is sent, exactly when every roster
      player has had a turn; nothing else about the registries changes then. */
  lemma {:induction false} GameOverIffAllTurnsTaken(rooms: map<RoomId, Room>, clients: map<ConnId, Player>, roomId: RoomId)
    requires roomId in rooms && RosterRegistered(clients, rooms[roomId].clientsInRoom)
    ensures var ps := PlayersIn(clients, rooms[roomId].clientsInRoom);
            var o := NextRound(rooms, clients, roomId);
            && (roomId !in o.rooms <==> AllTurnsTaken(ps))
            && (AllTurnsTaken(ps) ==> o.rooms == rooms - {roomId} && o.clients == clients)
            && ((exists k :: 0 <= k < |o.emits| && o.emits[k].event.GameOver?) <==> AllTurnsTaken(ps) && ps != [])
  {
    var roster := rooms[roomId].clientsInRoom;
    var ps := PlayersIn(clients, roster);
    var o := NextRound(rooms, clients, roomId);
    if AllTurnsTaken(ps) {
      var e := GameOver(ScoreTable(ps), MaxScore(ps), Winner(ps));
      assert o.emits == Broadcast(roster, e) + Broadcast(roster, RoomDestroyed);
      if ps != [] {
        assert o.emits[0].event.GameOver?;
      }
    } else {
      var i := FirstWithoutTurn(ps).value;
      var p := clients[roster[i]].(turnTaken := true);
      assert o.emits == Broadcast(roster, StartRound(p.word, p.id));
    }
  }

  /** A game-over step reports every standing as the tally loop computes it:
      `maxScore` is the largest of 0 and all totals, and the winner is the
      last roster player with that total. */
  lemma GameOverPayload(rooms: map<RoomId, Room>, clients: map<ConnId, Player>, roomId: RoomId, i: nat)
    requires roomId in rooms && RosterRegistered(clients, rooms[roomId].clientsInRoom)
    requires AllTurnsTaken(PlayersIn(clients, rooms[roomId].clientsInRoom))
    requires var ps := PlayersIn(clients, rooms[roomId].clientsInRoom);
             i < |ps| && Total(ps[i]) == MaxScore(ps) && forall j :: i < j < |ps| ==> Total(ps[j]) != MaxScore(ps)
    ensures var roster := rooms[roomId].clientsInRoom;
            var ps := PlayersIn(clients, roster);
            NextRound(rooms, clients, roomId).emits
              == Broadcast(roster, GameOver(ScoreTable(ps), MaxScore(ps), ps[i].username)) + Broadcast(roster, RoomDestroyed)
  {
    WinnerIsLastTop(PlayersIn(clients, rooms[roomId].clientsInRoom), i);
  }

  /** When some roster player has not had a turn, exactly the first such
      player in roster order gets `turnTaken`, no other record changes, the
      rooms stay as they are, and every member is told whose turn it is. */
  lemma {:induction false} NextRoundGrantsFirstTurn(rooms: map<RoomId, Room>, clients: map<ConnId, Player>, roomId: RoomId)
    requires roomId in rooms && RosterRegistered(clients, rooms[roomId].clientsInRoom)
    requires !AllTurnsTaken(PlayersIn(clients, rooms[roomId].clientsInRoom))
    ensures var roster := rooms[roomId].clientsInRoom;
            var ps := PlayersIn(clients, roster);
            var o := NextRound(rooms, clients, roomId);
            exists i :: 0 <= i < |roster|
              && !ps[i].turnTaken && (forall j :: 0 <= j < i ==> ps[j].turnTaken)
              && o.rooms == rooms
              && o.clients.Keys == clients.Keys
              && o.clients[roster[i]] == clients[roster[i]].(turnTaken := true)
              && (forall c :: c in clients && c != roster[i] ==> o.clients[c] == clients[c])
              && o.emits == Broadcast(roster, StartRound(ps[i].word, ps[i].id))
  {
    var roster := rooms[roomId].clientsInRoom;
    var ps := PlayersIn(clients, roster);
    var i := FirstWithoutTurn(ps).value;
    assert ps[i] == clients[roster[i]];
  }

  /** After a turn is granted, the next one goes to a later roster position:
      turns follow roster order and nobody gets two. */
  lemma {:induction false} NextRoundAdvances(rooms: map<RoomId, Room>, clients: map<ConnId, Player>, roomId: RoomId)
    requires roomId in rooms && RosterRegistered(clients, rooms[roomId].clientsInRoom)
    requires !AllTurnsTaken(PlayersIn(clients, rooms[roomId].clientsInRoom))
    ensures var roster := rooms[roomId].clientsInRoom;
            var o := NextRound(rooms, clients, roomId);
            && roomId in o.rooms && o.rooms[roomId].clientsInRoom == roster
            && RosterRegistered(o.clients, roster)
            && var next := FirstWithoutTurn(PlayersIn(o.clients, roster));
               next.None? || next.value > FirstWithoutTurn(PlayersIn(clients, roster)).value
  {
    var roster := rooms[roomId].clientsInRoom;
    var ps := PlayersIn(clients, roster);
    var o := NextRound(rooms, clients, roomId);
    var i := FirstWithoutTurn(ps).value;
    var ps' := PlayersIn(o.clients, roster);
    forall j | 0 <= j < |ps| && ps[j].turnTaken ensures ps'[j].turnTaken {
      assert ps'[j] == o.clients[roster[j]];
    }
    assert ps'[i] == o.clients[roster[i]];
    TurnsAdvance(ps, ps', i);
  }
  /** `checkIfAllPlayersHaveSetWord(roomId)`: when every roster player has a
      word, every member is sent the words map and then the next round
      starts; otherwise nothing happens. */
  ghost function WordCheck(rooms: map<RoomId, Room>, clients: map<ConnId, Player>, roomId: RoomId): Outcome
    requires roomId in rooms && RosterRegistered(clients, rooms[roomId].clientsInRoom)
  {
    var roster := rooms[roomId].clientsInRoom;
    var ps := PlayersIn(clients, roster);
    if AllHaveWord(ps) then
      var o := NextRound(rooms, clients, roomId);
      Outcome(o.rooms, o.clients, Broadcast(roster, SetWordsMap(WordsMap(ps))) + o.emits)
    else Outcome(rooms, clients, [])
  }

  /** `checkIfAllPlayersHaveRoundScore(roomId, roundId)`: when every roster
      player has a score for `roundId`, the next round starts; otherwise
      nothing happens. */
  ghost function ScoreCheck(rooms: map<RoomId, Room>, clients: map<ConnId, Player>, roomId: RoomId, roundId: RoundKey): Outcome
    requires roomId in rooms && RosterRegistered(clients, rooms[roomId].clientsInRoom)
  {
    var ps := PlayersIn(clients, rooms[roomId].clientsInRoom);
    if AllHaveRoundScore(ps, roundId) then NextRound(rooms, clients, roomId)
    else Outcome(rooms, clients, [])
  }

  /** Once every roster player has a score for `roundId`, a roster player
      sending a score for that round again passes the gate again: the next
      round starts once more (the next turn is granted early, or the game ends). */
  lemma ResentScoreRestarts(rooms: map<RoomId, Room>, clients: map<ConnId, Player>, roomId: RoomId,
                            client: ConnId, roundId: RoundKey, score: int)
    requires roomId in rooms && RosterRegistered(clients, rooms[roomId].clientsInRoom)
    requires client in clients
    requires AllHaveRoundScore(PlayersIn(clients, rooms[roomId].clientsInRoom), roundId)
    ensures var p := clients[client];
            var clients' := clients[client := p.(scores := p.scores[roundId := score])];
            RosterRegistered(clients', rooms[roomId].clientsInRoom)
            && ScoreCheck(rooms, clients', roomId, roundId) == NextRound(rooms, clients', roomId)
  {
    var roster := rooms[roomId].clientsInRoom;
    var p := clients[client];
    var clients' := clients[client := p.(scores := p.scores[roundId := score])];
    var ps, ps' := PlayersIn(clients, roster), PlayersIn(clients', roster);
    forall i | 0 <= i < |ps'| ensures roundId in ps'[i].scores {
      assert roundId in ps[i].scores;
    }
  }

  /** Once every roster player has a word, a roster player setting a word
      again passes the gate again: the words map is re-sent and the next
      round starts once more. */
  lemma ResentWordRestarts(rooms: map<RoomId, Room>, clients: map<ConnId, Player>, roomId: RoomId,
                           client: ConnId, word: string)
    requires roomId in rooms && RosterRegistered(clients, rooms[roomId].clientsInRoom)
    requires client in clients
    requires AllHaveWord(PlayersIn(clients, rooms[roomId].clientsInRoom))
    ensures var clients' := clients[client := clients[client].(hasWord := true, word := Some(word))];
            var roster := rooms[roomId].clientsInRoom;
            RosterRegistered(clients', roster)
            && WordCheck(rooms, clients', roomId).emits
               == Broadcast(roster, SetWordsMap(WordsMap(PlayersIn(clients', roster)))) + NextRound(rooms, clients', roomId).emits
  {
    var roster := rooms[roomId].clientsInRoom;
    var clients' := clients[client := clients[client].(hasWord := true, word := Some(word))];
    var ps, ps' := PlayersIn(clients, roster), PlayersIn(clients', roster);
    forall i | 0 <= i < |ps'| ensures ps'[i].hasWord {
      assert ps[i].hasWord;
    }
  }
}
