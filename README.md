# Group word-game server, modelled in Dafny

This project models the room and game-session state machine of a small
socket.io server for a turn-based word-guessing game that runs on top of a
chat room. The server keeps two dictionaries:
- `rooms`: room id to room. A room has an id, an ordered roster `clientsInRoom` of connections, and a chat transcript `chatRoomData`.
- `connectedClients`: connection id to player record. A record has `id`, `username`, `hasWord`, `word`, `scores` (round to score) and `turnTaken`.

Each inbound event is handled in one uninterrupted step. Every `emit` is
modelled as an append of `(recipient, event)` to an `outbox` sequence.

Modules:
- `Values` (`values.dfy`): the data model, and `Broadcast`, the emits of `roster.forEach(c => c.emit(e))`. It also holds the players list, the roster filter, and `ToObject`, the dictionary that a run of `obj[k] = v` assignments builds when no key is an `Object.prototype` property name (see "## Left out").
- `Scoring` (`scoring.dfy`): a player's score total, which is the sum of the values of the scores map. It also holds the game-over tally loop and the win rule: `maxScore` starts at 0 and takes every total that is `>=` it, so a tie goes to the last roster player with the top total.
- `Turns` (`turns.dfy`): the `every` and `find` queries over a room's players, the words map, and the specification functions of the two checks and of round advancement (`WordCheck`, `ScoreCheck`, `NextRound`).
- `GameServer` (`server.dfy`): the class `Server`, with the two registries and the outbox as fields. It has one method per inbound event and one per helper of the source.

Each state-changing method states its whole new state. For the checks and
for round advancement, the new state is given by the specification functions
in `Turns`. The lemmas in `Turns` and `Scoring` state what those functions
promise:
- turns are granted in roster order;
- `GameOver` happens exactly when every roster player has had a turn;
- the payload of `GameOver` follows the win rule.

The class invariant `Valid()` says that every room is stored under its own id.

`AllRegistered()` says that every roster entry has a player record. It is kept by every handler except one. `disconnecting` keeps it only when the leaving connection is on no other room's roster. The source never checks that. A client that entered two rooms, or that names the wrong room when it disconnects, leaves a dangling roster entry behind.

Where the code departs from the natural reading of the game rules, the model follows the code:
- Room rosters are not deduplicated. Entering a room twice puts the connection on its roster twice.
- A connection can be on the rosters of several rooms.
- A handler run by a connection without a player record is not treated like a missing room. The source dereferences the missing record. Here that is a precondition.
- Creating an existing room silently replaces it.
- Re-sending a word, or a score for a round every player has already scored, passes the check again and re-runs the round advancement (server.js:141, 155). This grants the next turn early, or ends the game (`Turns.ResentWordRestarts`, `Turns.ResentScoreRestarts`).

## Model

| member | source | states |
|---|---|---|
| `GameServer.Server.SendMessage` | server.js:36-45 | unknown room: only `RoomNotAvailable` to the sender; otherwise the transcript becomes the old one plus the message at the end, and every roster member in roster order gets `RetrieveChatRoomData` with that whole transcript; nothing else changes |
| `GameServer.Server.CreateRoom` | server.js:48-51 | `rooms[roomId]` becomes a fresh room with that id, an empty roster and an empty transcript, replacing any room under that id; other rooms, players and outbox unchanged |
| `GameServer.Server.UserEnteredRoom` | server.js:54-74 | unknown room: only a kick; otherwise appends the "has entered" message, registers the sender's record, appends the sender at the end of the roster (earlier entries unchanged, no deduplication), then sends the transcript and the players list to every member |
| `GameServer.Server.Disconnecting` | server.js:77-104 | unknown room: only a kick; unregistered sender: no change; otherwise every roster occurrence of the sender is removed, a leave message with `userID` 0 is appended, the sender is unregistered, and the room is torn down (`RoomDestroyed` to the remaining members, room deleted) exactly when the room id equals the player's id, else transcript and players list are sent |
| `GameServer.Server.ClearChat` | server.js:107-116 | unknown room: only a kick; otherwise the transcript becomes empty and every member is sent the empty transcript |
| `GameServer.Server.HostStartGame` | server.js:119-127 | unknown room: only a kick; otherwise `StartGame` to every member and no state change |
| `GameServer.Server.SetWord` | server.js:130-142 | unknown room: only a kick; otherwise the sender's record gets `hasWord` and the word, and the new state is the words check on that |
| `GameServer.Server.SetRoundScore` | server.js:144-156 | unknown room: only a kick; otherwise the sender's `scores[roundId]` is set, and the new state is the round-score check on that |
| `GameServer.Server.SendUpdatedChatRoomData` | server.js:163-168 | one `RetrieveChatRoomData` with the room's whole transcript per roster entry, in roster order |
| `GameServer.Server.SendUpdatedPlayersList` | server.js:171-181 | every member gets the list of the roster's records in roster order, absent where a connection has no record |
| `GameServer.Server.TearDownRoom` | server.js:183-191 | `RoomDestroyed` to every member of the room, then the room is deleted; players unchanged |
| `GameServer.Server.Kick` | server.js:193-196 | exactly one `RoomNotAvailable` to the given connection |
| `GameServer.Server.SendStartGame` | server.js:198-203 | `StartGame` to every member, in roster order |
| `GameServer.Server.CheckIfAllPlayersHaveSetWord` | server.js:205-219 | new state is `WordCheck`: if every roster player has a word, `SetWordsMap` goes to every member before the next round starts; otherwise nothing changes |
| `GameServer.Server.CheckIfAllPlayersHaveRoundScore` | server.js:221-231 | new state is `ScoreCheck`: the next round starts only if every roster player has a score for `roundId`; otherwise nothing changes |
| `GameServer.Server.StartNextRound` | server.js:233-265 | new state is `NextRound`: game over when every roster player has had a turn, else the first roster player without one gets it |
| `GameServer.Server.EndGame` | server.js:238-254 | `GameOver` with the tally to every member, then teardown |
| `GameServer.Server.GrantTurn` | server.js:256-262 | sets `turnTaken` on the chosen roster player's record only, and sends `StartRound` with that player's word and id to every member |
| `GameServer.Server.EmitAll` | server.js:164-167 | appends to the outbox exactly one emit per roster entry, in roster order |
| `GameServer.EnteredMessage` | server.js:61-66 | the "has entered the waiting room" chat event: the sender's username, `userID` the sender's player id, time stamp the clock reading `now` |
| `GameServer.LeftMessage` | server.js:87-92 | the "has left the chat" chat event: the leaving player's username in the text, empty `username`, `userID` 0, no time stamp |
| `GameServer.LeaveKeepsRegistered` | server.js:86-103 | a client on no other roster can leave a room and be unregistered without leaving any roster entry unregistered |
| `Values.Broadcast` | server.js:164-167 | one emit per roster entry, the i-th to the i-th roster entry, all carrying the same event |
| `Values.PlayersList` | server.js:172-175 | one entry per roster entry; present exactly when that connection is registered, and then its record |
| `Values.Without` | server.js:93 | the filtered roster holds every other connection as often as before and the leaving one not at all; unchanged when the leaving one is absent |
| `Values.WithoutAppend` | server.js:93 | the filter works element by element: filtering a concatenation concatenates the filtered parts, so order is kept |
| `Values.WithoutRegistered` | server.js:93-102 | removing the leaving connection from a registered roster keeps it registered after that connection's record is deleted |
| `Values.ToObject` | server.js:210-213 | the keys of the object built are exactly the assigned keys |
| `Values.ToObjectLastWins` | server.js:244 | under a key the object holds the value of the last assignment to it |
| `Scoring.Sum` | server.js:242 | the sum of a scores map's values; that it is independent of the order of summation is `Scoring.SumRemove` |
| `Scoring.Total` | server.js:242 | a player's `totalScore`, the sum of the player's round scores |
| `Scoring.SumRemove` | server.js:242 | the score total does not depend on the order in which rounds are added up |
| `Scoring.SumAdd` | server.js:151 | recording a score for a new round adds it to the total |
| `Scoring.TotalScore` | server.js:242 | the `reduce` over the scores' values returns their sum |
| `Scoring.MaxScore` | server.js:239-248 | `maxScore` after the tally loop: starts at 0 and takes each total `>=` it; characterised by `Scoring.MaxScoreIsMaximum` |
| `Scoring.Winner` | server.js:240-248 | `winningUsername` after the tally loop: the username of each player whose total is `>=` the running maximum, else `''`; characterised by `Scoring.WinnerIsLastTop` and `Scoring.NoTopNoWinner` |
| `Scoring.ScoreTable` | server.js:238-244 | `allScores`, the object built from the score entries; characterised by `Scoring.ScoreTableLastWins` |
| `Scoring.ScoreEntries` | server.js:241-244 | one `allScores` assignment per roster player, in roster order, username to total |
| `Scoring.MaxScoreIsMaximum` | server.js:239-248 | `maxScore` is at least 0 and at least every total, and it is 0 or some player's total |
| `Scoring.WinnerIsLastTop` | server.js:240-248 | the winner is the last roster player whose total equals `maxScore` |
| `Scoring.NoTopNoWinner` | server.js:240-248 | when no total equals `maxScore` (all negative, or empty roster) the winner is `''` |
| `Scoring.TieGoesToLater` | server.js:245-248 | totals 10, 10, 5 in roster order give `maxScore` 10 and the second player as winner |
| `Scoring.ScoreTableLastWins` | server.js:238-244 | `allScores` has exactly the roster's usernames as keys, each mapped to the total of the last roster player with that username |
| `Scoring.Tally` | server.js:238-249 | the game-over loop builds `allScores`, `maxScore` and `winningUsername` as the win rule says; `maxScore` bounds every total |
| `Turns.AllHaveWord` | server.js:207-209 | every roster player has `hasWord` set |
| `Turns.AllHaveRoundScore` | server.js:223-225 | every roster player has a score under `roundId` |
| `Turns.AllTurnsTaken` | server.js:235-237 | every roster player has `turnTaken` set |
| `Turns.FirstWithoutTurn` | server.js:256-258 | none exactly when every player has had a turn; otherwise the index of a player without a turn, all earlier players having had theirs |
| `Turns.TurnsAdvance` | server.js:256-259 | once the chosen player's turn is taken and no taken turn is undone, the next turn goes to a strictly later roster position or nobody |
| `Turns.WordEntries` | server.js:211-213 | one `wordsMap` assignment per roster player, in roster order, player id to word |
| `Turns.WordsMapMeaning` | server.js:210-213 | the words map has exactly the roster's player ids as keys, each mapped to the word of the last roster player with that id |
| `Turns.WordsMap` | server.js:210-213 | `wordsMap`, the object built from the word entries; characterised by `Turns.WordsMapMeaning` |
| `Turns.CollectWords` | server.js:210-213 | the loop returns that words map |
| `Turns.WordCheck` | server.js:205-219 | when every roster player has a word, `SetWordsMap` with the words map to every member, followed by the next round; otherwise no change and no emit |
| `Turns.ScoreCheck` | server.js:221-231 | when every roster player has a score for `roundId`, the next round; otherwise no change and no emit |
| `Turns.GameOverStep` | server.js:237-254 | `GameOver` with `allScores`, `maxScore` and `winningUsername` to every member, then `RoomDestroyed` to every member, and the room is deleted; players unchanged |
| `Turns.TurnStep` | server.js:255-262 | the chosen roster player's record gets `turnTaken`, and every member gets `StartRound` with that player's word and id; rooms unchanged |
| `Turns.NextRound` | server.js:233-265 | game over when every roster player has had a turn, else the turn of the first roster player without one; its meaning is proved in `Turns.GameOverIffAllTurnsTaken`, `Turns.NextRoundGrantsFirstTurn` and `Turns.NextRoundAdvances` |
| `Turns.GameOverIffAllTurnsTaken` | server.js:235-254 | the room is removed exactly when every roster player has had a turn (vacuously so for an empty roster); then the players are unchanged, and a `GameOver` is sent exactly when the roster is non-empty |
| `Turns.GameOverPayload` | server.js:238-254 | at game over every member gets `GameOver` naming the last roster player with the top total, then `RoomDestroyed` |
| `Turns.NextRoundGrantsFirstTurn` | server.js:255-262 | when some player has not had a turn, exactly the first such player in roster order gets `turnTaken`, no other record changes, rooms are unchanged, and every member gets `StartRound` with that player's word and id |
| `Turns.NextRoundAdvances` | server.js:255-262 | after a granted turn the room and roster remain, and the next turn goes to a later roster position: turns follow roster order, at most once each |
| `Turns.ResentWordRestarts` | server.js:136-141 | once every roster player has a word, a roster player setting a word again passes the gate again: the words map is re-sent and the next round starts once more |
| `Turns.ResentScoreRestarts` | server.js:150-155 | once every roster player has a score for a round, a roster player re-sending a score for it passes the gate again and the next round starts once more |

## Left out

- The Express app, HTTP listening, body parsing and CORS headers (server.js:1-24) are serving, not logic.
- The socket.io wiring and the connection callback (server.js:26, 31-33) are left out. The sending connection is a parameter of every handler, and `emit` is an append to `outbox`. Actual delivery is not modelled, including best-effort delivery to a socket that is going away.
- All `console.log` output is left out.
- `new Date()` in the "has entered" message is left out. The clock reading is a parameter `now` of `UserEnteredRoom`.
- The unused `uuid` and `unique-names-generator` imports are left out.
- Connection, room, player and round ids are all strings. `room.id === player.id` becomes string equality, so a numeric player id that would never be `===` to a string room id is not distinguished.
- Round keys are modelled already in the string form a JavaScript object key takes.
- `rooms`, `scores`, `allScores` and `wordsMap` are plain JavaScript objects used as dictionaries. They are modelled as Dafny maps, which assumes no room id, round key, player id or username is an `Object.prototype` property name (`constructor`, `toString`, `__proto__` and the like). For such names the source differs from the model in three ways:
  - `roundId in scores` (server.js:224) is true by inheritance for a player with no score for that round, so the round-score check can start the next round where the model's `AllHaveRoundScore` does not hold.
  - `rooms[roomId]` (server.js:37, 56, 78, 108, 121, 131, 145) finds an inherited function for such a room id, so the handler does not kick. It fails at the first use of a room field, and `SetWord`, `SetRoundScore` and `ClearChat` have already changed state by then. The model kicks.
  - An assignment to `obj["__proto__"]` (server.js:151, 212, 244) creates no key, so no score, word or total is recorded under it. The model's maps do hold that key.
- The `UserEnteredRoom` payload is a complete player record, stored as sent. A client record missing `scores` would make the source fail later. That case is not modelled.
- Scores are unbounded integers. JavaScript number semantics, and `+` on a score that is not a number, are not modelled.
- The roster filter in `disconnecting` compares records by object identity. It is modelled as a filter by connection id. The two agree because every connection gets its own record object.
- The source dereferences a missing player record in several places. These are preconditions, and no recovery is invented:
  - `SetWord`: when the room exists, requires that the sender is registered and that every roster entry is registered.
  - `SetRoundScore`: the same.
- GameServer.Server.SetWord: the source's `every` and `find` stop at the first entry that decides them, so a roster entry after that point may be unregistered without a failure. The model requires the whole roster to be registered.
- GameServer.Server.SetRoundScore: requires the whole roster registered, for the same reason.
- GameServer.Server.CheckIfAllPlayersHaveSetWord: requires the whole roster registered, for the same reason.
- GameServer.Server.CheckIfAllPlayersHaveRoundScore: requires the whole roster registered, for the same reason.
- GameServer.Server.StartNextRound: requires the whole roster registered, for the same reason.
- A word never set is `None` in the words map (`undefined` in the source). The transport's serialization of such values, and of absent players-list entries, is not modelled.
