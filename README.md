# Dreidel counter: the game state service in Dafny

This project models the rules engine of the dreidel counter, an Angular app.
The engine is `GameStateService` (src/app/game-state.service.ts). It keeps
three things:

- `state`: the pot, the players, the current player and the winner;
- `prevState`: a one-step undo snapshot;
- `turnMessages`: the queue of turn messages.

Its operations are addPlayer, playTurn, undoLastTurn and clearGame, plus the
read accessors. The records come from src/app/game-state.ts. The project has
five modules, one per file:

- `GameStateTypes` (game_state.dfy) holds the records and the four dreidel
  letters. The `players` array is a heap object (`PlayerList`), because the
  service pushes to it, splices it and changes its scores in place. Shallow
  copies of the state record share it.
- `TurnOrder` (turn_order.dfy) models the filter, stable sort and find of
  nextTurn. It proves that the choice is the successor on the ring of turn
  numbers.
- `Rules` (rules.dfy) gives every step of the service as a function on
  values. A step takes the game it finds and returns the game it leaves
  and the messages it queues.
- `RuleProperties` (rule_properties.dfy) proves what the rules promise:
  - every turn conserves points;
  - turns keep the well-formed shape (unique non-empty names, unique
    positive turn numbers, nothing negative);
  - each letter has its effect;
  - a winner ends play;
  - the rotation passes the turn to the successor;
  - worked games play out as the scenarios state.
- `Service` (service.dfy) is the class `GameStateService`. Its fields are
  `state`, `prevState` and `turnMessages`, and its methods change them in
  place. Each method that plays part of a turn (the elimination check, the
  callback, the round, the rotation, the join, the letter and the turn) is
  proved against the `Rules` function for that step. SaveCurrentState,
  EndOfAction, UndoLastTurn and ClearGame state their new fields directly.

The model follows the code where it behaves in ways a reader might not
expect:

- **Elimination is lazy.** A player is removed only when an elimination
  check finds a score of 0 already. Shin on a player at 1 leaves that player
  in the list at 0. Only two checks can reach them later: their own shin,
  and an empty-pot round that visits them. An empty-pot round can pass them
  over (see the next point), and gimmel or hay on their own turn can lift
  them off 0 when the pot is not empty, so a player at 0 may stay in the
  game. A lone player at 1 who lands on shin stays at 0, and the rotation
  then finds nobody to pass to (`RuleProperties.LonePlayerShin`).
- **The empty-pot round skips a player after a removal.** The forEach
  callback splices the list it iterates. The player moved onto the current
  index is passed over and pays nothing (`RuleProperties.PotRoundSkipsAfterRemoval`).
  With a, b and c at 0, 0 and 3 and pot 0, the round leaves b at 0 and c
  at 2. In general the round drops only players at 0 and leaves every other
  player at their score or one point lower, and the pot grows by the number
  who paid (`RuleProperties.PotRoundOutcome`).
- **Undo is shallow.** The snapshot `{ ...state }` keeps the pot, the
  current player and the winner, but shares the players list. So undo after
  a turn brings back the old pot and current player with the new scores
  (`Service.UndoAfterGimmel`). clearGame gives the state a new list, so undo
  after clearGame restores everything (`Service.UndoAfterClear`).
- **Crashes.** Two places in the source dereference an undefined value:
  - playTurn when no player has the current name;
  - nextTurn when no other turn number exists.

  Both become the status `Faulted`. The state is left as it was at the
  throw: the snapshot is already taken, and the queued messages are not
  emitted.

Messages are modelled as values of `Rules.Event`, one per pushed message, in
push order. The batch that endOfAction emits is the `emitted` out-parameter.

## Model

| member | source | states |
|---|---|---|
| GameStateTypes.ParseLetter | src/app/game-state.ts:14 | exactly the four literals 'nun', 'gimmel', 'hay', 'shin' are letters, and each reads back to its own literal |
| GameStateTypes.LetterNameRoundTrip | src/app/game-state.ts:14 | the letters and their literals are in one-to-one correspondence |
| GameStateTypes.PlayerList.constructor | src/app/game-state.service.ts:9 | a new players array is empty |
| TurnOrder.Others | src/app/game-state.service.ts:154-156 | a player is kept exactly when its turn number differs from the current one |
| TurnOrder.Insert | src/app/game-state.service.ts:157 | inserting into a sorted list keeps it sorted and adds exactly that player |
| TurnOrder.SortByTurn | src/app/game-state.service.ts:154-157 | the result is sorted by turn number and is a permutation of the input |
| TurnOrder.FirstAbove | src/app/game-state.service.ts:160 | the result is a player above the current number, the smallest such when sorted, and None exactly when nobody is above |
| TurnOrder.NextUpIsSuccessor | src/app/game-state.service.ts:149-162 | the next player is another player of the list: the smallest turn number above the current, else the smallest overall; None exactly when every player has the current number |
| Rules.Find | src/app/game-state.service.ts:48-50 | `find` by name gives the first index with that name, and None exactly when no player has it |
| Rules.MaxTurnOrder | src/app/game-state.service.ts:36 | the largest turn number, and never below 0 |
| Rules.Names | src/app/game-state.service.ts:25-27 | the players' names in list order |
| Rules.CeilHalf | src/app/game-state.service.ts:92 | `Math.ceil(p / 2)`: p <= 2r <= p + 1 |
| Rules.LoseCheck | src/app/game-state.service.ts:164-183 | lost exactly when the named player's score is 0; otherwise nothing changes; a loss removes one player |
| Rules.PayIn | src/app/game-state.service.ts:140-145 | the callback removes one player exactly when it reports a loss; `RuleProperties.PayInSpec` states which player and what happens to the pot |
| Rules.AddPlayer | src/app/game-state.service.ts:29-42 | the join; specified by `RuleProperties.AddPlayerJoins` and `RuleProperties.AddPlayerKeepsWf` |
| Rules.ApplyLetter | src/app/game-state.service.ts:74-107 | the switch on the letter; specified by `RuleProperties.LetterEffects`, `RuleProperties.ApplyLetterConserves` and `RuleProperties.ApplyLetterKeepsWf` |
| Rules.PotEmptyCheck | src/app/game-state.service.ts:137-147 | checkIfPotEmpty; specified by `RuleProperties.PotRoundOutcome`, `RuleProperties.PotRoundConserves` and `RuleProperties.TwoPlayerPotEmptied` |
| Rules.PotRound | src/app/game-state.service.ts:140-145 | the forEach over the live list; specified by `RuleProperties.PotRoundOutcome`, `RuleProperties.PotRoundAllPay` and `RuleProperties.PotRoundSkipsAfterRemoval` |
| Rules.CurrentTurnNumber | src/app/game-state.service.ts:150-151 | the current player's turn number, 0 when nobody has the current name; used by `RuleProperties.RotateTo` (a current player present) and `RuleProperties.RotateAfterRemoval` (none) |
| TurnOrder.NextUp | src/app/game-state.service.ts:154-161 | the filter, sort and find of nextTurn; specified by `TurnOrder.NextUpIsSuccessor` |
| Rules.Rotate | src/app/game-state.service.ts:154-161 | the name nextTurn chooses; specified by `RuleProperties.RotateChoosesSuccessor` and `RuleProperties.RotateFaultsWithoutOthers` |
| Rules.FinishTurn | src/app/game-state.service.ts:108-113 | the end of playTurn; specified by `RuleProperties.FinishTurnRotates` (no winner), `RuleProperties.FinishTurnHalts` (a winner already set), `RuleProperties.FinishTurnWinner` and `RuleProperties.FinishTurnConserves` |
| Rules.PlayTurn | src/app/game-state.service.ts:66-116 | playTurn on values; specified by `RuleProperties.PlayTurnConserves`, `RuleProperties.PlayTurnWinner`, `RuleProperties.PlayTurnPassesTurn` and `RuleProperties.PlayTurnKeepsWf` |
| RuleProperties.LoseCheckSpec | src/app/game-state.service.ts:164-183 | the removal is a splice of that player, moves no point and reports the elimination first; if one player is left, that player wins and no one is current; otherwise winner and current are kept |
| RuleProperties.LetterEffects | src/app/game-state.service.ts:74-107 | nun changes nothing; gimmel gives the player the whole pot; hay gives the rounded-up half and leaves the rounded-down half; shin removes a player at 0 and otherwise moves one point from the player to the pot, keeping the player in place |
| RuleProperties.HayOnOddAndEvenPots | src/app/game-state.service.ts:88-97 | hay on a pot of 2k+1 pays k+1 and leaves k; on 2k pays k and leaves k |
| RuleProperties.ApplyLetterConserves | src/app/game-state.service.ts:74-107 | every letter keeps the sum of the scores and the pot |
| RuleProperties.PayInConserves | src/app/game-state.service.ts:140-145 | the callback keeps the sum of the scores and the pot |
| RuleProperties.PotRoundConserves | src/app/game-state.service.ts:137-147 | the empty-pot round keeps the sum of the scores and the pot |
| RuleProperties.PotRoundAllPay | src/app/game-state.service.ts:137-147 | when nobody in the round is at 0, everyone pays exactly one point, the pot grows by the number of payers, no one is removed and nothing is reported |
| RuleProperties.PotRoundPaysFrom | src/app/game-state.service.ts:137-147 | the same round as one equation: the game with everyone from the start index one point poorer and the pot that much richer, and no messages |
| RuleProperties.PayInSpec | src/app/game-state.service.ts:140-145 | with unique names, the callback on index i reports a loss exactly when that player's score is 0; a loss splices out that player and leaves the pot; otherwise that player pays one point into the pot and nothing is reported |
| RuleProperties.PotRoundOutcome | src/app/game-state.service.ts:137-147 | with unique names, the round leaves the players before its start index untouched and, from there on, in order: a player is missing only if their score was 0; each remaining player kept their score or lost exactly one point; the pot grew by exactly the number who lost a point |
| RuleProperties.ShrinksBounds | src/app/game-state.service.ts:140-145 | what such a round leaves has no more players than it started with, and no more paid than remain |
| RuleProperties.PayInPays | src/app/game-state.service.ts:140-145 | the callback on a player with a unique name and a non-zero score takes exactly one point from that player into the pot |
| RuleProperties.PotRoundSkipsAfterRemoval | src/app/game-state.service.ts:140-145 | with a player at 0 followed by two others, the first is removed and reported, the second is passed over and pays nothing, and only the third pays |
| RuleProperties.PotRoundWinner | src/app/game-state.service.ts:137-147 | a winner found in the round leaves exactly that one player and no one current |
| RuleProperties.ApplyLetterWinner | src/app/game-state.service.ts:98-106 | a letter sets a winner only with exactly one player left and no one current |
| RuleProperties.FinishTurnConserves | src/app/game-state.service.ts:108-113 | the empty-pot check and the rotation keep the sum of the scores and the pot |
| RuleProperties.PlayTurnConserves | src/app/game-state.service.ts:66-116 | every turn, completed, ignored or faulted, keeps the sum of the scores and the pot |
| RuleProperties.FinishTurnWinner | src/app/game-state.service.ts:108-113 | the rest of a turn ends with a winner only when completed, with one player left who is the winner and no one current |
| RuleProperties.PlayTurnWinner | src/app/game-state.service.ts:66-70 | a turn that produces a winner leaves one player, who is the winner, and no one current, and every later turn is ignored |
| RuleProperties.FinishTurnRotates | src/app/game-state.service.ts:108-113 | without a winner, the rest of the turn is the empty-pot check followed by the rotation's choice becoming current |
| RuleProperties.FinishTurnHalts | src/app/game-state.service.ts:108-113 | once the letter has set a winner, the rest of the turn leaves the game and the messages as they are: no empty-pot round, no rotation |
| RuleProperties.ShinWinnerKeepsPot | src/app/game-state.service.ts:98-113 | shin on a current player at 0 beside one other player with an empty pot: the first is removed, the other wins, and the empty pot takes nothing from the winner |
| RuleProperties.FinishTurnPassesTurn | src/app/game-state.service.ts:111-113 | a completed rest of turn without a winner leaves a current player who is in the list |
| RuleProperties.PlayTurnPassesTurn | src/app/game-state.service.ts:66-116 | a completed turn without a winner hands the turn to a player in the list |
| RuleProperties.RotateChoosesSuccessor | src/app/game-state.service.ts:149-162 | the rotation picks another player: the smallest turn number above the current player's, wrapping to the smallest overall; it fails exactly when every player holds the current number |
| RuleProperties.RotateAfterRemoval | src/app/game-state.service.ts:150-151 | when the current player is gone or nobody is current, the player with the lowest turn number goes next |
| RuleProperties.RotateFaultsWithoutOthers | src/app/game-state.service.ts:154-161 | in a well-formed game the rotation fails exactly when the list is empty or its only player is the current one |
| RuleProperties.RotateTo | src/app/game-state.service.ts:149-162 | from the player at i the turn goes to j when j is i's successor on the ring |
| RuleProperties.RotateBetweenTwo | src/app/game-state.service.ts:149-162 | with two players the turn goes to the other one |
| RuleProperties.RotateSkipsGaps | src/app/game-state.service.ts:158-160 | with turn numbers 1, 2 and 4, the turn goes from 2 to 4 and from 4 round to 1 |
| RuleProperties.RemoveKeepsOk | src/app/game-state.service.ts:168 | a splice keeps names and turn numbers unique and nothing negative |
| RuleProperties.SetScoreKeepsOk | src/app/game-state.service.ts:52-54 | setting a non-negative score keeps the players well formed |
| RuleProperties.LoseCheckKeepsWf | src/app/game-state.service.ts:164-183 | the elimination check keeps the game well formed |
| RuleProperties.ApplyLetterKeepsWf | src/app/game-state.service.ts:74-107 | no letter drives a score or the pot below 0 |
| RuleProperties.PayInKeepsWf | src/app/game-state.service.ts:140-145 | the callback keeps the game well formed |
| RuleProperties.PotRoundKeepsWf | src/app/game-state.service.ts:137-147 | the empty-pot round keeps the game well formed |
| RuleProperties.FinishTurnKeepsWf | src/app/game-state.service.ts:108-113 | the rest of the turn keeps the game well formed |
| RuleProperties.PlayTurnKeepsWf | src/app/game-state.service.ts:66-116 | every turn keeps the game well formed |
| RuleProperties.AddPlayerJoins | src/app/game-state.service.ts:29-42 | an empty or present name changes nothing; otherwise one player is appended with score 4 and a turn number above every other, and becomes current only if no one was |
| RuleProperties.AddPlayerKeepsWf | src/app/game-state.service.ts:29-42 | joining keeps the game well formed |
| RuleProperties.TwoPlayerGame | src/app/game-state.service.ts:66-116 | A and B join; A's gimmel leaves A 8, B 3, pot 2, B current; B's shin leaves B 2, pot 3, A current |
| RuleProperties.TwoPlayersJoin | src/app/game-state.service.ts:29-42 | two joins give both players score 4, turn numbers 1 and 2, pot 5, the first current |
| RuleProperties.TwoPlayerGimmel | src/app/game-state.service.ts:66-116 | the whole gimmel turn of that game, with its messages |
| RuleProperties.TwoPlayerRotations | src/app/game-state.service.ts:149-162 | with two players the turn alternates |
| RuleProperties.TwoPlayerGimmelLetter | src/app/game-state.service.ts:80-87 | gimmel on pot 5 gives A 9 and empties the pot |
| RuleProperties.TwoPlayerPotEmptied | src/app/game-state.service.ts:137-147 | the empty pot takes one point from each of A and B |
| RuleProperties.TwoPlayerShin | src/app/game-state.service.ts:98-116 | the whole shin turn of that game, with its message |
| RuleProperties.TwoPlayerShinLetter | src/app/game-state.service.ts:98-106 | shin takes one point from B into the pot |
| RuleProperties.LonePlayerShin | src/app/game-state.service.ts:98-113 | a lone player at 1 who lands on shin stays in the list at 0, the pot gains the point, and the turn faults |
| Service.GameStateService.constructor | src/app/game-state.service.ts:9-11 | a fresh service holds the empty game with pot 5, no snapshot and no messages |
| Service.GameStateService.GetWinner | src/app/game-state.service.ts:21-23 | the stored winner |
| Service.GameStateService.GetPlayerNames | src/app/game-state.service.ts:25-27 | the players' names in list order |
| Service.GameStateService.GetPotCount | src/app/game-state.service.ts:44-46 | the stored pot |
| Service.GameStateService.GetScore | src/app/game-state.service.ts:48-50 | the score of the first player with that name; None exactly when nobody has it |
| Service.GameStateService.GetCurrentTurn | src/app/game-state.service.ts:59-61 | the stored current name |
| Service.GameStateService.SetScore | src/app/game-state.service.ts:52-54 | only the first player with that name gets the new score, in the shared list |
| Service.GameStateService.SaveCurrentState | src/app/game-state.service.ts:189-191 | the snapshot is a copy of the state record that refers to the same players list |
| Service.GameStateService.EndOfAction | src/app/game-state.service.ts:196-204 | the queued messages are emitted as one batch and the queue is emptied |
| Service.GameStateService.DidPlayerLose | src/app/game-state.service.ts:164-183 | the in-place elimination check does what `Rules.LoseCheck` states |
| Service.GameStateService.PayIn | src/app/game-state.service.ts:140-145 | the in-place callback does what `Rules.PayIn` states |
| Service.GameStateService.PayRound | src/app/game-state.service.ts:140-145 | the index loop over the live list does the round `Rules.PotRound` states, skip included |
| Service.GameStateService.CheckIfPotEmpty | src/app/game-state.service.ts:137-147 | only an empty pot starts the round, after its message |
| Service.GameStateService.NextTurn | src/app/game-state.service.ts:149-162 | the current name becomes the rotation's choice, and fails exactly when there is none |
| Service.GameStateService.AddPlayer | src/app/game-state.service.ts:29-42 | the join `RuleProperties.AddPlayerJoins` describes, in place; the queue is emitted only when a player joined |
| Service.GameStateService.PlayLetter | src/app/game-state.service.ts:74-107 | the switch applies the letter as `RuleProperties.LetterEffects` describes |
| Service.GameStateService.FinishTurn | src/app/game-state.service.ts:108-113 | the empty-pot check and the rotation, each only while there is no winner, as `Rules.FinishTurn` gives them; with a winner already set nothing changes (`RuleProperties.FinishTurnHalts`) |
| Service.GameStateService.TakeTurn | src/app/game-state.service.ts:72-113 | after the snapshot: a fault when no player has the current name, otherwise the letter and the rest of the turn, as `Rules.PlayTurn` gives them, with the messages still queued |
| Service.GameStateService.PlayTurn | src/app/game-state.service.ts:66-116 | a turn is ignored with a winner and otherwise snapshots first. It ends completed (messages emitted) or faulted (messages kept), in the state and status `Rules.PlayTurn` gives, and keeps the game well formed |
| Service.GameStateService.UndoLastTurn | src/app/game-state.service.ts:121-126 | the state and the snapshot change places, so a second undo returns to where the first started |
| Service.GameStateService.ClearGame | src/app/game-state.service.ts:131-135 | the snapshot takes the old state and the state becomes the empty game with a list of its own |
| Service.UndoAfterGimmel | src/app/game-state.service.ts:121-126 | undo after a gimmel turn restores the pot and the current player but keeps the new scores; a second undo returns to the game after the turn |
| Service.UndoAfterClear | src/app/game-state.service.ts:131-135 | undo after clearGame restores the whole game, scores included |

## Left out

- Persistence is not modelled: the constructor's restore from localStorage,
  the save in endOfAction and the removal in clearGame. A restored state is
  some state the model does not describe.
- The Action$ EventEmitter is replaced by the `emitted` out-parameter. The
  message text (the templates and the newline join) is replaced by
  `Rules.Event` values.
- Service.GameStateService.UndoLastTurn: requires a snapshot. Without one,
  the source spreads `undefined` into an empty object, and later operations
  crash.
- Service.GameStateService.AddPlayer: names are strings. The model does not
  cover the `null` and `undefined` names that `!name` also rejects.
- Numbers are unbounded integers. JavaScript numbers are doubles, but every
  value here stays a small integer, so rounding, NaN and overflow are not
  modelled.
- The switch's fall-through for a string outside the four letters is not
  modelled: the letter type admits only those four.
- An absent `winner` and a `null` `nextTurn` are both `None`. The source
  tests `winner` for truthiness (lines 67, 108, 111) and `nextTurn` for
  truthiness in addPlayer (line 38). getScore, playTurn and nextTurn
  compare `nextTurn` with player names by `===` (lines 49, 72-73, 150). No
  player name is `null`, so such a comparison fails exactly as a lookup of
  `None` does in the model.
- src/app/game/game.component.ts (player entry and the letter buttons) and
  server.js (the static file server) are not part of this model.
