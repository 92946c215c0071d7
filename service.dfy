/** The game state service: the current state, the one-step undo snapshot and
    the queued turn messages, changed in place by its operations. Each
    operation that plays part of a turn is proved against the function of
    Rules that specifies it; SaveCurrentState, EndOfAction, UndoLastTurn and
    ClearGame state their new fields directly.

    The snapshot is a shallow copy: a new record whose `players` field is the
    same list object as the state's. The list and its scores are therefore
    shared between `state` and `prevState` until clearGame gives the state a
    list of its own. */
module Service {
  import opened GameStateTypes
  import TurnOrder
  import Rules
  import RuleProperties

  /** The value of a stored state, with the players read out of its list. */
  function ViewOf(s: GameState): Rules.Game
    reads s.players
  {
    Rules.Game(s.potCount, s.players.items, s.nextTurn, s.winner)
  }

  /** Sequence facts the message queue's proofs use. */
  lemma AppendAssoc<T>(a: seq<T>, b: seq<T>, c: seq<T>)
    ensures (a + b) + c == a + (b + c)
  {
  }

  lemma AppendNil<T>(a: seq<T>)
    ensures a + [] == a
  {
  }

  class GameStateService {
    var state: GameState
    var prevState: Option<GameState>
    var turnMessages: seq<Rules.Event>

    /** The player lists the state and the snapshot refer to (one list while
        the snapshot is a shallow copy of the state). */
    ghost function Lists(): set<object>
      reads this
    {
      {state.players} + (if prevState.Some? then {prevState.value.players} else {})
    }

    /** Both the state and the snapshot are well-formed games. */
    ghost predicate Valid()
      reads this, Lists()
    {
      RuleProperties.Wf(ViewOf(state)) &&
      (prevState.Some? ==> RuleProperties.Wf(ViewOf(prevState.value)))
    }

    /** The current state as a value. */
    function View(): Rules.Game
      reads this, state.players
    {
      ViewOf(state)
    }

    /** A fresh service holds the empty game and no snapshot. */
    constructor ()
      ensures Valid() && fresh(state.players)
      ensures View() == Rules.Initial() && prevState.None? && turnMessages == []
    {
      var ps := new PlayerList();
      state := GameState(Rules.StartingPot, ps, None, None);
      prevState := None;
      turnMessages := [];
    }

    // ----- Read accessors -----

    function GetWinner(): (w: Option<string>)
      reads this
      ensures w == state.winner
    {
      state.winner
    }

    function GetPlayerNames(): (names: seq<string>)
      reads this, state.players
      ensures |names| == |state.players.items|
      ensures forall k :: 0 <= k < |names| ==> names[k] == state.players.items[k].name
    {
      Rules.Names(state.players.items)
    }

    function GetPotCount(): (n: int)
      reads this
      ensures n == state.potCount
    {
      state.potCount
    }

    /** The score of the first player with that name; None where the source
        dereferences an undefined player. */
    function GetScore(playerName: string): (r: Option<int>)
      reads this, state.players
      ensures r.None? <==>
        forall k :: 0 <= k < |state.players.items| ==> state.players.items[k].name != playerName
      ensures r.Some? ==>
        exists k :: 0 <= k < |state.players.items| && state.players.items[k].name == playerName &&
          state.players.items[k].score == r.value &&
          forall j :: 0 <= j < k ==> state.players.items[j].name != playerName
    {
      match Rules.Find(state.players.items, playerName)
      case None => None
      case Some(i) => Some(state.players.items[i].score)
    }

    function GetCurrentTurn(): (n: Option<string>)
      reads this
      ensures n == state.nextTurn
    {
      state.nextTurn
    }

    // ----- Private steps -----

    /** Sets the score of the first player with that name, in the shared list. */
    method SetScore(playerName: string, score: int)
      requires Rules.Find(state.players.items, playerName).Some?
      modifies state.players
      ensures var i := Rules.Find(old(state.players.items), playerName).value;
        state.players.items == Rules.SetScoreAt(old(state.players.items), i, score)
    {
      var i := Rules.Find(state.players.items, playerName).value;
      state.players.items := state.players.items[i := state.players.items[i].(score := score)];
    }

    /** The snapshot becomes a shallow copy of the state: the same fields,
        the same list object. */
    method SaveCurrentState()
      modifies this
      ensures prevState == Some(old(state)) && state == old(state)
      ensures turnMessages == old(turnMessages)
    {
      prevState := Some(state);
    }

    /** Emits the queued messages as one batch (the persistence write is not
        modelled) and empties the queue. */
    method EndOfAction() returns (emitted: seq<Rules.Event>)
      modifies this
      ensures emitted == old(turnMessages) && turnMessages == []
      ensures state == old(state) && prevState == old(prevState)
    {
      emitted := [];
      if |turnMessages| > 0 {
        emitted := turnMessages;
        turnMessages := [];
      }
    }

    /** The elimination check on the first player with that name. */
    method DidPlayerLose(playerName: string) returns (lost: bool)
      requires Rules.Find(state.players.items, playerName).Some?
      modifies this, state.players
      ensures state.players == old(state.players) && prevState == old(prevState)
      ensures var c := Rules.LoseCheck(old(View()), playerName);
        lost == c.lost && View() == c.game && turnMessages == old(turnMessages) + c.log
    {
      var playerIndex := Rules.Find(state.players.items, playerName).value;
      if state.players.items[playerIndex].score == 0 {
        state.players.items := state.players.items[..playerIndex] + state.players.items[playerIndex + 1..];
        turnMessages := turnMessages + [Rules.Eliminated(playerName)];
        if |state.players.items| == 1 {
          state := state.(winner := Some(state.players.items[0].name), nextTurn := None);
          turnMessages := turnMessages + [Rules.Won(state.players.items[0].name)];
        }
        lost := true;
      } else {
        lost := false;
      }
    }

    /** The forEach callback of checkIfPotEmpty for the player at index `i`:
        the elimination check by name, and otherwise one point from that
        player into the pot. */
    method PayIn(i: nat) returns (lost: bool)
      requires i < |state.players.items|
      modifies this, state.players
      ensures state.players == old(state.players) && prevState == old(prevState)
      ensures var c := Rules.PayIn(old(View()), i);
        lost == c.lost && View() == c.game && turnMessages == old(turnMessages) + c.log
    {
      var p := state.players.items[i];
      assert Rules.Find(state.players.items, p.name).Some?;
      lost := DidPlayerLose(p.name);
      if !lost {
        state.players.items := state.players.items[i := p.(score := p.score - 1)];
        state := state.(potCount := state.potCount + 1);
      }
    }

    /** The forEach of checkIfPotEmpty: an index loop over the live list, so
        that after a removal the player moved onto the current index is
        passed over. */
    method PayRound()
      modifies this, state.players
      ensures state.players == old(state.players) && prevState == old(prevState)
      ensures View() == Rules.PotRound(old(View()), 0).game
      ensures turnMessages == old(turnMessages) + Rules.PotRound(old(View()), 0).log
    {
      ghost var round := Rules.PotRound(View(), 0);
      ghost var done: seq<Rules.Event> := [];
      var i := 0;
      while i < |state.players.items|
        invariant state.players == old(state.players) && prevState == old(prevState)
        invariant turnMessages == old(turnMessages) + done
        invariant Rules.PotRound(View(), i).game == round.game
        invariant done + Rules.PotRound(View(), i).log == round.log
        decreases |state.players.items| - i
      {
        ghost var before := View();
        var _ := PayIn(i);
        RuleProperties.PotRoundStep(before, i, done, round);
        AppendAssoc(old(turnMessages), done, Rules.PayIn(before, i).log);
        done := done + Rules.PayIn(before, i).log;
        i := i + 1;
      }
      RuleProperties.PotRoundEnd(View(), i);
      AppendNil(done);
    }

    /** When the pot is empty, everyone puts in one point. */
    method CheckIfPotEmpty()
      modifies this, state.players
      ensures state.players == old(state.players) && prevState == old(prevState)
      ensures View() == Rules.PotEmptyCheck(old(View())).game
      ensures turnMessages == old(turnMessages) + Rules.PotEmptyCheck(old(View())).log
    {
      if GetPotCount() == 0 {
        turnMessages := turnMessages + [Rules.PotEmptied];
        PayRound();
      }
    }

    /** Passes the turn to the next player on the ring of turn numbers. False
        where the source dereferences an undefined player: nobody else holds a
        different turn number. */
    method NextTurn() returns (ok: bool)
      modifies this
      ensures ok == Rules.Rotate(old(View())).Some?
      ensures state == if ok then old(state).(nextTurn := Rules.Rotate(old(View()))) else old(state)
      ensures prevState == old(prevState) && turnMessages == old(turnMessages)
    {
      var currentTurnNum := Rules.CurrentTurnNumber(View());
      var nextUp := TurnOrder.NextUp(state.players.items, currentTurnNum);
      if nextUp.None? {
        return false;
      }
      state := state.(nextTurn := Some(nextUp.value.name));
      ok := true;
    }

    // ----- Operations -----

    /** Joins a player: nothing happens for an empty or present name. */
    method AddPlayer(name: string) returns (emitted: seq<Rules.Event>)
      requires Valid()
      modifies this, state.players
      ensures Valid()
      ensures state.players == old(state.players) && prevState == old(prevState)
      ensures View() == Rules.AddPlayer(old(View()), name)
      ensures if name == "" || Rules.Find(old(View()).players, name).Some?
              then emitted == [] && turnMessages == old(turnMessages)
              else emitted == old(turnMessages) && turnMessages == []
    {
      RuleProperties.AddPlayerKeepsWf(View(), name);
      if name == "" || Rules.Find(state.players.items, name).Some? {
        return [];
      }
      var maxTurnOrder := Rules.MaxTurnOrder(state.players.items);
      state.players.items := state.players.items + [Player(name, Rules.StartingScore, maxTurnOrder + 1)];
      if !Rules.Truthy(state.nextTurn) {
        state := state.(nextTurn := Some(name));
      }
      emitted := EndOfAction();
    }

    /** The switch of playTurn: the letter's effect on the named player,
        whose score before the turn is `prevScore`, and on the pot. */
    method PlayLetter(name: string, prevScore: int, action: DreidelLetter)
      requires Rules.Find(state.players.items, name).Some?
      requires prevScore == state.players.items[Rules.Find(state.players.items, name).value].score
      modifies this, state.players
      ensures state.players == old(state.players) && prevState == old(prevState)
      ensures View() == Rules.ApplyLetter(old(View()), name, action).game
      ensures turnMessages == old(turnMessages) + Rules.ApplyLetter(old(View()), name, action).log
    {
      match action {
      case Nun =>
        turnMessages := turnMessages + [Rules.Landed(name, Nun, 0)];
      case Gimmel =>
        var potCount := GetPotCount();
        SetScore(name, prevScore + potCount);
        state := state.(potCount := 0);
        turnMessages := turnMessages + [Rules.Landed(name, Gimmel, potCount)];
      case Hay =>
        var potCount := GetPotCount();
        var biggerHalf := Rules.CeilHalf(potCount);
        SetScore(name, prevScore + biggerHalf);
        state := state.(potCount := potCount - biggerHalf);
        turnMessages := turnMessages + [Rules.Landed(name, Hay, biggerHalf)];
      case Shin =>
        var lost := DidPlayerLose(name);
        if !lost {
          SetScore(name, prevScore - 1);
          state := state.(potCount := state.potCount + 1);
          turnMessages := turnMessages + [Rules.Landed(name, Shin, 1)];
        }
      }
    }

    /** The rest of playTurn once the letter is applied: the empty-pot check
        and then the rotation, each only while there is no winner. False where
        the rotation faults. */
    method FinishTurn() returns (ok: bool)
      modifies this, state.players
      ensures state.players == old(state.players) && prevState == old(prevState)
      ensures var t := Rules.FinishTurn(Rules.Step(old(View()), []));
        ok == (t.status == Rules.Completed) && View() == t.game && turnMessages == old(turnMessages) + t.log
    {
      if !Rules.Truthy(state.winner) {
        CheckIfPotEmpty();
      }
      ok := true;
      if !Rules.Truthy(state.winner) {
        ok := NextTurn();
      }
    }

    /** playTurn once the snapshot is taken: the current player's letter, then
        the rest of the turn. The messages stay queued. */
    method TakeTurn(action: DreidelLetter) returns (status: Rules.Status)
      requires !Rules.Truthy(state.winner)
      modifies this, state.players
      ensures state.players == old(state.players) && prevState == old(prevState)
      ensures var t := Rules.PlayTurn(old(View()), action);
        status == t.status && View() == t.game && turnMessages == old(turnMessages) + t.log
    {
      var playerName := GetCurrentTurn();
      if playerName.None? || GetScore(playerName.value).None? {
        return Rules.Faulted;
      }
      var name := playerName.value;
      var prevScore := GetScore(name).value;
      ghost var a := Rules.ApplyLetter(View(), name, action);
      PlayLetter(name, prevScore, action);
      RuleProperties.FinishTurnSplit(a);
      ghost var t := Rules.FinishTurn(Rules.Step(a.game, []));
      var ok := FinishTurn();
      AppendAssoc(old(turnMessages), a.log, t.log);
      status := if ok then Rules.Completed else Rules.Faulted;
    }

    /** Plays a turn for the current player with the given letter. The
        snapshot taken first shares the players' list, so it keeps the old pot,
        current player and winner but sees the new scores. */
    method PlayTurn(action: DreidelLetter) returns (status: Rules.Status, emitted: seq<Rules.Event>)
      requires Valid()
      modifies this, state.players
      ensures Valid()
      ensures state.players == old(state.players)
      ensures status == Rules.PlayTurn(old(View()), action).status
      ensures View() == Rules.PlayTurn(old(View()), action).game
      ensures status == Rules.Ignored ==>
        prevState == old(prevState) && turnMessages == old(turnMessages) && emitted == []
      ensures status != Rules.Ignored ==> prevState == Some(old(state))
      ensures status == Rules.Completed ==>
        emitted == old(turnMessages) + Rules.PlayTurn(old(View()), action).log && turnMessages == []
      ensures status == Rules.Faulted ==>
        turnMessages == old(turnMessages) + Rules.PlayTurn(old(View()), action).log && emitted == []
    {
      RuleProperties.PlayTurnKeepsWf(View(), action);
      if Rules.Truthy(state.winner) {
        return Rules.Ignored, [];
      }
      SaveCurrentState();
      status := TakeTurn(action);
      emitted := [];
      if status == Rules.Completed {
        emitted := EndOfAction();
      }
    }

    /** Exchanges the state and the snapshot, each as a shallow copy, so a
        second undo returns to where the first started. */
    method UndoLastTurn() returns (emitted: seq<Rules.Event>)
      requires Valid() && prevState.Some?
      modifies this
      ensures Valid()
      ensures state == old(prevState).value && prevState == Some(old(state))
      ensures emitted == old(turnMessages) && turnMessages == []
    {
      var currentState := state;
      state := prevState.value;
      prevState := Some(currentState);
      emitted := EndOfAction();
    }

    /** Takes the snapshot, then starts an empty game with a list of its own.
        The persisted copy is not modelled, and no messages are emitted. */
    method ClearGame()
      requires Valid()
      modifies this
      ensures Valid() && fresh(state.players)
      ensures View() == Rules.Initial() && prevState == Some(old(state))
      ensures turnMessages == old(turnMessages)
    {
      SaveCurrentState();
      var ps := new PlayerList();
      state := GameState(Rules.StartingPot, ps, None, None);
    }
  }

  /** Two players join and the first lands on gimmel. Undo brings back the
      pot and the current player of before the turn, but not the scores: the
      snapshot shares the list the turn changed. A second undo returns to the
      game after the turn. */
  method UndoAfterGimmel(a: string, b: string) returns (played: Rules.Game, undone: Rules.Game, redone: Rules.Game)
    requires a != "" && b != "" && a != b
    ensures played == Rules.Game(2, [Player(a, 8, 1), Player(b, 3, 2)], Some(b), None)
    ensures undone == played.(potCount := 5, nextTurn := Some(a))
    ensures redone == played
  {
    RuleProperties.TwoPlayersJoin(a, b);
    RuleProperties.TwoPlayerGimmel(a, b);
    var service := new GameStateService();
    var _ := service.AddPlayer(a);
    var _ := service.AddPlayer(b);
    var _, _ := service.PlayTurn(Gimmel);
    played := service.View();
    var _ := service.UndoLastTurn();
    undone := service.View();
    var _ := service.UndoLastTurn();
    redone := service.View();
  }

  /** clearGame gives the state a new list, so undo after it brings back the
      whole game, scores included. */
  method UndoAfterClear(a: string, b: string) returns (cleared: Rules.Game, restored: Rules.Game)
    requires a != "" && b != "" && a != b
    ensures cleared == Rules.Initial()
    ensures restored == Rules.Game(5, [Player(a, 4, 1), Player(b, 4, 2)], Some(a), None)
  {
    RuleProperties.TwoPlayersJoin(a, b);
    var service := new GameStateService();
    var _ := service.AddPlayer(a);
    var _ := service.AddPlayer(b);
    service.ClearGame();
    cleared := service.View();
    var _ := service.UndoLastTurn();
    restored := service.View();
  }
}
