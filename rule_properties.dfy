/** What the rules promise: points are conserved by every turn, the well-formed
    shape of a game (unique names and turn numbers, nothing negative) is kept,
    the letters move the points they should, the rotation picks the successor
    on the ring of turn numbers, and a winner ends play. */
module RuleProperties {
  import opened GameStateTypes
  import opened TurnOrder
  import opened Rules

  predicate NamesUnique(ps: seq<Player>)
  {
    forall i, j :: 0 <= i < j < |ps| ==> ps[i].name != ps[j].name
  }

  predicate TurnOrdersUnique(ps: seq<Player>)
  {
    forall i, j :: 0 <= i < j < |ps| ==> ps[i].turnOrder != ps[j].turnOrder
  }

  /** Names are non-empty and unique, turn numbers positive and unique, scores
      never negative. */
  predicate PlayersOk(ps: seq<Player>)
  {
    NamesUnique(ps) && TurnOrdersUnique(ps) &&
    forall k :: 0 <= k < |ps| ==> ps[k].name != "" && ps[k].turnOrder > 0 && ps[k].score >= 0
  }

  /** The shape every game reachable through the service's operations has. */
  predicate Wf(g: Game)
  {
    g.potCount >= 0 && PlayersOk(g.players)
  }

  // ----- Sums -----

  lemma {:induction false} SumSetScore(ps: seq<Player>, i: nat, score: int)
    requires i < |ps|
    ensures Sum(SetScoreAt(ps, i, score)) == Sum(ps) - ps[i].score + score
  {
    if i > 0 {
      SumSetScore(ps[1..], i - 1, score);
      assert SetScoreAt(ps, i, score)[1..] == SetScoreAt(ps[1..], i - 1, score);
    }
  }

  lemma {:induction false} SumRemove(ps: seq<Player>, i: nat)
    requires i < |ps|
    ensures Sum(RemoveAt(ps, i)) == Sum(ps) - ps[i].score
  {
    if i == 0 {
      assert RemoveAt(ps, 0) == ps[1..];
    } else {
      SumRemove(ps[1..], i - 1);
      assert RemoveAt(ps, i) == [ps[0]] + RemoveAt(ps[1..], i - 1);
    }
  }

  /** With unique names, `find` by the name of player `i` finds player `i`. */
  lemma FindUnique(ps: seq<Player>, i: nat)
    requires NamesUnique(ps) && i < |ps|
    ensures Find(ps, ps[i].name) == Some(i)
  {
  }

  // ----- The elimination check -----

  /** didPlayerLose removes only a player whose score is 0, so it moves no
      point; when the removal leaves one player, that player is the winner and
      no one is current. */
  lemma LoseCheckSpec(g: Game, name: string)
    requires Find(g.players, name).Some?
    ensures Total(LoseCheck(g, name).game) == Total(g)
    ensures LoseCheck(g, name).lost ==>
      LoseCheck(g, name).game.players == RemoveAt(g.players, Find(g.players, name).value) &&
      LoseCheck(g, name).game.potCount == g.potCount &&
      LoseCheck(g, name).log[0] == Eliminated(name)
    ensures LoseCheck(g, name).lost && |LoseCheck(g, name).game.players| == 1 ==>
      LoseCheck(g, name).game.winner == Some(LoseCheck(g, name).game.players[0].name) &&
      LoseCheck(g, name).game.nextTurn.None?
    ensures LoseCheck(g, name).lost && |LoseCheck(g, name).game.players| != 1 ==>
      LoseCheck(g, name).game.winner == g.winner && LoseCheck(g, name).game.nextTurn == g.nextTurn
  {
    var i := Find(g.players, name).value;
    if g.players[i].score == 0 {
      SumRemove(g.players, i);
    }
  }

  // ----- The letters -----

  /** The effect of each letter on the acting player and the pot:
      nun changes nothing; gimmel moves the whole pot to the player; hay moves
      the bigger half (rounded up) and leaves the smaller half (rounded down);
      shin removes a player already at 0 and otherwise moves one point from the
      player to the pot, keeping a player who drops from 1 to 0 in the list. */
  lemma {:induction false} LetterEffects(g: Game, name: string)
    requires Find(g.players, name).Some?
    ensures var i := Find(g.players, name).value;
      ApplyLetter(g, name, Nun).game == g
    ensures var i := Find(g.players, name).value;
      var a := ApplyLetter(g, name, Gimmel).game;
      a.potCount == 0 && a.players == SetScoreAt(g.players, i, g.players[i].score + g.potCount)
    ensures var i := Find(g.players, name).value;
      var a := ApplyLetter(g, name, Hay).game;
      a.potCount == g.potCount / 2 &&
      a.players == SetScoreAt(g.players, i, g.players[i].score + (g.potCount - g.potCount / 2))
    ensures var i := Find(g.players, name).value;
      var a := ApplyLetter(g, name, Shin).game;
      if g.players[i].score == 0
      then a.players == RemoveAt(g.players, i) && a.potCount == g.potCount
      else a.players == SetScoreAt(g.players, i, g.players[i].score - 1) &&
           a.potCount == g.potCount + 1 && a.players[i].name == name
  {
    var h := CeilHalf(g.potCount);
    assert g.potCount - h == g.potCount / 2;
    LoseCheckSpec(g, name);
  }

  /** Half-pot rounding on a pot of 2k + 1 and of 2k. */
  lemma HayOnOddAndEvenPots(g: Game, name: string, k: nat)
    requires Find(g.players, name).Some?
    ensures g.potCount == 2 * k + 1 ==>
      ApplyLetter(g, name, Hay).game.potCount == k &&
      ApplyLetter(g, name, Hay).log == [Landed(name, Hay, k + 1)]
    ensures g.potCount == 2 * k ==>
      ApplyLetter(g, name, Hay).game.potCount == k &&
      ApplyLetter(g, name, Hay).log == [Landed(name, Hay, k)]
  {
    LetterEffects(g, name);
  }

  /** Every letter moves points between the acting player and the pot only. */
  lemma ApplyLetterConserves(g: Game, name: string, letter: DreidelLetter)
    requires Find(g.players, name).Some?
    ensures Total(ApplyLetter(g, name, letter).game) == Total(g)
  {
    var i := Find(g.players, name).value;
    var p := g.players[i].score;
    match letter
    case Nun =>
    case Gimmel => SumSetScore(g.players, i, p + g.potCount);
    case Hay => SumSetScore(g.players, i, p + CeilHalf(g.potCount));
    case Shin =>
      LoseCheckSpec(g, name);
      SumSetScore(g.players, i, p - 1);
  }

  // ----- The empty-pot round -----

  /** One step of the round: the callback at `i`, then the rest of the round. */
  lemma PotRoundUnfold(g: Game, i: nat)
    requires i < |g.players|
    ensures PotRound(g, i).game == PotRound(PayIn(g, i).game, i + 1).game
    ensures PotRound(g, i).log == PayIn(g, i).log + PotRound(PayIn(g, i).game, i + 1).log
  {
  }

  /** One step of the round, with the messages of the steps before it:
      the round from `i` and the round after the callback at `i` reach the
      same game and queue the same messages in all. */
  lemma PotRoundStep(g: Game, i: nat, done: seq<Event>, round: Step)
    requires i < |g.players|
    requires PotRound(g, i).game == round.game && done + PotRound(g, i).log == round.log
    ensures PotRound(PayIn(g, i).game, i + 1).game == round.game
    ensures (done + PayIn(g, i).log) + PotRound(PayIn(g, i).game, i + 1).log == round.log
  {
    var c := PayIn(g, i);
    var rest := PotRound(c.game, i + 1);
    assert PotRound(g, i) == Step(rest.game, c.log + rest.log);
    assert (done + c.log) + rest.log == done + (c.log + rest.log);
  }

  /** The round ends at the end of the list. */
  lemma PotRoundEnd(g: Game, i: nat)
    requires i >= |g.players|
    ensures PotRound(g, i) == Step(g, [])
  {
  }

  /** The rest of a turn does not depend on the messages the letter queued:
      it appends its own after them. */
  lemma FinishTurnSplit(a: Step)
    ensures FinishTurn(a) == Turn(FinishTurn(Step(a.game, [])).status, FinishTurn(Step(a.game, [])).game,
                                  a.log + FinishTurn(Step(a.game, [])).log)
  {
    var b := if !Truthy(a.game.winner) then PotEmptyCheck(a.game) else Step(a.game, []);
    assert [] + b.log == b.log;
  }

  /** The callback either removes a player with score 0 or moves one point
      from the player into the pot. */
  lemma PayInConserves(g: Game, i: nat)
    requires i < |g.players|
    ensures Total(PayIn(g, i).game) == Total(g)
  {
    var p := g.players[i];
    LoseCheckSpec(g, p.name);
    if !LoseCheck(g, p.name).lost {
      SumSetScore(g.players, i, p.score - 1);
    }
  }

  /** The whole round moves no point in or out of the game. */
  lemma {:induction false} PotRoundConserves(g: Game, i: nat)
    ensures Total(PotRound(g, i).game) == Total(g)
    decreases |g.players| - i
  {
    if i < |g.players| {
      PayInConserves(g, i);
      PotRoundConserves(PayIn(g, i).game, i + 1);
    }
  }

  /** The players with everyone from index `i` on one point poorer. */
  function PaidFrom(ps: seq<Player>, i: nat): seq<Player>
  {
    seq(|ps|, k requires 0 <= k < |ps| => if k < i then ps[k] else ps[k].(score := ps[k].score - 1))
  }

  /** When nobody from index `i` on has score 0 (and names are unique), every
      one of them pays exactly one point and nobody is removed. */
  lemma {:induction false} PotRoundAllPay(g: Game, i: nat)
    requires i <= |g.players|
    requires NamesUnique(g.players)
    requires forall k :: i <= k < |g.players| ==> g.players[k].score != 0
    ensures |PotRound(g, i).game.players| == |g.players|
    ensures forall k :: 0 <= k < |g.players| ==>
      PotRound(g, i).game.players[k] ==
        if k < i then g.players[k] else g.players[k].(score := g.players[k].score - 1)
    ensures PotRound(g, i).game.potCount == g.potCount + (|g.players| - i)
    ensures PotRound(g, i).log == []
    ensures PotRound(g, i).game.nextTurn == g.nextTurn && PotRound(g, i).game.winner == g.winner
  {
    PotRoundPaysFrom(g, i);
  }

  /** PotRoundAllPay as one equation. */
  lemma {:induction false} PotRoundPaysFrom(g: Game, i: nat)
    requires i <= |g.players|
    requires NamesUnique(g.players)
    requires forall k :: i <= k < |g.players| ==> g.players[k].score != 0
    ensures PotRound(g, i) ==
      Step(g.(players := PaidFrom(g.players, i), potCount := g.potCount + (|g.players| - i)), [])
    decreases |g.players| - i
  {
    if i < |g.players| {
      var next := PayIn(g, i).game;
      PaysFromStep(g, i);
      PotRoundPaysFrom(next, i + 1);
      PotRoundUnfold(g, i);
      assert PotRound(g, i).log == [] + [];
      assert PotRound(g, i).game == next.(players := PaidFrom(g.players, i), potCount := g.potCount + (|g.players| - i));
    } else {
      PotRoundEnd(g, i);
      assert PaidFrom(g.players, i) == g.players;
    }
  }

  /** One payer of the all-pay round: the callback takes its point, keeps the
      names unique, and leaves the rest of the round to pay from `i + 1`. */
  lemma PaysFromStep(g: Game, i: nat)
    requires i < |g.players|
    requires NamesUnique(g.players)
    requires forall k :: i <= k < |g.players| ==> g.players[k].score != 0
    ensures var next := PayIn(g, i).game;
      PayIn(g, i).log == [] && |next.players| == |g.players| &&
      next.potCount == g.potCount + 1 && next.nextTurn == g.nextTurn && next.winner == g.winner &&
      NamesUnique(next.players) &&
      (forall k :: i + 1 <= k < |next.players| ==> next.players[k].score != 0) &&
      PaidFrom(next.players, i + 1) == PaidFrom(g.players, i)
  {
    var next := g.(players := SetScoreAt(g.players, i, g.players[i].score - 1), potCount := g.potCount + 1);
    PayInPays(g, i);
    assert forall k :: 0 <= k < |next.players| ==> next.players[k].name == g.players[k].name;
    assert PaidFrom(next.players, i + 1) == PaidFrom(g.players, i);
  }

  /** The callback on a player with a unique name and a non-zero score takes
      one point from that player into the pot. */
  lemma PayInPays(g: Game, i: nat)
    requires i < |g.players| && NamesUnique(g.players) && g.players[i].score != 0
    ensures PayIn(g, i) == Checked(false, g.(players := SetScoreAt(g.players, i, g.players[i].score - 1),
                                             potCount := g.potCount + 1), [])
  {
    FindUnique(g.players, i);
  }

  /** The callback on the player at index `i` (names unique): that player is
      removed exactly when their score is 0, leaving the pot as it was;
      otherwise they pay one point into the pot and nothing is reported. */
  lemma PayInSpec(g: Game, i: nat)
    requires i < |g.players| && NamesUnique(g.players)
    ensures PayIn(g, i).lost <==> g.players[i].score == 0
    ensures PayIn(g, i).lost ==>
      PayIn(g, i).game.players == RemoveAt(g.players, i) && PayIn(g, i).game.potCount == g.potCount
    ensures !PayIn(g, i).lost ==>
      PayIn(g, i) == Checked(false, g.(players := SetScoreAt(g.players, i, g.players[i].score - 1),
                                       potCount := g.potCount + 1), [])
  {
    FindUnique(g.players, i);
    LoseCheckSpec(g, g.players[i].name);
  }

  // ----- The round in general -----

  /** `rs` is what a round over the players `ps` can leave, with `paid`
      points going into the pot: in order, each player is either dropped
      (only when their score is 0), kept as they were, or kept with one point
      less, and `paid` counts the players kept with one point less. */
  predicate Shrinks(ps: seq<Player>, rs: seq<Player>, paid: int)
    decreases |ps|
  {
    if ps == [] then rs == [] && paid == 0
    else
      (ps[0].score == 0 && Shrinks(ps[1..], rs, paid)) ||
      (rs != [] && rs[0] == ps[0] && Shrinks(ps[1..], rs[1..], paid)) ||
      (rs != [] && rs[0] == ps[0].(score := ps[0].score - 1) && Shrinks(ps[1..], rs[1..], paid - 1))
  }

  /** No more players remain than were there, and no more paid than remain. */
  lemma {:induction false} ShrinksBounds(ps: seq<Player>, rs: seq<Player>, paid: int)
    requires Shrinks(ps, rs, paid)
    ensures 0 <= paid <= |rs| <= |ps|
    decreases |ps|
  {
    if ps != [] {
      if ps[0].score == 0 && Shrinks(ps[1..], rs, paid) {
        ShrinksBounds(ps[1..], rs, paid);
      } else if rs != [] && rs[0] == ps[0] && Shrinks(ps[1..], rs[1..], paid) {
        ShrinksBounds(ps[1..], rs[1..], paid);
      } else {
        ShrinksBounds(ps[1..], rs[1..], paid - 1);
      }
    }
  }

  /** `r` is what a round from index `i` can leave of the game `g`: the
      players before `i` untouched, the rest shrunk as `Shrinks` says, with
      the pot grown by the points paid. */
  predicate RoundFrom(g: Game, i: nat, r: Game)
  {
    i <= |g.players| && i <= |r.players| && r.players[..i] == g.players[..i] &&
    Shrinks(g.players[i..], r.players[i..], r.potCount - g.potCount)
  }

  /** The empty-pot round in general (names unique): the players before `i`
      are untouched, and from `i` on a player goes missing only if their
      score was 0, every remaining player kept their score or lost exactly
      one point, and the pot grew by exactly the number who paid. */
  lemma {:induction false} PotRoundOutcome(g: Game, i: nat)
    requires NamesUnique(g.players) && i <= |g.players|
    ensures RoundFrom(g, i, PotRound(g, i).game)
    decreases |g.players| - i, 1
  {
    if i == |g.players| {
      PotRoundEnd(g, i);
      assert g.players[i..] == [];
    } else if g.players[i].score == 0 {
      OutcomeAtZero(g, i);
    } else {
      OutcomeAtPayer(g, i);
    }
  }

  lemma {:induction false} OutcomeAtZero(g: Game, i: nat)
    requires NamesUnique(g.players) && i < |g.players| && g.players[i].score == 0
    ensures RoundFrom(g, i, PotRound(g, i).game)
    decreases |g.players| - i, 0
  {
    var c := PayIn(g, i).game;
    PayInSpec(g, i);
    PotRoundUnfold(g, i);
    RemoveKeepsNames(g.players, i);
    if i + 1 < |g.players| {
      PotRoundOutcome(c, i + 1);
      RoundAfterRemoval(g, i, c, PotRound(c, i + 1).game);
    } else {
      PotRoundEnd(c, i + 1);
      RoundAfterLastRemoval(g, i, c);
    }
  }

  lemma {:induction false} OutcomeAtPayer(g: Game, i: nat)
    requires NamesUnique(g.players) && i < |g.players| && g.players[i].score != 0
    ensures RoundFrom(g, i, PotRound(g, i).game)
    decreases |g.players| - i, 0
  {
    var c := PayIn(g, i).game;
    PayInSpec(g, i);
    PotRoundUnfold(g, i);
    SetScoreKeepsNames(g.players, i, g.players[i].score - 1);
    PotRoundOutcome(c, i + 1);
    RoundAfterPay(g, i, c, PotRound(c, i + 1).game);
  }

  lemma RemoveKeepsNames(ps: seq<Player>, i: nat)
    requires NamesUnique(ps) && i < |ps|
    ensures NamesUnique(RemoveAt(ps, i))
  {
    var r := RemoveAt(ps, i);
    assert forall k :: 0 <= k < |r| ==> r[k] == ps[if k < i then k else k + 1];
  }

  lemma SetScoreKeepsNames(ps: seq<Player>, i: nat, score: int)
    requires NamesUnique(ps) && i < |ps|
    ensures NamesUnique(SetScoreAt(ps, i, score))
  {
    var r := SetScoreAt(ps, i, score);
    assert forall k :: 0 <= k < |r| ==> r[k].name == ps[k].name;
  }

  /** The round step at a last player at 0: the splice ends the round. */
  lemma RoundAfterLastRemoval(g: Game, i: nat, c: Game)
    requires i + 1 == |g.players| && g.players[i].score == 0
    requires c.players == RemoveAt(g.players, i) && c.potCount == g.potCount
    ensures RoundFrom(g, i, c)
  {
    var ps := g.players;
    assert ps[i..][1..] == [];
    assert Shrinks(ps[i..][1..], c.players[i..], 0);
  }

  /** The round step at a player at 0 with another after them: the splice,
      then the next player is skipped, then the rest of the round. */
  lemma RoundAfterRemoval(g: Game, i: nat, c: Game, r: Game)
    requires i + 1 < |g.players| && g.players[i].score == 0
    requires c.players == RemoveAt(g.players, i) && c.potCount == g.potCount
    requires RoundFrom(c, i + 1, r)
    ensures RoundFrom(g, i, r)
  {
    var ps, cs, rs := g.players, c.players, r.players;
    assert cs[i + 1..] == ps[i..][1..][1..];
    assert rs[i..][1..] == rs[i + 1..];
    assert rs[i] == cs[i] == ps[i + 1];
    assert Shrinks(ps[i..][1..], rs[i..], r.potCount - g.potCount);
    assert rs[..i] == cs[..i] == ps[..i];
  }

  /** The round step at a player with a non-zero score: one point into the
      pot, then the rest of the round, which leaves that player in place. */
  lemma RoundAfterPay(g: Game, i: nat, c: Game, r: Game)
    requires i < |g.players|
    requires c.players == SetScoreAt(g.players, i, g.players[i].score - 1) && c.potCount == g.potCount + 1
    requires RoundFrom(c, i + 1, r)
    ensures RoundFrom(g, i, r)
  {
    var ps, cs, rs := g.players, c.players, r.players;
    assert cs[i + 1..] == ps[i..][1..];
    assert rs[i..][1..] == rs[i + 1..];
    assert rs[i] == cs[i];
    assert rs[..i] == cs[..i] == ps[..i];
  }

  /** The forEach skips the player after a removed one: with `a` at 0
      followed by `b` and `c`, `a` is removed, `b` is passed over and pays
      nothing, and only `c` pays. */
  lemma PotRoundSkipsAfterRemoval(a: Player, b: Player, c: Player, pot: int)
    requires a.name != b.name && a.name != c.name && b.name != c.name
    requires a.score == 0 && c.score != 0
    ensures PotRound(Game(pot, [a, b, c], Some(a.name), None), 0) ==
      Step(Game(pot + 1, [b, c.(score := c.score - 1)], Some(a.name), None), [Eliminated(a.name)])
  {
    var g := Game(pot, [a, b, c], Some(a.name), None);
    var g1 := Game(pot, [b, c], Some(a.name), None);
    var g2 := Game(pot + 1, [b, c.(score := c.score - 1)], Some(a.name), None);
    SkipFirstPayIn(a, b, c, pot);
    SkipSecondPayIn(b, c, pot, a.name);
    PotRoundUnfold(g, 0);
    PotRoundUnfold(g1, 1);
    PotRoundEnd(g2, 2);
    assert [Eliminated(a.name)] + ([] + []) == [Eliminated(a.name)];
  }

  /** The callback on a first player at 0 removes that player. */
  lemma SkipFirstPayIn(a: Player, b: Player, c: Player, pot: int)
    requires a.name != b.name && a.name != c.name && a.score == 0
    ensures PayIn(Game(pot, [a, b, c], Some(a.name), None), 0) ==
      Checked(true, Game(pot, [b, c], Some(a.name), None), [Eliminated(a.name)])
  {
    var g := Game(pot, [a, b, c], Some(a.name), None);
    assert Find(g.players, a.name) == Some(0);
    assert RemoveAt(g.players, 0) == [b, c];
  }

  /** The callback on the second of two players takes one point from it. */
  lemma SkipSecondPayIn(b: Player, c: Player, pot: int, current: string)
    requires b.name != c.name && c.score != 0
    ensures PayIn(Game(pot, [b, c], Some(current), None), 1) ==
      Checked(false, Game(pot + 1, [b, c.(score := c.score - 1)], Some(current), None), [])
  {
    var g1 := Game(pot, [b, c], Some(current), None);
    assert Find(g1.players, c.name) == Some(1);
    assert SetScoreAt(g1.players, 1, c.score - 1) == [b, c.(score := c.score - 1)];
  }

  /** A winner found during the round ends it: one player remains, that player
      is the winner, and no one is current. */
  lemma {:induction false} PotRoundWinner(g: Game, i: nat)
    requires !Truthy(g.winner)
    ensures Truthy(PotRound(g, i).game.winner) ==>
      |PotRound(g, i).game.players| == 1 &&
      PotRound(g, i).game.winner == Some(PotRound(g, i).game.players[0].name) &&
      PotRound(g, i).game.nextTurn.None?
    decreases |g.players| - i
  {
    if i < |g.players| {
      var c := PayIn(g, i);
      LoseCheckSpec(g, g.players[i].name);
      PotRoundUnfold(g, i);
      if c.lost && |c.game.players| == 1 {
        PotRoundEnd(c.game, i + 1);
      } else {
        assert !Truthy(c.game.winner);
        PotRoundWinner(c.game, i + 1);
      }
    } else {
      PotRoundEnd(g, i);
    }
  }

  // ----- Turns -----

  /** A letter sets a winner only through the elimination check of shin. */
  lemma ApplyLetterWinner(g: Game, name: string, letter: DreidelLetter)
    requires Find(g.players, name).Some? && !Truthy(g.winner)
    ensures var a := ApplyLetter(g, name, letter).game;
      Truthy(a.winner) ==>
        |a.players| == 1 && a.winner == Some(a.players[0].name) && a.nextTurn.None?
  {
    if letter == Shin {
      LoseCheckSpec(g, name);
    }
  }

  /** The rest of the turn moves no point. */
  lemma FinishTurnConserves(a: Step)
    ensures Total(FinishTurn(a).game) == Total(a.game)
  {
    if !Truthy(a.game.winner) && a.game.potCount == 0 {
      PotRoundConserves(a.game, 0);
    }
  }

  /** Points are conserved: whatever the letter and however the turn ends, the
      players' scores plus the pot are the same before and after. */
  lemma PlayTurnConserves(g: Game, letter: DreidelLetter)
    ensures Total(PlayTurn(g, letter).game) == Total(g)
  {
    if !Truthy(g.winner) && g.nextTurn.Some? && Find(g.players, g.nextTurn.value).Some? {
      ApplyLetterConserves(g, g.nextTurn.value, letter);
      FinishTurnConserves(ApplyLetter(g, g.nextTurn.value, letter));
    }
  }

  /** The rest of the turn ends with a winner only as the elimination check
      leaves it: one player, who is the winner, and no one current. */
  lemma FinishTurnWinner(a: Step)
    requires Truthy(a.game.winner) ==>
      |a.game.players| == 1 && a.game.winner == Some(a.game.players[0].name) && a.game.nextTurn.None?
    ensures var t := FinishTurn(a);
      Truthy(t.game.winner) ==>
        t.status == Completed &&
        |t.game.players| == 1 && t.game.winner == Some(t.game.players[0].name) && t.game.nextTurn.None?
  {
    if !Truthy(a.game.winner) && a.game.potCount == 0 {
      PotRoundWinner(a.game, 0);
    }
  }

  /** Once a turn has produced a winner, one player remains, that player is
      the winner, no one is current, and every later turn is ignored. */
  lemma PlayTurnWinner(g: Game, letter: DreidelLetter, later: DreidelLetter)
    requires !Truthy(g.winner)
    ensures var t := PlayTurn(g, letter);
      Truthy(t.game.winner) ==>
        t.status == Completed &&
        |t.game.players| == 1 && t.game.winner == Some(t.game.players[0].name) &&
        t.game.nextTurn.None? &&
        PlayTurn(t.game, later) == Turn(Ignored, t.game, [])
  {
    if g.nextTurn.Some? && Find(g.players, g.nextTurn.value).Some? {
      ApplyLetterWinner(g, g.nextTurn.value, letter);
      FinishTurnWinner(ApplyLetter(g, g.nextTurn.value, letter));
    }
  }

  /** The rest of a turn that finds no winner: the empty-pot check, then the
      rotation's choice becomes current. */
  lemma FinishTurnRotates(a: Step, b: Game, log: seq<Event>, next: string)
    requires !Truthy(a.game.winner) && PotEmptyCheck(a.game) == Step(b, log)
    requires !Truthy(b.winner) && Rotate(b) == Some(next)
    ensures FinishTurn(a) == Turn(Completed, b.(nextTurn := Some(next)), a.log + log)
  {
  }

  /** The rest of a turn whose letter already produced a winner: neither the
      empty-pot check nor the rotation runs, and nothing more is reported. */
  lemma FinishTurnHalts(a: Step)
    requires Truthy(a.game.winner)
    ensures FinishTurn(a) == Turn(Completed, a.game, a.log)
  {
    assert a.log + [] == a.log;
  }

  /** Shin eliminating the current player at 0 with an empty pot: the other
      player wins and the empty pot takes nothing from them. */
  lemma ShinWinnerKeepsPot(a: string, b: string, score: int)
    requires a != b && b != ""
    ensures PlayTurn(Game(0, [Player(a, 0, 1), Player(b, score, 2)], Some(a), None), Shin) ==
      Turn(Completed, Game(0, [Player(b, score, 2)], None, Some(b)), [Eliminated(a), Won(b)])
  {
    var g := Game(0, [Player(a, 0, 1), Player(b, score, 2)], Some(a), None);
    FindUnique(g.players, 0);
    LoseCheckSpec(g, a);
    var s := ApplyLetter(g, a, Shin);
    assert s == Step(Game(0, [Player(b, score, 2)], None, Some(b)), [Eliminated(a), Won(b)]);
    FinishTurnHalts(s);
  }

  /** The rotation hands the turn to a player in the list. */
  lemma FinishTurnPassesTurn(a: Step)
    ensures var t := FinishTurn(a);
      t.status == Completed && !Truthy(t.game.winner) ==>
        t.game.nextTurn.Some? && Find(t.game.players, t.game.nextTurn.value).Some?
  {
    var b := if !Truthy(a.game.winner) then PotEmptyCheck(a.game) else Step(a.game, []);
    var r := Rotate(b.game);
    if !Truthy(b.game.winner) && r.Some? {
      RotateChoosesSuccessor(b.game);
      var p :| p in b.game.players && p.name == r.value;
      var k :| 0 <= k < |b.game.players| && b.game.players[k] == p;
      assert FinishTurn(a).game == b.game.(nextTurn := r);
    }
  }

  /** A completed turn without a winner hands the turn to a player in the list. */
  lemma PlayTurnPassesTurn(g: Game, letter: DreidelLetter)
    ensures var t := PlayTurn(g, letter);
      t.status == Completed && !Truthy(t.game.winner) ==>
        t.game.nextTurn.Some? && Find(t.game.players, t.game.nextTurn.value).Some?
  {
    if !Truthy(g.winner) && g.nextTurn.Some? && Find(g.players, g.nextTurn.value).Some? {
      FinishTurnPassesTurn(ApplyLetter(g, g.nextTurn.value, letter));
    }
  }

  // ----- Rotation -----

  /** The rotation picks a player of the list other than the current one:
      the one with the smallest turn number above the current player's,
      wrapping to the smallest turn number overall; it fails exactly when
      every player holds the current turn number. */
  lemma RotateChoosesSuccessor(g: Game)
    ensures var cur := CurrentTurnNumber(g);
      Rotate(g).None? <==> forall p :: p in g.players ==> p.turnOrder == cur
    ensures var cur := CurrentTurnNumber(g);
      Rotate(g).Some? ==>
        exists p :: p in g.players && p.name == Rotate(g).value && p.turnOrder != cur &&
          ((exists q :: q in g.players && q.turnOrder > cur) ==>
             p.turnOrder > cur &&
             forall q :: q in g.players && q.turnOrder > cur ==> p.turnOrder <= q.turnOrder) &&
          ((forall q :: q in g.players ==> q.turnOrder <= cur) ==>
             forall q :: q in g.players && q.turnOrder != cur ==> p.turnOrder <= q.turnOrder)
  {
    NextUpIsSuccessor(g.players, CurrentTurnNumber(g));
  }

  /** After the current player was removed (or when no one is current) the
      current number is 0, so the player with the lowest turn number goes next. */
  lemma RotateAfterRemoval(g: Game)
    requires PlayersOk(g.players) && |g.players| > 0
    requires g.nextTurn.None? || Find(g.players, g.nextTurn.value).None?
    ensures Rotate(g).Some?
    ensures exists p :: p in g.players && p.name == Rotate(g).value &&
                        forall q :: q in g.players ==> p.turnOrder <= q.turnOrder
  {
    assert CurrentTurnNumber(g) == 0;
    assert g.players[0] in g.players && g.players[0].turnOrder > 0;
    RotateChoosesSuccessor(g);
  }

  /** In a well-formed game the rotation fails exactly when there is no other
      player to pass the turn to: the list is empty, or its only player is the
      current one. */
  lemma RotateFaultsWithoutOthers(g: Game)
    requires PlayersOk(g.players)
    ensures Rotate(g).None? <==>
      |g.players| == 0 || (|g.players| == 1 && g.nextTurn == Some(g.players[0].name))
  {
    RotateChoosesSuccessor(g);
    var cur := CurrentTurnNumber(g);
    if |g.players| >= 2 {
      assert g.players[0] in g.players && g.players[1] in g.players;
    } else if |g.players| == 1 {
      assert g.players[0] in g.players;
      if g.nextTurn == Some(g.players[0].name) {
        assert Find(g.players, g.players[0].name) == Some(0);
      }
    }
  }

  /** The rotation from the player at index `i` of a well-formed list whose
      successor on the ring is the player at index `j`. */
  lemma RotateTo(g: Game, i: nat, j: nat)
    requires PlayersOk(g.players) && i < |g.players| && j < |g.players| && i != j
    requires g.nextTurn == Some(g.players[i].name)
    requires var cur := g.players[i].turnOrder;
      forall k :: 0 <= k < |g.players| && k != i ==>
        if g.players[j].turnOrder > cur
        then g.players[k].turnOrder > cur ==> g.players[j].turnOrder <= g.players[k].turnOrder
        else g.players[k].turnOrder < cur && g.players[j].turnOrder <= g.players[k].turnOrder
    ensures Rotate(g) == Some(g.players[j].name)
  {
    var ps := g.players;
    var cur := ps[i].turnOrder;
    FindUnique(ps, i);
    assert CurrentTurnNumber(g) == cur;
    NextUpIsSuccessor(ps, cur);
    var r := NextUp(ps, cur);
    assert ps[j] in ps;
    if ps[j].turnOrder <= cur {
      forall q | q in ps ensures q.turnOrder <= cur {
        var k :| 0 <= k < |ps| && ps[k] == q;
      }
    }
    var m :| 0 <= m < |ps| && ps[m] == r.value;
    assert m == j;
  }

  lemma TwoPlayersOk(p: Player, q: Player)
    requires p.name != "" && q.name != "" && p.name != q.name
    requires p.turnOrder > 0 && q.turnOrder > 0 && p.turnOrder != q.turnOrder
    requires p.score >= 0 && q.score >= 0
    ensures PlayersOk([p, q])
  {
  }

  /** With two players the turn alternates between them. */
  lemma RotateBetweenTwo(g: Game, i: nat)
    requires PlayersOk(g.players) && |g.players| == 2 && i < 2
    requires g.nextTurn == Some(g.players[i].name)
    ensures Rotate(g) == Some(g.players[1 - i].name)
  {
    var ps := g.players;
    assert ps[0].turnOrder != ps[1].turnOrder;
    RotateTo(g, i, 1 - i);
  }

  /** Gaps left by eliminated players are skipped: with turn numbers 1, 2 and
      4, the turn passes from 2 to 4 and from 4 back round to 1. */
  lemma RotateSkipsGaps(p1: Player, p2: Player, p4: Player, pot: int)
    requires PlayersOk([p1, p2, p4])
    requires p1.turnOrder == 1 && p2.turnOrder == 2 && p4.turnOrder == 4
    ensures Rotate(Game(pot, [p1, p2, p4], Some(p2.name), None)) == Some(p4.name)
    ensures Rotate(Game(pot, [p1, p2, p4], Some(p4.name), None)) == Some(p1.name)
  {
    RotateTo(Game(pot, [p1, p2, p4], Some(p2.name), None), 1, 2);
    RotateTo(Game(pot, [p1, p2, p4], Some(p4.name), None), 2, 0);
  }

  // ----- The well-formed shape is kept -----

  lemma RemoveKeepsOk(ps: seq<Player>, i: nat)
    requires PlayersOk(ps) && i < |ps|
    ensures PlayersOk(RemoveAt(ps, i))
  {
    var r := RemoveAt(ps, i);
    assert forall k :: 0 <= k < |r| ==> r[k] == ps[if k < i then k else k + 1];
  }

  lemma SetScoreKeepsOk(ps: seq<Player>, i: nat, score: int)
    requires PlayersOk(ps) && i < |ps| && score >= 0
    ensures PlayersOk(SetScoreAt(ps, i, score))
  {
  }

  lemma LoseCheckKeepsWf(g: Game, name: string)
    requires Wf(g) && Find(g.players, name).Some?
    ensures Wf(LoseCheck(g, name).game)
  {
    LoseCheckSpec(g, name);
    if LoseCheck(g, name).lost {
      RemoveKeepsOk(g.players, Find(g.players, name).value);
    }
  }

  /** No letter drives a score or the pot below 0: shin removes a player at 0
      instead of charging them. */
  lemma ApplyLetterKeepsWf(g: Game, name: string, letter: DreidelLetter)
    requires Wf(g) && Find(g.players, name).Some?
    ensures Wf(ApplyLetter(g, name, letter).game)
  {
    var i := Find(g.players, name).value;
    var p := g.players[i].score;
    match letter
    case Nun =>
    case Gimmel => SetScoreKeepsOk(g.players, i, p + g.potCount);
    case Hay => SetScoreKeepsOk(g.players, i, p + CeilHalf(g.potCount));
    case Shin =>
      LoseCheckKeepsWf(g, name);
      if p != 0 {
        SetScoreKeepsOk(g.players, i, p - 1);
      }
  }

  lemma PayInKeepsWf(g: Game, i: nat)
    requires Wf(g) && i < |g.players|
    ensures Wf(PayIn(g, i).game)
  {
    var p := g.players[i];
    FindUnique(g.players, i);
    LoseCheckKeepsWf(g, p.name);
    if p.score != 0 {
      SetScoreKeepsOk(g.players, i, p.score - 1);
    }
  }

  lemma {:induction false} PotRoundKeepsWf(g: Game, i: nat)
    requires Wf(g)
    ensures Wf(PotRound(g, i).game)
    decreases |g.players| - i
  {
    if i < |g.players| {
      PayInKeepsWf(g, i);
      PotRoundKeepsWf(PayIn(g, i).game, i + 1);
    }
  }

  lemma FinishTurnKeepsWf(a: Step)
    requires Wf(a.game)
    ensures Wf(FinishTurn(a).game)
  {
    if !Truthy(a.game.winner) && a.game.potCount == 0 {
      PotRoundKeepsWf(a.game, 0);
    }
  }

  /** A turn keeps the game well formed. */
  lemma PlayTurnKeepsWf(g: Game, letter: DreidelLetter)
    requires Wf(g)
    ensures Wf(PlayTurn(g, letter).game)
  {
    if !Truthy(g.winner) && g.nextTurn.Some? && Find(g.players, g.nextTurn.value).Some? {
      ApplyLetterKeepsWf(g, g.nextTurn.value, letter);
      FinishTurnKeepsWf(ApplyLetter(g, g.nextTurn.value, letter));
    }
  }

  // ----- Joining -----

  /** addPlayer ignores an empty or present name. Otherwise exactly one player
      is appended, with the starting score and a turn number above every
      existing one; the others are untouched and the new name becomes current
      only when no one was. */
  lemma AddPlayerJoins(g: Game, name: string)
    ensures name == "" || Find(g.players, name).Some? ==> AddPlayer(g, name) == g
    ensures name != "" && Find(g.players, name).None? ==>
      var r := AddPlayer(g, name);
      var n := |g.players|;
      |r.players| == n + 1 && r.players[..n] == g.players &&
      r.players[n].name == name && r.players[n].score == StartingScore &&
      r.players[n].turnOrder == 1 + MaxTurnOrder(g.players) &&
      (forall k :: 0 <= k < n ==> g.players[k].turnOrder < r.players[n].turnOrder) &&
      r.potCount == g.potCount && r.winner == g.winner &&
      r.nextTurn == (if Truthy(g.nextTurn) then g.nextTurn else Some(name))
  {
  }

  /** Joining keeps the game well formed: the name is new and non-empty and
      the turn number is above every other. */
  lemma AddPlayerKeepsWf(g: Game, name: string)
    requires Wf(g)
    ensures Wf(AddPlayer(g, name))
  {
    AddPlayerJoins(g, name);
  }

  // ----- Whole games -----

  /** Two players join and play gimmel then shin. After gimmel the pot is
      empty, so both pay one point back in; the turn alternates. */
  lemma TwoPlayerGame(a: string, b: string)
    requires a != "" && b != "" && a != b
    ensures var g := AddPlayer(AddPlayer(Initial(), a), b);
      g == Game(5, [Player(a, 4, 1), Player(b, 4, 2)], Some(a), None) &&
      PlayTurn(g, Gimmel) ==
        Turn(Completed, Game(2, [Player(a, 8, 1), Player(b, 3, 2)], Some(b), None),
             [Landed(a, Gimmel, 5), PotEmptied]) &&
      PlayTurn(PlayTurn(g, Gimmel).game, Shin) ==
        Turn(Completed, Game(3, [Player(a, 8, 1), Player(b, 2, 2)], Some(a), None),
             [Landed(b, Shin, 1)])
  {
    TwoPlayersJoin(a, b);
    TwoPlayerGimmel(a, b);
    TwoPlayerShin(a, b);
  }

  lemma TwoPlayersJoin(a: string, b: string)
    requires a != "" && b != "" && a != b
    ensures AddPlayer(AddPlayer(Initial(), a), b) ==
      Game(5, [Player(a, 4, 1), Player(b, 4, 2)], Some(a), None)
  {
    var g1 := AddPlayer(Initial(), a);
    assert g1 == Game(5, [Player(a, 4, 1)], Some(a), None);
    assert Find(g1.players, b).None?;
  }

  lemma TwoPlayerGimmel(a: string, b: string)
    requires a != "" && b != "" && a != b
    ensures PlayTurn(Game(5, [Player(a, 4, 1), Player(b, 4, 2)], Some(a), None), Gimmel) ==
      Turn(Completed, Game(2, [Player(a, 8, 1), Player(b, 3, 2)], Some(b), None),
           [Landed(a, Gimmel, 5), PotEmptied])
  {
    var emptied := Game(0, [Player(a, 9, 1), Player(b, 4, 2)], Some(a), None);
    var after := Game(2, [Player(a, 8, 1), Player(b, 3, 2)], Some(a), None);
    TwoPlayerGimmelLetter(a, b);
    TwoPlayerPotEmptied(a, b);
    TwoPlayerRotations(a, b);
    FinishTurnRotates(Step(emptied, [Landed(a, Gimmel, 5)]), after, [PotEmptied], b);
  }

  lemma TwoPlayerRotations(a: string, b: string)
    requires a != "" && b != "" && a != b
    ensures Rotate(Game(2, [Player(a, 8, 1), Player(b, 3, 2)], Some(a), None)) == Some(b)
    ensures Rotate(Game(3, [Player(a, 8, 1), Player(b, 2, 2)], Some(b), None)) == Some(a)
  {
    TwoPlayersOk(Player(a, 8, 1), Player(b, 3, 2));
    TwoPlayersOk(Player(a, 8, 1), Player(b, 2, 2));
    RotateBetweenTwo(Game(2, [Player(a, 8, 1), Player(b, 3, 2)], Some(a), None), 0);
    RotateBetweenTwo(Game(3, [Player(a, 8, 1), Player(b, 2, 2)], Some(b), None), 1);
  }

  lemma TwoPlayerGimmelLetter(a: string, b: string)
    requires a != "" && b != "" && a != b
    ensures var g := Game(5, [Player(a, 4, 1), Player(b, 4, 2)], Some(a), None);
      Find(g.players, a) == Some(0) &&
      ApplyLetter(g, a, Gimmel) ==
        Step(Game(0, [Player(a, 9, 1), Player(b, 4, 2)], Some(a), None), [Landed(a, Gimmel, 5)])
  {
    var g := Game(5, [Player(a, 4, 1), Player(b, 4, 2)], Some(a), None);
    assert Find(g.players, a) == Some(0);
    assert SetScoreAt(g.players, 0, 9) == [Player(a, 9, 1), Player(b, 4, 2)];
  }

  lemma TwoPlayerPotEmptied(a: string, b: string)
    requires a != "" && b != "" && a != b
    ensures PotEmptyCheck(Game(0, [Player(a, 9, 1), Player(b, 4, 2)], Some(a), None)) ==
      Step(Game(2, [Player(a, 8, 1), Player(b, 3, 2)], Some(a), None), [PotEmptied])
  {
    var emptied := Game(0, [Player(a, 9, 1), Player(b, 4, 2)], Some(a), None);
    PotRoundAllPay(emptied, 0);
    assert PotRound(emptied, 0).game.players == [Player(a, 8, 1), Player(b, 3, 2)];
  }

  lemma TwoPlayerShin(a: string, b: string)
    requires a != "" && b != "" && a != b
    ensures PlayTurn(Game(2, [Player(a, 8, 1), Player(b, 3, 2)], Some(b), None), Shin) ==
      Turn(Completed, Game(3, [Player(a, 8, 1), Player(b, 2, 2)], Some(a), None),
           [Landed(b, Shin, 1)])
  {
    var paid := Game(3, [Player(a, 8, 1), Player(b, 2, 2)], Some(b), None);
    TwoPlayerShinLetter(a, b);
    TwoPlayerRotations(a, b);
    FinishTurnRotates(Step(paid, [Landed(b, Shin, 1)]), paid, [], a);
  }

  lemma TwoPlayerShinLetter(a: string, b: string)
    requires a != "" && b != "" && a != b
    ensures var h := Game(2, [Player(a, 8, 1), Player(b, 3, 2)], Some(b), None);
      Find(h.players, b) == Some(1) &&
      ApplyLetter(h, b, Shin) ==
        Step(Game(3, [Player(a, 8, 1), Player(b, 2, 2)], Some(b), None), [Landed(b, Shin, 1)])
  {
    var h := Game(2, [Player(a, 8, 1), Player(b, 3, 2)], Some(b), None);
    assert Find(h.players, b) == Some(1);
    assert SetScoreAt(h.players, 1, 2) == [Player(a, 8, 1), Player(b, 2, 2)];
  }

  /** A lone player at 1 who lands on shin drops to 0 and stays in the list;
      the rotation then finds nobody to pass to. */
  lemma LonePlayerShin(c: string, pot: int)
    requires c != "" && pot >= 0
    ensures PlayTurn(Game(pot, [Player(c, 1, 1)], Some(c), None), Shin) ==
      Turn(Faulted, Game(pot + 1, [Player(c, 0, 1)], Some(c), None), [Landed(c, Shin, 1)])
  {
    var g := Game(pot, [Player(c, 1, 1)], Some(c), None);
    var a := Step(Game(pot + 1, [Player(c, 0, 1)], Some(c), None), [Landed(c, Shin, 1)]);
    LoneShinLetter(c, pot);
    assert PlayersOk(a.game.players);
    RotateFaultsWithoutOthers(a.game);
    assert PotEmptyCheck(a.game) == Step(a.game, []);
    assert a.log + [] == a.log;
    assert PlayTurn(g, Shin) == FinishTurn(a);
  }

  lemma LoneShinLetter(c: string, pot: int)
    ensures var g := Game(pot, [Player(c, 1, 1)], Some(c), None);
      Find(g.players, c) == Some(0) &&
      ApplyLetter(g, c, Shin) == Step(Game(pot + 1, [Player(c, 0, 1)], Some(c), None), [Landed(c, Shin, 1)])
  {
    var g := Game(pot, [Player(c, 1, 1)], Some(c), None);
    assert Find(g.players, c) == Some(0);
    assert SetScoreAt(g.players, 0, 0) == [Player(c, 0, 1)];
  }
}
