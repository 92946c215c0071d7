/** The rules of the game state service on values: each private step and each
    public operation of the service as a function from the game it finds to
    the game it leaves and the messages it queues. The service class runs
    these steps in place and is proved against these functions. */
module Rules {
  import opened GameStateTypes
  import opened TurnOrder

  /** Every player joins with four points. */
  const StartingScore: int := 4
  /** A new or cleared game starts with five points in the pot. */
  const StartingPot: int := 5

  /** The value of a game state: the `players` list read out of its heap object. */
  datatype Game = Game(
    potCount: int,
    players: seq<Player>,
    nextTurn: Option<string>,
    winner: Option<string>)

  /** What a turn message reports; the wording of the messages is not modelled. */
  datatype Event =
    | Landed(name: string, letter: DreidelLetter, points: int)
    | PotEmptied
    | Eliminated(name: string)
    | Won(name: string)

  /** A game and the messages a step queued. */
  datatype Step = Step(game: Game, log: seq<Event>)

  /** The outcome of the elimination check: whether the player lost. */
  datatype Checked = Checked(lost: bool, game: Game, log: seq<Event>)

  /** Ignored: the game has a winner. Faulted: the source throws a TypeError
      (no current player, or nobody to pass the turn to), leaving the game as
      it was at that point. */
  datatype Status = Ignored | Completed | Faulted

  datatype Turn = Turn(status: Status, game: Game, log: seq<Event>)

  /** The empty game of a fresh service and of clearGame. */
  function Initial(): Game
  {
    Game(StartingPot, [], None, None)
  }

  /** JavaScript truthiness of a possibly-null string. */
  predicate Truthy(s: Option<string>)
  {
    s.Some? && s.value != ""
  }

  /** `players.find(p => p.name === name)`: the index of the first player with that name. */
  function Find(ps: seq<Player>, name: string): (r: Option<nat>)
    ensures r.None? <==> forall k :: 0 <= k < |ps| ==> ps[k].name != name
    ensures r.Some? ==> r.value < |ps| && ps[r.value].name == name
    ensures r.Some? ==> forall k :: 0 <= k < r.value ==> ps[k].name != name
  {
    if ps == [] then None
    else if ps[0].name == name then Some(0)
    else
      match Find(ps[1..], name)
      case None => None
      case Some(k) => Some(k + 1)
  }

  /** `Math.max(0, ...players.map(p => p.turnOrder))`. */
  function MaxTurnOrder(ps: seq<Player>): (m: int)
    ensures m >= 0
    ensures forall k :: 0 <= k < |ps| ==> ps[k].turnOrder <= m
    ensures m == 0 || exists k :: 0 <= k < |ps| && ps[k].turnOrder == m
  {
    if ps == [] then 0
    else
      var rest := MaxTurnOrder(ps[1..]);
      if ps[0].turnOrder > rest then ps[0].turnOrder else rest
  }

  /** `players.map(p => p.name)`. */
  function Names(ps: seq<Player>): (r: seq<string>)
    ensures |r| == |ps|
    ensures forall k :: 0 <= k < |ps| ==> r[k] == ps[k].name
  {
    if ps == [] then [] else [ps[0].name] + Names(ps[1..])
  }

  /** The sum of the players' scores. */
  function Sum(ps: seq<Player>): int
  {
    if ps == [] then 0 else ps[0].score + Sum(ps[1..])
  }

  /** Every point of the game: the players' scores and the pot. */
  function Total(g: Game): int
  {
    Sum(g.players) + g.potCount
  }

  /** The list with the score of player `i` replaced. */
  function SetScoreAt(ps: seq<Player>, i: nat, score: int): seq<Player>
    requires i < |ps|
  {
    ps[i := ps[i].(score := score)]
  }

  /** `splice(i, 1)`. */
  function RemoveAt(ps: seq<Player>, i: nat): seq<Player>
    requires i < |ps|
  {
    ps[..i] + ps[i + 1..]
  }

  /** `Math.ceil(p / 2)`. */
  function CeilHalf(p: int): (r: int)
    ensures p <= 2 * r <= p + 1
  {
    if p >= 0 then (p + 1) / 2 else -((-p) / 2)
  }

  /** addPlayer: an empty or already present name changes nothing; any other
      name joins with the starting score and the turn number one above the
      largest, and becomes current when no one is. */
  function AddPlayer(g: Game, name: string): Game
  {
    if name == "" || Find(g.players, name).Some? then g
    else
      var joined := g.(players := g.players + [Player(name, StartingScore, MaxTurnOrder(g.players) + 1)]);
      if !Truthy(g.nextTurn) then joined.(nextTurn := Some(name)) else joined
  }

  /** didPlayerLose: a player whose score is 0 is removed; if that leaves
      exactly one player, that player wins and no one is current. */
  function LoseCheck(g: Game, name: string): (r: Checked)
    requires Find(g.players, name).Some?
    ensures r.lost <==> g.players[Find(g.players, name).value].score == 0
    ensures !r.lost ==> r == Checked(false, g, [])
    ensures r.lost ==> |r.game.players| == |g.players| - 1
  {
    var i := Find(g.players, name).value;
    if g.players[i].score == 0 then
      var ps := RemoveAt(g.players, i);
      if |ps| == 1 then
        Checked(true, g.(players := ps, winner := Some(ps[0].name), nextTurn := None),
                [Eliminated(name), Won(ps[0].name)])
      else
        Checked(true, g.(players := ps), [Eliminated(name)])
    else
      Checked(false, g, [])
  }

  /** The effect of the letter on the player named `name` and on the pot. */
  function ApplyLetter(g: Game, name: string, letter: DreidelLetter): Step
    requires Find(g.players, name).Some?
  {
    var i := Find(g.players, name).value;
    var prevScore := g.players[i].score;
    match letter
    case Nun =>
      Step(g, [Landed(name, Nun, 0)])
    case Gimmel =>
      Step(g.(players := SetScoreAt(g.players, i, prevScore + g.potCount), potCount := 0),
           [Landed(name, Gimmel, g.potCount)])
    case Hay =>
      var biggerHalf := CeilHalf(g.potCount);
      Step(g.(players := SetScoreAt(g.players, i, prevScore + biggerHalf),
              potCount := g.potCount - biggerHalf),
           [Landed(name, Hay, biggerHalf)])
    case Shin =>
      var c := LoseCheck(g, name);
      if c.lost then Step(c.game, c.log)
      else
        Step(g.(players := SetScoreAt(g.players, i, prevScore - 1), potCount := g.potCount + 1),
             [Landed(name, Shin, 1)])
  }

  /** The forEach callback of checkIfPotEmpty for the player at index `i`:
      the elimination check by that player's name, and when it does not
      remove anyone, one point from that player into the pot. */
  function PayIn(g: Game, i: nat): (r: Checked)
    requires i < |g.players|
    ensures |r.game.players| == |g.players| - (if r.lost then 1 else 0)
  {
    var p := g.players[i];
    assert Find(g.players, p.name).Some?;
    var c := LoseCheck(g, p.name);
    if c.lost then c
    else Checked(false, g.(players := SetScoreAt(g.players, i, p.score - 1), potCount := g.potCount + 1), [])
  }

  /** The forEach of checkIfPotEmpty from index `i` on, over the live list.
      A removal shifts the next player onto index `i`, and the iteration
      moves past it. */
  function PotRound(g: Game, i: nat): Step
    decreases |g.players| - i
  {
    if i >= |g.players| then Step(g, [])
    else
      var c := PayIn(g, i);
      var rest := PotRound(c.game, i + 1);
      Step(rest.game, c.log + rest.log)
  }

  /** checkIfPotEmpty: when the pot is empty, everyone puts in one point. */
  function PotEmptyCheck(g: Game): Step
  {
    if g.potCount == 0 then
      var s := PotRound(g, 0);
      Step(s.game, [PotEmptied] + s.log)
    else Step(g, [])
  }

  /** The turn number of the current player, 0 when the current name is null
      or names nobody in the list. */
  function CurrentTurnNumber(g: Game): int
  {
    match g.nextTurn
    case None => 0
    case Some(n) =>
      match Find(g.players, n)
      case None => 0
      case Some(i) => g.players[i].turnOrder
  }

  /** nextTurn: the name of the player who plays next; None where the source
      dereferences an undefined player. */
  function Rotate(g: Game): Option<string>
  {
    match NextUp(g.players, CurrentTurnNumber(g))
    case None => None
    case Some(p) => Some(p.name)
  }

  /** The rest of playTurn once the letter is applied: the empty-pot round
      and then the rotation, each only while there is no winner. */
  function FinishTurn(a: Step): Turn
  {
    var b := if !Truthy(a.game.winner) then PotEmptyCheck(a.game) else Step(a.game, []);
    if Truthy(b.game.winner) then Turn(Completed, b.game, a.log + b.log)
    else
      match Rotate(b.game)
      case None => Turn(Faulted, b.game, a.log + b.log)
      case Some(next) => Turn(Completed, b.game.(nextTurn := Some(next)), a.log + b.log)
  }

  /** playTurn: ignored once there is a winner; a fault when there is no
      current player; otherwise the letter, then the rest of the turn. */
  function PlayTurn(g: Game, letter: DreidelLetter): Turn
  {
    if Truthy(g.winner) then Turn(Ignored, g, [])
    else if g.nextTurn.None? || Find(g.players, g.nextTurn.value).None? then Turn(Faulted, g, [])
    else FinishTurn(ApplyLetter(g, g.nextTurn.value, letter))
  }
}
