/** The records of the dreidel counter: a player, the four letters of the
    dreidel, and the game state whose `players` list is a heap object that
    shallow copies of the state share. */
module GameStateTypes {

  datatype Option<T> = None | Some(value: T)

  /** A player record: exactly a name, a score and a turn number. */
  datatype Player = Player(name: string, score: int, turnOrder: int)

  /** The four letters of the dreidel; the source writes them as string literals. */
  datatype DreidelLetter = Nun | Gimmel | Hay | Shin

  /** The string literal that stands for a letter. */
  function LetterName(l: DreidelLetter): string
  {
    match l
    case Nun => "nun"
    case Gimmel => "gimmel"
    case Hay => "hay"
    case Shin => "shin"
  }

  /** Reads one of the four literals; any other string is not a letter. */
  function ParseLetter(s: string): (r: Option<DreidelLetter>)
    ensures r.Some? <==> s in {"nun", "gimmel", "hay", "shin"}
    ensures r.Some? ==> LetterName(r.value) == s
  {
    if s == "nun" then Some(Nun)
    else if s == "gimmel" then Some(Gimmel)
    else if s == "hay" then Some(Hay)
    else if s == "shin" then Some(Shin)
    else None
  }

  /** Every letter is exactly one literal, and reading it back gives the letter. */
  lemma LetterNameRoundTrip(l: DreidelLetter, m: DreidelLetter)
    ensures ParseLetter(LetterName(l)) == Some(l)
    ensures LetterName(l) == LetterName(m) ==> l == m
  {
    match l
    case Nun =>
    case Gimmel =>
    case Hay =>
    case Shin =>
  }

  /** The `players` array of a game state. It is a heap object: `push` and
      `splice` change it in place, and a shallow copy of the state shares it. */
  class PlayerList {
    var items: seq<Player>

    constructor ()
      ensures items == []
    {
      items := [];
    }
  }

  /** The game state record. `winner` is its only optional field; `nextTurn`
      is the current player's name, or None where the source stores null. */
  datatype GameState = GameState(
    potCount: int,
    players: PlayerList,
    nextTurn: Option<string>,
    winner: Option<string>)
}
