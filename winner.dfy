/**
 * The outcome rule of the game (`determineWinner`'s decision). The rule is
 * written over arbitrary strings, as the component compares whatever is
 * held in its `player` and `opponentMove` state; the three real moves and a
 * three-valued outcome give an independent reference table for it.
 */
module Winner {

  const TieMessage := "It's a tie!"
  const WinMessage := "You win!"
  const LoseMessage := "You lose!"

  /** The three winning (player, opponent) pairs, compared as strings. */
  predicate Beats(player: string, opponent: string) {
    || (player == "rock" && opponent == "scissors")
    || (player == "paper" && opponent == "rock")
    || (player == "scissors" && opponent == "paper")
  }

  /** The message `determineWinner` stores once both values are truthy. */
  function Verdict(player: string, opponent: string): (r: string)
    ensures r == TieMessage || r == WinMessage || r == LoseMessage
  {
    if player == opponent then TieMessage
    else if Beats(player, opponent) then WinMessage
    else LoseMessage
  }

  /** Equal values always tie; different ones never do. */
  lemma VerdictTie(player: string, opponent: string)
    ensures Verdict(player, opponent) == TieMessage <==> player == opponent
  {
  }

  /**
   * Different values win exactly on the three winning pairs, and lose in
   * every other case, whatever strings they are.
   */
  lemma VerdictWinLose(player: string, opponent: string)
    requires player != opponent
    ensures Verdict(player, opponent) == WinMessage <==> Beats(player, opponent)
    ensures Verdict(player, opponent) == LoseMessage <==> !Beats(player, opponent)
  {
  }

  /**
   * Over arbitrary strings the swap is one-sided: a win for one side is a
   * loss for the other, and a tie stays a tie.
   */
  lemma VerdictSwap(a: string, b: string)
    ensures Verdict(a, b) == WinMessage ==> Verdict(b, a) == LoseMessage
    ensures Verdict(a, b) == TieMessage <==> Verdict(b, a) == TieMessage
  {
  }

  /**
   * A loss is not always the other side's win: a value that is not a move
   * name (such as the identity `createRoom` stores as `player`) loses to,
   * and is lost to by, every move.
   */
  lemma VerdictBothLose(other: string, m: Move)
    requires other != "rock" && other != "paper" && other != "scissors"
    ensures Verdict(other, Name(m)) == LoseMessage
    ensures Verdict(Name(m), other) == LoseMessage
  {
  }

  datatype Move = Rock | Paper | Scissors

  /** The string the move buttons pass to `handleMove`. */
  function Name(m: Move): (r: string) {
    match m
    case Rock => "rock"
    case Paper => "paper"
    case Scissors => "scissors"
  }

  /** The strings that name a move are exactly the three move names. */
  lemma NameInjective(a: Move, b: Move)
    ensures Name(a) == Name(b) <==> a == b
  {
  }

  datatype Outcome = Tie | Win | Lose

  function Message(o: Outcome): (r: string) {
    match o
    case Tie => TieMessage
    case Win => WinMessage
    case Lose => LoseMessage
  }

  /** The reversed outcome: what the opponent sees. */
  function Flip(o: Outcome): (r: Outcome) {
    match o
    case Tie => Tie
    case Win => Lose
    case Lose => Win
  }

  /** Reference table of the nine move pairs (3 ties, 3 wins, 3 losses). */
  function Resolve(player: Move, opponent: Move): (r: Outcome) {
    match (player, opponent)
    case (Rock, Rock) => Tie
    case (Rock, Paper) => Lose
    case (Rock, Scissors) => Win
    case (Paper, Rock) => Win
    case (Paper, Paper) => Tie
    case (Paper, Scissors) => Lose
    case (Scissors, Rock) => Lose
    case (Scissors, Paper) => Win
    case (Scissors, Scissors) => Tie
  }

  /** The string rule agrees with the table on every real pair of moves. */
  lemma VerdictMatchesResolve(player: Move, opponent: Move)
    ensures Verdict(Name(player), Name(opponent)) == Message(Resolve(player, opponent))
  {
  }

  /** On real moves the outcomes of the two sides are always complementary. */
  lemma ResolveComplementary(a: Move, b: Move)
    ensures Resolve(b, a) == Flip(Resolve(a, b))
  {
  }

  /**
   * For any two distinct moves, (a, b) is a win exactly when (b, a) is a
   * loss; equal moves tie both ways.
   */
  lemma VerdictComplementaryOnMoves(a: Move, b: Move)
    ensures Verdict(Name(a), Name(b)) == WinMessage <==> Verdict(Name(b), Name(a)) == LoseMessage
    ensures Verdict(Name(a), Name(b)) == LoseMessage <==> Verdict(Name(b), Name(a)) == WinMessage
    ensures a == b <==> Verdict(Name(a), Name(b)) == TieMessage
  {
    VerdictMatchesResolve(a, b);
    VerdictMatchesResolve(b, a);
    ResolveComplementary(a, b);
    NameInjective(a, b);
  }
}
