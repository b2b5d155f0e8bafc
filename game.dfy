/** One round of the game, the callback of the auto-play timer, and the
    keyboard shortcuts. */
module Game {
  import opened Wrappers
  import opened Rules
  import opened Scores

  /** The round's result: empty unless both moves are real moves. */
  function RoundResult(player: Option<Move>, computer: Option<Move>): (r: Option<Outcome>)
    ensures r.Some? <==> player.Some? && computer.Some?
    ensures r.Some? ==> r.value == Resolve(player.value, computer.value)
  {
    if player.Some? && computer.Some? then Some(Resolve(player.value, computer.value)) else None
  }

  /** A round against the computer, whose move comes from `random`. A
      decided result bumps one counter; the score is saved either way. */
  method PlayGame(ledger: ScoreLedger, playerMove: Option<Move>, random: real)
    returns (computerMove: Option<Move>, result: Option<Outcome>)
    modifies ledger
    ensures computerMove == PickComputerMove(random)
    ensures result == RoundResult(playerMove, computerMove)
    ensures ledger.State() == Recorded(old(ledger.State()), result)
    ensures ledger.Valid()
  {
    computerMove := PickComputerMove(random);
    result := RoundResult(playerMove, computerMove);
    ledger.Record(result);
  }

  /** One firing of the auto-play timer: the player's move is picked the
      same way as the computer's, then a round is played. */
  method AutoPlayTick(ledger: ScoreLedger, playerRandom: real, computerRandom: real)
    returns (playerMove: Option<Move>, computerMove: Option<Move>, result: Option<Outcome>)
    modifies ledger
    ensures playerMove == PickComputerMove(playerRandom)
    ensures computerMove == PickComputerMove(computerRandom)
    ensures result == RoundResult(playerMove, computerMove)
    ensures (0.0 <= playerRandom < 1.0 && 0.0 <= computerRandom < 1.0) ==> result.Some?
    ensures ledger.State() == Recorded(old(ledger.State()), result)
    ensures ledger.Valid()
  {
    playerMove := PickComputerMove(playerRandom);
    computerMove, result := PlayGame(ledger, playerMove, computerRandom);
  }

  /** What a key press asks for. */
  datatype Action = PlayMove(move: Move) | ToggleAutoPlay | AskReset

  /** The keyboard shortcuts: a move's key is the first letter of its name,
      'a' toggles auto-play and Backspace asks to reset. Other keys do
      nothing. */
  function KeyAction(key: string): (a: Option<Action>)
    ensures forall m :: a == Some(PlayMove(m)) <==> key == [MoveName(m)[0]]
    ensures a == Some(ToggleAutoPlay) <==> key == "a"
    ensures a == Some(AskReset) <==> key == "Backspace"
    ensures a.None? <==> key !in {"r", "p", "s", "a", "Backspace"}
  {
    if key == "r" then Some(PlayMove(Rock))
    else if key == "p" then Some(PlayMove(Paper))
    else if key == "s" then Some(PlayMove(Scissors))
    else if key == "a" then Some(ToggleAutoPlay)
    else if key == "Backspace" then Some(AskReset)
    else None
  }
}
