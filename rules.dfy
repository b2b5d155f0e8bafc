/** The game rules: which move beats which, and how a random number in
    [0, 1) becomes the computer's move. */
module Rules {
  import opened Wrappers

  datatype Move = Rock | Paper | Scissors

  /** Always from the player's point of view. */
  datatype Outcome = Win | Lose | Tie

  /** The move's name as the script spells it. */
  function MoveName(m: Move): (s: string)
    ensures |s| > 0
  {
    match m
    case Rock => "rock"
    case Paper => "paper"
    case Scissors => "scissors"
  }

  /** The three names start with the distinct letters 'r', 'p' and 's', so
      a move is determined by its initial. */
  lemma InitialsDistinct(a: Move, b: Move)
    ensures MoveName(a)[0] in {'r', 'p', 's'}
    ensures MoveName(a)[0] == MoveName(b)[0] <==> a == b
  {
  }

  /** Position of a move on the cycle rock -> paper -> scissors -> rock,
      where each move beats the one just before it. */
  function Index(m: Move): (i: nat)
    ensures i < 3
  {
    match m
    case Rock => 0
    case Paper => 1
    case Scissors => 2
  }

  /** Reference definition of the rule, independent of the table below:
      `a` beats `b` when `a` sits one step after `b` on the cycle. */
  predicate Beats(a: Move, b: Move) {
    (Index(a) - Index(b)) % 3 == 1
  }

  /** The move that `a` beats. */
  function Prey(a: Move): (b: Move) {
    match a
    case Rock => Scissors
    case Paper => Rock
    case Scissors => Paper
  }

  /** The same round seen from the other side of the table. */
  function Reverse(o: Outcome): (r: Outcome) {
    match o
    case Win => Lose
    case Lose => Win
    case Tie => Tie
  }

  /** The outcome table of a round, player move first, as the nested
      branches of the script's round function lay it out. */
  function Resolve(player: Move, computer: Move): (r: Outcome)
    ensures r == Tie <==> player == computer
    ensures r == Win <==> Beats(player, computer)
    ensures r == Lose <==> Beats(computer, player)
  {
    match player
    case Scissors =>
      (match computer
       case Rock => Lose
       case Paper => Win
       case Scissors => Tie)
    case Paper =>
      (match computer
       case Rock => Win
       case Paper => Tie
       case Scissors => Lose)
    case Rock =>
      (match computer
       case Rock => Tie
       case Paper => Lose
       case Scissors => Win)
  }

  /** Equal moves always tie. */
  lemma EqualMovesTie(m: Move)
    ensures Resolve(m, m) == Tie
  {
  }

  /** Swapping the two moves swaps win and lose. */
  lemma ResolveAntisymmetric(a: Move, b: Move)
    ensures Resolve(b, a) == Reverse(Resolve(a, b))
    ensures a != b ==> (Resolve(a, b) == Win <==> Resolve(b, a) == Lose)
  {
  }

  /** Each move beats exactly one move and loses to exactly one move. */
  lemma BeatsExactlyOne(a: Move, b: Move)
    ensures Beats(a, Prey(a)) && Beats(Prey(Prey(a)), a)
    ensures Beats(a, b) <==> b == Prey(a)
    ensures Beats(b, a) <==> b == Prey(Prey(a))
  {
  }

  /** Width of each of the three bands of [0, 1). */
  const Width: real := 1.0 / 3.0

  /** Lower end of the band of random numbers that picks `m`. */
  function Lower(m: Move): (lo: real)
    ensures lo == Index(m) as real * Width
  {
    match m
    case Rock => 0.0
    case Paper => 1.0 / 3.0
    case Scissors => 2.0 / 3.0
  }

  /** The computer's move for the random number `x`. A number outside
      [0, 1) falls through every band and gives no move. */
  function PickComputerMove(x: real): (r: Option<Move>)
    ensures r.Some? <==> 0.0 <= x < 1.0
    ensures r.Some? ==> Lower(r.value) <= x < Lower(r.value) + Width
  {
    if 0.0 <= x && x < 1.0 / 3.0 then Some(Rock)
    else if 1.0 / 3.0 <= x && x < 2.0 / 3.0 then Some(Paper)
    else if 2.0 / 3.0 <= x && x < 1.0 then Some(Scissors)
    else None
  }

  /** Every number in a move's band picks that move, so the bands are
      disjoint; with the contract of PickComputerMove they tile [0, 1). */
  lemma PickInBand(x: real, m: Move)
    requires Lower(m) <= x < Lower(m) + Width
    ensures PickComputerMove(x) == Some(m)
  {
  }

  /** The bands follow each other without gap from 0 to 1. */
  lemma BandsTile()
    ensures Lower(Rock) == 0.0
    ensures Lower(Rock) + Width == Lower(Paper)
    ensures Lower(Paper) + Width == Lower(Scissors)
    ensures Lower(Scissors) + Width == 1.0
  {
  }
}
