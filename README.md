# Rock-paper-scissors: rules, score ledger and auto-play

A Dafny model of the game logic inside `main.js`, a browser script for
rock-paper-scissors. The player picks a move, the computer picks one from a
random number, the round is resolved into a win, a loss or a tie, and the
cumulative counters are kept in memory and mirrored in the browser's storage
under one key. An auto-play control starts or stops a repeating timer that
plays rounds on the player's behalf.

The model has five modules:

- `Wrappers`: `Option`. `None` stands for the script's empty string (no move,
  no result) and for an absent storage entry.
- `Rules`: `Move`, `Outcome`, the outcome table `Resolve`, and
  `PickComputerMove`, which maps a random number to a move. The table is
  checked against an independent definition of the rule: `Beats(a, b)`
  holds when `a` is one step after `b` on the cycle rock, paper, scissors.
  The three bands of [0, 1) are shown to be of equal width and to tile the
  interval.
- `Scores`: the `Score` record, the load-with-fallback of start-up, the
  one-counter `Bump` of a round and the `Ledger` state (score plus storage
  entry) with its transitions `Loaded`, `Recorded` and `Cleared`. The class
  `ScoreLedger` holds the mutable counters and the storage entry. Its methods
  are specified by those transitions. The key invariant is that reloading
  from storage always reproduces the in-memory score (`Synced`). It holds at
  start-up and after any series of rounds and resets, on the assumption that
  this page is the only writer of the storage entry and that storage never
  fails (see "Left out").
- `AutoPlay`: the two-state switch, combined with the browser's table of
  live interval timers (`Timers`, class `AutoPlayer`). Each press flips the
  switch. A press starts a timer only when idle and cancels the remembered
  one only when running, so at most one timer is ever live.
- `Game`: `PlayGame` (one round against the ledger), `AutoPlayTick` (the
  body of the timer callback) and the keyboard mapping `KeyAction`.

Inputs from the environment are parameters. The random number of each pick
is a `real` argument. The storage entry is a field of type `Option<Score>`.
The browser's next interval id is part of the timer state.

## Model

| member | source | states |
|---|---|---|
| `Rules.Resolve` | main.js:101-127 | a tie exactly when the moves are equal; a win exactly when the player's move beats the computer's by the cyclic rule; a loss exactly when the computer's move beats the player's |
| `Rules.EqualMovesTie` | main.js:101-127 | equal moves always tie |
| `Rules.ResolveAntisymmetric` | main.js:101-127 | swapping the moves swaps win and loss and keeps a tie; for distinct moves a win one way is a loss the other way |
| `Rules.BeatsExactlyOne` | main.js:101-127 | each move beats exactly one move (rock beats scissors, paper beats rock, scissors beats paper) and loses to exactly one |
| `Rules.PickComputerMove` | main.js:161-174 | a move is produced exactly when the number lies in [0, 1), never the empty move there, and the move produced is the one whose band contains the number |
| `Rules.Lower` | main.js:165-171 | the band of the move at cycle position i starts at i/3 |
| `Rules.PickInBand` | main.js:165-171 | every number in a move's band picks that move, so the bands are disjoint |
| `Rules.BandsTile` | main.js:165-171 | the three bands, each of width 1/3, follow each other without gap from 0 to 1 |
| `Scores.Load` | main.js:2-6 | with no stored entry the score is zeros; otherwise it is the stored record |
| `Scores.Loaded` | main.js:2-6 | the start-up ledger is in sync with storage and is all zeros when storage is empty |
| `Scores.Bump` | main.js:130-136 | a result bumps exactly its own counter by one and leaves the other two unchanged; an empty result changes nothing |
| `Scores.TallyCounts` | main.js:130-136 | over a series of rounds each counter grows by exactly the number of rounds with its outcome |
| `Scores.TallyTotal` | main.js:130-136 | every decided round adds one to the total, no counter goes down, and N rounds with real moves add exactly N |
| `Scores.Recorded` | main.js:130-139 | after a round, decided or not, the score is the bumped score and the storage entry holds exactly that score |
| `Scores.ReloadAfterRecord` | main.js:139 | loading from storage right after a round yields the bumped counters |
| `Scores.Cleared` | main.js:177-181 | after a reset the score is zeros and the storage entry is gone |
| `Scores.ClearedIdempotent` | main.js:177-181 | resetting twice is resetting once, and a load after a reset yields zeros |
| `Scores.RunFromSynced` | main.js:130-181 | from a ledger in sync with storage, any series of rounds and resets keeps it in sync |
| `Scores.RunKeepsSynced` | main.js:2-6 | starting from whatever storage holds, after any series of rounds and resets reloading reproduces the in-memory score |
| `Scores.RunWithoutReset` | main.js:130-136 | a series of rounds with no reset leaves the tally of the round results |
| `Scores.ScoreLedger.constructor` | main.js:2-6 | the counters are the loaded score and the storage entry is as found |
| `Scores.ScoreLedger.Record` | main.js:130-139 | the new state is the recorded transition of the old state: one counter bumped, then the score saved |
| `Scores.ScoreLedger.Reset` | main.js:177-181 | the three counters are zero and the storage entry is removed |
| `AutoPlay.Idle` | main.js:23-27 | at start-up the switch is off and no timer is live |
| `AutoPlay.Toggled` | main.js:30-53 | each press flips the switch; a press adds a live timer exactly when the switch was off and removes one exactly when it was on; at most one timer is live afterwards |
| `AutoPlay.ToggleRunAlternates` | main.js:30-53 | after n presses the switch is flipped n times, and at most one timer is live throughout |
| `AutoPlay.OnThenOff` | main.js:30-53 | pressing start and then stop leaves no live timer |
| `AutoPlay.AutoPlayer.constructor` | main.js:23-27 | the globals start idle, with no interval id |
| `AutoPlay.AutoPlayer.Toggle` | main.js:30-53 | the new state is the toggled transition of the old state, and at most one timer is live |
| `Game.RoundResult` | main.js:98-127 | the result is empty exactly when one of the moves is the empty move, and otherwise it is the table's outcome |
| `Game.PlayGame` | main.js:94-139 | the computer's move is picked from the random number, the result resolved, the ledger recorded and in sync with storage |
| `Game.AutoPlayTick` | main.js:33-36 | the player's move is picked like the computer's, and a round is played that is always decided when both numbers are in [0, 1) |
| `Rules.InitialsDistinct` | main.js:79-90 | the move names start with 'r', 'p' and 's', three distinct letters, so a move key names exactly one move |
| `Game.KeyAction` | main.js:79-90 | a move's key is the first letter of its name, 'a' toggles auto-play, Backspace asks to reset, every other key does nothing |

## Left out

- Page rendering: the score line, the result text, the move images, the auto-play button label and the reset confirmation dialog. These are display output with no logic. Only the confirmation's effect, a call of `Reset`, is modelled.
- Button and key wiring (`addEventListener`). The key-to-action mapping itself is `KeyAction`.
- Timer scheduling. The one-second cadence and the browser's callback queue are not modelled, only which timers are live. `AutoPlayTick` is the body a firing runs.
- `Math.random` and the claim that the three moves are equally likely. The random number is a parameter. The model proves only that the three bands have equal width.
- Rules.PickComputerMove: uses exact reals, while the script compares IEEE doubles against the doubles nearest 1/3 and 2/3. The band edges can therefore differ from the model's by one unit in the last place.
- Scores.Load: storage is an abstract `Option<Score>`, not JSON text. The script's `JSON.parse` throws on malformed text rather than falling back to zeros. Stored text that parses to a falsy value, or to an object missing a field, is also not modelled.
- Storage belongs to this page alone and never fails: other tabs of the same origin writing the key, cleared site data and a `getItem` or `setItem` that throws (quota exceeded, storage blocked) are not modelled. `Synced` holds only under that assumption; a throwing save would leave the bumped in-memory score unsaved.
- Counter width: JavaScript numbers are doubles, so counting stops being exact past 2^53. The counters here are unbounded `nat`.
