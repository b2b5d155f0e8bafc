/** The score ledger: three counters kept in memory and mirrored in a
    single storage entry. */
module Scores {
  import opened Wrappers
  import opened Rules

  datatype Score = Score(wins: nat, losses: nat, ties: nat)

  const Zero: Score := Score(0, 0, 0)

  /** The counter that an outcome bumps. */
  function Count(s: Score, o: Outcome): (n: nat) {
    match o
    case Win => s.wins
    case Lose => s.losses
    case Tie => s.ties
  }

  function Total(s: Score): (n: nat) {
    s.wins + s.losses + s.ties
  }

  /** The score read at start-up from the storage entry: the stored record,
      or zeros when the entry is absent. */
  function Load(stored: Option<Score>): (s: Score)
    ensures stored.None? ==> s == Zero
    ensures stored.Some? ==> s == stored.value
  {
    stored.GetOr(Zero)
  }

  /** One round's effect on the counters: a result bumps exactly its own
      counter by one; an empty result bumps nothing. */
  function Bump(s: Score, result: Option<Outcome>): (r: Score)
    ensures result.None? ==> r == s
    ensures result.Some? ==> Count(r, result.value) == Count(s, result.value) + 1
    ensures result.Some? ==> forall o :: o != result.value ==> Count(r, o) == Count(s, o)
  {
    match result
    case None => s
    case Some(Win) => s.(wins := s.wins + 1)
    case Some(Lose) => s.(losses := s.losses + 1)
    case Some(Tie) => s.(ties := s.ties + 1)
  }

  /** The counters after a series of rounds with the given results. */
  function Tally(s: Score, results: seq<Option<Outcome>>): (r: Score)
    decreases |results|
  {
    if |results| == 0 then s else Tally(Bump(s, results[0]), results[1..])
  }

  /** How many of `results` equal `x`. */
  function Occurrences(results: seq<Option<Outcome>>, x: Option<Outcome>): (n: nat)
    decreases |results|
  {
    if |results| == 0 then 0
    else (if results[0] == x then 1 else 0) + Occurrences(results[1..], x)
  }

  /** Over a series of rounds each counter grows by exactly the number of
      rounds that had its outcome. */
  lemma {:induction false} TallyCounts(s: Score, results: seq<Option<Outcome>>, o: Outcome)
    ensures Count(Tally(s, results), o) == Count(s, o) + Occurrences(results, Some(o))
    decreases |results|
  {
    if |results| > 0 {
      TallyCounts(Bump(s, results[0]), results[1..], o);
    }
  }

  /** Every result is empty or one of the three outcomes. */
  lemma {:induction false} OccurrencesSplit(results: seq<Option<Outcome>>)
    ensures Occurrences(results, Some(Win)) + Occurrences(results, Some(Lose))
          + Occurrences(results, Some(Tie)) + Occurrences(results, None) == |results|
    decreases |results|
  {
    if |results| > 0 {
      OccurrencesSplit(results[1..]);
      match results[0] {
        case None =>
        case Some(Win) =>
        case Some(Lose) =>
        case Some(Tie) =>
      }
    }
  }

  /** A series with no empty result has no occurrence of the empty result. */
  lemma {:induction false} NoneAbsent(results: seq<Option<Outcome>>)
    requires forall i :: 0 <= i < |results| ==> results[i].Some?
    ensures Occurrences(results, None) == 0
    decreases |results|
  {
    if |results| > 0 {
      NoneAbsent(results[1..]);
    }
  }

  /** Every decided round adds one to the total and no counter goes down;
      when every round is decided, N rounds add exactly N. */
  lemma TallyTotal(s: Score, results: seq<Option<Outcome>>)
    ensures Total(Tally(s, results)) + Occurrences(results, None) == Total(s) + |results|
    ensures forall o :: Count(s, o) <= Count(Tally(s, results), o)
    ensures (forall i :: 0 <= i < |results| ==> results[i].Some?) ==>
              Total(Tally(s, results)) == Total(s) + |results|
  {
    TallyCounts(s, results, Win);
    TallyCounts(s, results, Lose);
    TallyCounts(s, results, Tie);
    OccurrencesSplit(results);
    forall o ensures Count(s, o) <= Count(Tally(s, results), o) {
      TallyCounts(s, results, o);
    }
    if forall i :: 0 <= i < |results| ==> results[i].Some? {
      NoneAbsent(results);
    }
  }

  /** The in-memory score together with the storage entry that mirrors it. */
  datatype Ledger = Ledger(score: Score, stored: Option<Score>)

  /** Reloading from storage would reproduce the in-memory score. */
  predicate Synced(l: Ledger) {
    Load(l.stored) == l.score
  }

  /** The ledger at start-up, read from whatever the storage entry holds. */
  function Loaded(stored: Option<Score>): (l: Ledger)
    ensures Synced(l) && l.stored == stored
    ensures stored.None? ==> l.score == Zero
  {
    Ledger(Load(stored), stored)
  }

  /** After a round: the score bumped by the result, then written out. */
  function Recorded(l: Ledger, result: Option<Outcome>): (r: Ledger)
    ensures Synced(r) && r.stored == Some(r.score)
    ensures r.score == Bump(l.score, result)
  {
    var s := Bump(l.score, result);
    Ledger(s, Some(s))
  }

  /** After a reset: zeros in memory, no storage entry. */
  function Cleared(l: Ledger): (r: Ledger)
    ensures Synced(r) && r.score == Zero && r.stored.None?
  {
    Ledger(Zero, None)
  }

  /** Saving after a round makes a reload reproduce the bumped counters. */
  lemma ReloadAfterRecord(l: Ledger, result: Option<Outcome>)
    ensures Load(Recorded(l, result).stored) == Bump(l.score, result)
  {
  }

  /** Resetting twice is resetting once, and a later load yields zeros. */
  lemma ClearedIdempotent(l: Ledger)
    ensures Cleared(Cleared(l)) == Cleared(l)
    ensures Load(Cleared(l).stored) == Zero
  {
  }

  /** What can happen to the ledger: a round with some result, or a reset. */
  datatype Event = Played(result: Option<Outcome>) | Reset

  function Step(l: Ledger, e: Event): (r: Ledger) {
    match e
    case Played(result) => Recorded(l, result)
    case Reset => Cleared(l)
  }

  function Run(l: Ledger, events: seq<Event>): (r: Ledger)
    decreases |events|
  {
    if |events| == 0 then l else Run(Step(l, events[0]), events[1..])
  }

  /** Whatever rounds and resets happen after start-up, reloading from
      storage at any point reproduces the in-memory score. */
  lemma {:induction false} RunKeepsSynced(stored: Option<Score>, events: seq<Event>)
    ensures Synced(Run(Loaded(stored), events))
    decreases |events|
  {
    RunFromSynced(Loaded(stored), events);
  }

  lemma {:induction false} RunFromSynced(l: Ledger, events: seq<Event>)
    requires Synced(l)
    ensures Synced(Run(l, events))
    decreases |events|
  {
    if |events| > 0 {
      RunFromSynced(Step(l, events[0]), events[1..]);
    }
  }

  /** Between resets the score only ever grows: rounds alone give the
      tally of their results. */
  lemma {:induction false} RunWithoutReset(l: Ledger, events: seq<Event>)
    requires forall i :: 0 <= i < |events| ==> events[i].Played?
    ensures Run(l, events).score == Tally(l.score, ResultsOf(events))
    decreases |events|
  {
    if |events| > 0 {
      RunWithoutReset(Step(l, events[0]), events[1..]);
      assert ResultsOf(events)[1..] == ResultsOf(events[1..]);
    }
  }

  function ResultsOf(events: seq<Event>): (rs: seq<Option<Outcome>>)
    requires forall i :: 0 <= i < |events| ==> events[i].Played?
    ensures |rs| == |events|
    ensures forall i :: 0 <= i < |events| ==> rs[i] == events[i].result
  {
    seq(|events|, i requires 0 <= i < |events| => events[i].result)
  }

  /** The score object and the storage entry of the page. */
  class ScoreLedger {
    var wins: nat
    var losses: nat
    var ties: nat
    /** The storage entry holding the saved score, if any. */
    var stored: Option<Score>

    function Current(): (s: Score)
      reads this
    {
      Score(wins, losses, ties)
    }

    function State(): (l: Ledger)
      reads this
    {
      Ledger(Current(), stored)
    }

    predicate Valid()
      reads this
    {
      Synced(State())
    }

    /** Start-up: read the storage entry, falling back to zeros. */
    constructor (storage: Option<Score>)
      ensures State() == Loaded(storage)
      ensures Valid()
    {
      var s := Load(storage);
      wins, losses, ties := s.wins, s.losses, s.ties;
      stored := storage;
    }

    /** Bump the counter of the round's result, then save the whole score. */
    method Record(result: Option<Outcome>)
      modifies this
      ensures State() == Recorded(old(State()), result)
      ensures Valid()
    {
      match result {
        case Some(Win) => wins := wins + 1;
        case Some(Lose) => losses := losses + 1;
        case Some(Tie) => ties := ties + 1;
        case None =>
      }
      stored := Some(Current());
    }

    /** Zero the three counters and delete the storage entry. */
    method Reset()
      modifies this
      ensures State() == Cleared(old(State()))
      ensures Valid()
    {
      wins := 0;
      losses := 0;
      ties := 0;
      stored := None;
    }
  }
}
