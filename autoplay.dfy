/** The auto-play switch: a two-state machine that starts one repeating
    timer when idle and cancels it when running. */
module AutoPlay {
  import opened Wrappers

  /** The switch together with the browser's table of live interval timers.
      `intervalId` is the id last handed out to the script; it keeps its
      stale value after the timer is cancelled. `nextId` is the id the
      browser hands out on the next start. */
  datatype Timers = Timers(isAutoPlaying: bool, intervalId: Option<nat>, active: set<nat>, nextId: nat)

  /** Running means exactly the timer the script remembers is live; idle
      means no timer is live. */
  predicate Consistent(t: Timers) {
    (t.isAutoPlaying ==> t.intervalId.Some? && t.active == {t.intervalId.value}) &&
    (!t.isAutoPlaying ==> t.active == {})
  }

  /** The page at start-up: not playing, no timer, no id remembered. */
  function Idle(nextId: nat): (t: Timers)
    ensures Consistent(t) && !t.isAutoPlaying && t.active == {}
  {
    Timers(false, None, {}, nextId)
  }

  /** One press of the auto-play control. */
  function Toggled(t: Timers): (r: Timers)
    ensures r.isAutoPlaying == !t.isAutoPlaying
    ensures Consistent(t) ==> Consistent(r) && |r.active| <= 1
    ensures Consistent(t) ==> (t.active < r.active <==> !t.isAutoPlaying)
    ensures Consistent(t) ==> (r.active < t.active <==> t.isAutoPlaying)
  {
    if !t.isAutoPlaying then
      Timers(true, Some(t.nextId), t.active + {t.nextId}, t.nextId + 1)
    else
      var cleared := if t.intervalId.Some? then t.active - {t.intervalId.value} else t.active;
      Timers(false, t.intervalId, cleared, t.nextId)
  }

  /** `n` presses in a row. */
  function ToggleRun(t: Timers, n: nat): (r: Timers)
    decreases n
  {
    if n == 0 then t else ToggleRun(Toggled(t), n - 1)
  }

  /** However often the control is pressed, the switch alternates and at
      most one timer is ever live. */
  lemma {:induction false} ToggleRunAlternates(t: Timers, n: nat)
    requires Consistent(t)
    ensures Consistent(ToggleRun(t, n))
    ensures |ToggleRun(t, n).active| <= 1
    ensures ToggleRun(t, n).isAutoPlaying == (t.isAutoPlaying != (n % 2 == 1))
    decreases n
  {
    if n > 0 {
      ToggleRunAlternates(Toggled(t), n - 1);
    }
  }

  /** Starting and then stopping leaves the switch off and no timer
      live. */
  lemma OnThenOff(t: Timers)
    requires Consistent(t) && !t.isAutoPlaying
    ensures Toggled(Toggled(t)).active == {}
    ensures !Toggled(Toggled(t)).isAutoPlaying
  {
  }

  /** The script's auto-play globals and the browser timers they drive. */
  class AutoPlayer {
    var isAutoPlaying: bool
    var intervalId: Option<nat>
    var active: set<nat>
    var nextId: nat

    function State(): (t: Timers)
      reads this
    {
      Timers(isAutoPlaying, intervalId, active, nextId)
    }

    predicate Valid()
      reads this
    {
      Consistent(State())
    }

    /** `firstId` is the id the browser will hand out first. */
    constructor (firstId: nat)
      ensures State() == Idle(firstId)
      ensures Valid()
    {
      isAutoPlaying := false;
      intervalId := None;
      active := {};
      nextId := firstId;
    }

    /** Start a repeating timer when idle, cancel the remembered one when
        running, and flip the switch. */
    method Toggle()
      requires Valid()
      modifies this
      ensures State() == Toggled(old(State()))
      ensures Valid() && |active| <= 1
    {
      if !isAutoPlaying {
        intervalId := Some(nextId);
        active := active + {nextId};
        nextId := nextId + 1;
        isAutoPlaying := true;
      } else {
        if intervalId.Some? {
          active := active - {intervalId.value};
        }
        isAutoPlaying := false;
      }
    }
  }
}
