/**
 * Debounced pausing of consumption (services/pubsub-broadcaster/src/connectivity.ts).
 *
 * A timer fires at or after its deadline, not before; the peer count that each
 * notify and each timer callback polls is part of the event.
 */
module Connectivity {
  import opened Common

  datatype Config = Config(minConnectedPeers: int, stabilizationIntervalMs: nat)

  /** A scheduled callback with the side it was armed for. */
  datatype Timer = Timer(deadline: int, desiredPaused: bool)

  datatype Metrics = Metrics(pauseCount: nat, resumeCount: nat)

  datatype Monitor = Monitor(
    paused: bool,
    pendingDesiredPaused: Option<bool>,
    timer: Option<Timer>,
    metrics: Metrics)

  datatype State = State(now: int, monitor: Monitor)

  datatype Event =
    | Tick(ms: nat)
    | Notify(count: int)
    | TimerFires(count: int)
    | Stop

  /** Which side of the threshold a peer count is on: true asks for a pause. */
  predicate Low(c: Config, count: int) {
    count < c.minConnectedPeers
  }

  function Initial(c: Config): Monitor {
    Monitor(c.minConnectedPeers > 0, None, None, Metrics(0, 0))
  }

  function Cleared(m: Monitor): Monitor {
    m.(timer := None, pendingDesiredPaused := None)
  }

  function Applied(m: Monitor, desiredPaused: bool): Monitor {
    if desiredPaused == m.paused then m
    else m.(paused := desiredPaused,
            metrics := if desiredPaused then m.metrics.(pauseCount := m.metrics.pauseCount + 1)
                       else m.metrics.(resumeCount := m.metrics.resumeCount + 1))
  }

  function OnNotify(c: Config, m: Monitor, now: int, count: int): Monitor {
    var desired := Low(c, count);
    if desired == m.paused then Cleared(m)
    else if m.pendingDesiredPaused == Some(desired) then m
    else m.(pendingDesiredPaused := Some(desired), timer := Some(Timer(now + c.stabilizationIntervalMs, desired)))
  }

  function OnTimer(c: Config, m: Monitor, count: int): Monitor
    requires m.timer.Some?
  {
    var desired := m.timer.value.desiredPaused;
    if Low(c, count) == desired then Applied(Cleared(m), desired) else Cleared(m)
  }

  function Step(c: Config, s: State, e: Event): State {
    match e
    case Tick(ms) => s.(now := s.now + ms)
    case Notify(count) => s.(monitor := OnNotify(c, s.monitor, s.now, count))
    case TimerFires(count) =>
      if s.monitor.timer.Some? && s.monitor.timer.value.deadline <= s.now then s.(monitor := OnTimer(c, s.monitor, count)) else s
    case Stop => s.(monitor := Cleared(s.monitor))
  }

  function Run(c: Config, s: State, es: seq<Event>): State {
    if es == [] then s else Step(c, Run(c, s, Front(es)), Last(es))
  }

  /** The state before event `i` of a trace from the start. */
  function At(c: Config, start: int, es: seq<Event>, i: nat): State
    requires i <= |es|
  {
    Run(c, State(start, Initial(c)), es[..i])
  }

  /** Event `i` pauses or resumes consumption. */
  predicate Changes(c: Config, start: int, es: seq<Event>, i: nat)
    requires i < |es|
  {
    At(c, start, es, i + 1).monitor.paused != At(c, start, es, i).monitor.paused
  }

  // ---------------------------------------------------------------------------
  // Safety over timed traces
  // ---------------------------------------------------------------------------

  /** Event `i` runs a timer callback: one was scheduled and its deadline has come. */
  predicate Fires(c: Config, start: int, es: seq<Event>, i: nat)
    requires i < |es|
  {
    var s := At(c, start, es, i);
    es[i].TimerFires? && s.monitor.timer.Some? && s.monitor.timer.value.deadline <= s.now
  }

  /** From event `i` on, every notify saw a count on one side of the minimum, below it if `low`, and nothing was stopped or fired. */
  ghost predicate Steady(c: Config, start: int, es: seq<Event>, i: nat, low: bool) {
    forall m :: i < m < |es| ==>
      && (es[m].Notify? ==> (es[m].count < c.minConnectedPeers <==> low))
      && !es[m].Stop?
      && !Fires(c, start, es, m)
  }

  /** A pending timer was armed by a notify of its own side, one interval before its deadline, and the trace has been steady since. */
  ghost predicate ArmedBy(c: Config, start: int, es: seq<Event>, i: nat, timer: Timer) {
    && i < |es|
    && es[i].Notify?
    && (es[i].count < c.minConnectedPeers <==> timer.desiredPaused)
    && timer.deadline == At(c, start, es, i).now + c.stabilizationIntervalMs
    && Steady(c, start, es, i, timer.desiredPaused)
  }

  ghost predicate Consistent(m: Monitor) {
    && (m.timer.Some? <==> m.pendingDesiredPaused.Some?)
    && (m.timer.Some? ==> m.pendingDesiredPaused == Some(m.timer.value.desiredPaused) && m.timer.value.desiredPaused != m.paused)
  }

  lemma PrefixAt(c: Config, start: int, es: seq<Event>, i: nat)
    requires es != [] && i < |es|
    ensures At(c, start, es, i) == At(c, start, Front(es), i)
    ensures i + 1 < |es| ==> Fires(c, start, es, i) == Fires(c, start, Front(es), i)
  {
    assert es[..i] == Front(es)[..i];
  }

  lemma LastStep(c: Config, start: int, es: seq<Event>)
    requires es != []
    ensures At(c, start, es, |es|) == Step(c, At(c, start, es, |es| - 1), Last(es))
  {
    assert es[..|es|] == es;
    assert Front(es) == es[..|es| - 1];
  }

  lemma SteadyExtends(c: Config, start: int, es: seq<Event>, i: nat, timer: Timer)
    requires es != [] && ArmedBy(c, start, Front(es), i, timer)
    requires Last(es).Notify? ==> (Last(es).count < c.minConnectedPeers <==> timer.desiredPaused)
    requires !Last(es).Stop? && !Fires(c, start, es, |es| - 1)
    ensures ArmedBy(c, start, es, i, timer)
  {
    PrefixAt(c, start, es, i);
    forall m | i < m < |es|
      ensures (es[m].Notify? ==> (es[m].count < c.minConnectedPeers <==> timer.desiredPaused)) && !es[m].Stop? && !Fires(c, start, es, m)
    {
      if m < |es| - 1 {
        assert es[m] == Front(es)[m];
        PrefixAt(c, start, es, m);
      }
    }
  }

  lemma {:induction false} PendingTimerIsArmed(c: Config, start: int, es: seq<Event>)
    ensures var m := At(c, start, es, |es|).monitor;
      Consistent(m) && (m.timer.Some? ==> exists i :: 0 <= i && ArmedBy(c, start, es, i, m.timer.value))
  {
    if es != [] {
      PendingTimerIsArmed(c, start, Front(es));
      LastStep(c, start, es);
      PrefixAt(c, start, es, |es| - 1);
      var before := At(c, start, es, |es| - 1);
      var after := At(c, start, es, |es|);
      if after.monitor.timer.Some? {
        if after.monitor.timer == before.monitor.timer {
          var i :| 0 <= i && ArmedBy(c, start, Front(es), i, before.monitor.timer.value);
          SteadyExtends(c, start, es, i, before.monitor.timer.value);
        } else {
          assert ArmedBy(c, start, es, |es| - 1, after.monitor.timer.value);
        }
      }
    }
  }

  lemma {:induction false} TimeAdvances(c: Config, start: int, es: seq<Event>, i: nat, j: nat)
    requires i <= j <= |es|
    ensures At(c, start, es, i).now <= At(c, start, es, j).now
    decreases j
  {
    if i < j {
      TimeAdvances(c, start, es, i, j - 1);
      assert Front(es[..j]) == es[..j - 1];
    }
  }

  /**
   * Event `i` is a notify, and its count, that of every notify since and the poll at `j` are all
   * below the minimum if consumption goes on at `j`, and none below it if it is paused; one
   * interval has passed, and nothing was stopped and no timer fired in between.
   */
  ghost predicate Justified(c: Config, start: int, es: seq<Event>, i: nat, j: nat)
    requires j < |es|
  {
    var low := !At(c, start, es, j).monitor.paused;
    && i < j
    && es[j].TimerFires? && (es[j].count < c.minConnectedPeers <==> low)
    && es[i].Notify? && (es[i].count < c.minConnectedPeers <==> low)
    && Steady(c, start, es[..j], i, low)
    && At(c, start, es, i).now + c.stabilizationIntervalMs <= At(c, start, es, j).now
  }

  /** The notify behind a change. */
  lemma ChangeIsJustified(c: Config, start: int, es: seq<Event>, j: nat) returns (i: nat)
    requires j < |es| && Changes(c, start, es, j)
    ensures Justified(c, start, es, i, j)
  {
    var before := At(c, start, es, j);
    assert Front(es[..j + 1]) == es[..j];
    assert es[..j][..j] == es[..j];
    PendingTimerIsArmed(c, start, es[..j]);
    i :| 0 <= i && ArmedBy(c, start, es[..j], i, before.monitor.timer.value);
    assert es[..j][..i] == es[..i];
  }

  /** While the trace is steady, the change that a notify of the other side asked for stays scheduled. */
  lemma {:induction false} SteadyKeepsTimer(c: Config, start: int, es: seq<Event>, i: nat)
    requires i < |es| && es[i].Notify?
    requires Steady(c, start, es, i, (es[i].count < c.minConnectedPeers))
    requires At(c, start, es, |es|).monitor.paused != (es[i].count < c.minConnectedPeers)
    ensures var m := At(c, start, es, |es|).monitor;
      && m.timer.Some? && m.timer.value.desiredPaused == (es[i].count < c.minConnectedPeers)
      && m.timer.value.deadline <= At(c, start, es, i).now + c.stabilizationIntervalMs
  {
    LastStep(c, start, es);
    PendingTimerIsArmed(c, start, Front(es));
    PrefixAt(c, start, es, |es| - 1);
    if i < |es| - 1 {
      forall m | i < m < |es| - 1
        ensures (es[m].Notify? ==> (es[m].count < c.minConnectedPeers) == (es[i].count < c.minConnectedPeers)) && !es[m].Stop? && !Fires(c, start, Front(es), m)
      {
        PrefixAt(c, start, es, m);
      }
      assert !Fires(c, start, es, |es| - 1);
      PrefixAt(c, start, es, i);
      SteadyKeepsTimer(c, start, Front(es), i);
    } else {
      if At(c, start, es, i).monitor.timer.Some? {
        var h :| 0 <= h && ArmedBy(c, start, Front(es), h, At(c, start, es, i).monitor.timer.value);
        PrefixAt(c, start, es, h);
        TimeAdvances(c, start, es, h, i);
      }
    }
  }

  /** An event changes the applied state exactly when an earlier notify justifies it. */
  lemma ChangesExactlyWhenJustified(c: Config, start: int, es: seq<Event>, j: nat)
    requires j < |es|
    ensures Changes(c, start, es, j) <==> exists i: nat :: Justified(c, start, es, i, j)
  {
    assert Front(es[..j + 1]) == es[..j] && es[..j][..j] == es[..j];
    if Changes(c, start, es, j) {
      var i := ChangeIsJustified(c, start, es, j);
    }
    if i: nat :| Justified(c, start, es, i, j) {
      assert es[..j][..i] == es[..i];
      SteadyKeepsTimer(c, start, es[..j], i);
    }
  }

  /** Any two changes are at least one interval apart. */
  lemma ChangesAreSpaced(c: Config, start: int, es: seq<Event>, j: nat, k: nat)
    requires j < k < |es| && Changes(c, start, es, j) && Changes(c, start, es, k)
    ensures At(c, start, es, j).now + c.stabilizationIntervalMs <= At(c, start, es, k).now
  {
    var h := ChangeIsJustified(c, start, es, j);
    var i := ChangeIsJustified(c, start, es, k);
    if i < j {
      assert es[..k][..j] == es[..j] && es[..k][..j + 1] == es[..j + 1];
      assert Front(es[..j + 1]) == es[..j];
      assert Fires(c, start, es[..k], j);
    }
    TimeAdvances(c, start, es, j, i);
  }

  // ---------------------------------------------------------------------------
  // A side that lasts is applied
  // ---------------------------------------------------------------------------

  /** Time passing and notifies of one side only. */
  ghost predicate OnlySide(c: Config, es: seq<Event>, low: bool) {
    forall e <- es :: e.Tick? || (e.Notify? && (e.count < c.minConnectedPeers <==> low))
  }

  lemma {:induction false} WaitingKeepsTimer(c: Config, s: State, es: seq<Event>, low: bool)
    requires Consistent(s.monitor) && s.monitor.paused != low && s.monitor.timer.Some? && OnlySide(c, es, low)
    ensures Run(c, s, es).monitor == s.monitor && s.now <= Run(c, s, es).now
  {
    if es != [] {
      assert Last(es) in es && forall e <- Front(es) :: e in es;
      WaitingKeepsTimer(c, s, Front(es), low);
    }
  }

  /** Once a notify sees the other side, the change follows if that side lasts until a timer fires an interval later. */
  lemma LastingSideIsApplied(c: Config, s: State, seen: int, wait: seq<Event>, polled: int)
    requires Consistent(s.monitor) && s.monitor.timer.None?
    requires var low := !s.monitor.paused;
      && (seen < c.minConnectedPeers <==> low) && (polled < c.minConnectedPeers <==> low) && OnlySide(c, wait, low)
    requires Run(c, Step(c, s, Notify(seen)), wait).now >= s.now + c.stabilizationIntervalMs
    ensures Step(c, Run(c, Step(c, s, Notify(seen)), wait), TimerFires(polled)).monitor.paused != s.monitor.paused
  {
    WaitingKeepsTimer(c, Step(c, s, Notify(seen)), wait, !s.monitor.paused);
  }

  /** The poll of the last change was below the minimum; before the first change, some peer is required. */
  predicate LastPollWasLow(c: Config, start: int, es: seq<Event>) {
    if es == [] then c.minConnectedPeers > 0
    else if Changes(c, start, es, |es| - 1) then Last(es).TimerFires? && Last(es).count < c.minConnectedPeers
    else LastPollWasLow(c, start, Front(es))
  }

  /** Consumption is paused exactly in that case. */
  lemma {:induction false} PausedExactlyAfterALowPoll(c: Config, start: int, es: seq<Event>)
    ensures At(c, start, es, |es|).monitor.paused <==> LastPollWasLow(c, start, es)
  {
    if es != [] {
      PausedExactlyAfterALowPoll(c, start, Front(es));
      PrefixAt(c, start, es, |es| - 1);
      assert es[..|es|] == es;
    } else {
      assert es[..0] == [];
    }
  }

  function One(b: bool): nat {
    if b then 1 else 0
  }

  function ChangeCount(c: Config, start: int, es: seq<Event>): nat {
    if es == [] then 0 else ChangeCount(c, start, Front(es)) + One(Changes(c, start, es, |es| - 1))
  }

  /** The counters account for every change: together they number the changes, and their difference is that from the initial state. */
  lemma {:induction false} CountersFollowChanges(c: Config, start: int, es: seq<Event>)
    ensures var m := At(c, start, es, |es|).monitor;
      && m.metrics.pauseCount + m.metrics.resumeCount == ChangeCount(c, start, es)
      && m.metrics.pauseCount - m.metrics.resumeCount == One(m.paused) - One(c.minConnectedPeers > 0)
  {
    if es != [] {
      CountersFollowChanges(c, start, Front(es));
      assert es[..|es|] == es;
      LastStep(c, start, es);
      PrefixAt(c, start, es, |es| - 1);
    }
  }

  // ---------------------------------------------------------------------------
  // The monitor itself
  // ---------------------------------------------------------------------------

  class ConnectivityMonitor {
    const config: Config
    var paused: bool
    var pendingDesiredPaused: Option<bool>
    var timer: Option<Timer>
    var pauseCount: nat
    var resumeCount: nat

    ghost function View(): Monitor
      reads this
    {
      Monitor(paused, pendingDesiredPaused, timer, Metrics(pauseCount, resumeCount))
    }

    constructor (config: Config)
      ensures this.config == config && View() == Initial(config)
    {
      this.config := config;
      paused := config.minConnectedPeers > 0;
      pendingDesiredPaused, timer := None, None;
      pauseCount, resumeCount := 0, 0;
    }

    method ClearPending()
      modifies this
      ensures View() == Cleared(old(View()))
    {
      if timer.Some? {
        timer := None;
      }
      pendingDesiredPaused := None;
    }

    method ApplyState(desiredPaused: bool)
      modifies this
      ensures View() == Applied(old(View()), desiredPaused)
    {
      if desiredPaused == paused {
        return;
      }
      paused := desiredPaused;
      if paused {
        pauseCount := pauseCount + 1;
      } else {
        resumeCount := resumeCount + 1;
      }
    }

    method Notify(count: int, now: int)
      modifies this
      ensures View() == OnNotify(config, old(View()), now, count)
    {
      var desiredPaused := count < config.minConnectedPeers;
      if desiredPaused == paused {
        ClearPending();
        return;
      }
      if pendingDesiredPaused == Some(desiredPaused) {
        return;
      }
      ClearPending();
      pendingDesiredPaused := Some(desiredPaused);
      timer := Some(Timer(now + config.stabilizationIntervalMs, desiredPaused));
    }

    /** The callback of a timer that has fired. */
    method TimerCallback(count: int)
      requires timer.Some?
      modifies this
      ensures View() == OnTimer(config, old(View()), count)
    {
      var desiredPaused := timer.value.desiredPaused;
      timer := None;
      var stillDesired := count < config.minConnectedPeers;
      pendingDesiredPaused := None;
      if stillDesired == desiredPaused {
        ApplyState(desiredPaused);
      }
    }

    method Stop()
      modifies this
      ensures View() == Cleared(old(View()))
    {
      ClearPending();
    }
  }
}
