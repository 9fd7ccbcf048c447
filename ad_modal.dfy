/**
 * The advertisement gate of src/components/AdModal.tsx.
 *
 * Opening the dialog resets the session and starts a 100 ms interval; each
 * tick advances the elapsed time by 0.1 s and derives `progress` (percent) and
 * `countdown` (whole seconds left) from it; the interval stops once 5 s have
 * elapsed. Dismissing the dialog early records one skip, guarded by the
 * `adSkipped` flag; the "Proceed" button is disabled below 100 % and its
 * handler records a watch only at 100 %.
 *
 * Time is counted in whole ticks `t` (one tick is 0.1 s), so progress is
 * `min(100, 2 t)` and the countdown `max(0, 5 - t / 10)`.
 *
 * The pure functions over `Session` specify one handler each; the class `Gate`
 * holds the component's state slots and runs the same handlers in place.
 */
module AdModal {
  import Analytics

  /** `AD_DURATION_SECONDS`. */
  const AD_DURATION_SECONDS: int := 5
  /** Interval ticks per second (one tick every 100 ms). */
  const TICKS_PER_SECOND: int := 10
  /** The tick at which the ad has played for its full duration. */
  const AD_DURATION_TICKS: int := AD_DURATION_SECONDS * TICKS_PER_SECOND

  // ---------------------------------------------------------------------------
  // Values derived from elapsed time
  // ---------------------------------------------------------------------------

  /** `progress` after `t` ticks: `(elapsed / 5) * 100`, capped at 100. */
  function ProgressAt(t: nat): (p: int)
    ensures 0 <= p <= 100
    ensures p == 100 <==> t >= AD_DURATION_TICKS
    ensures t <= AD_DURATION_TICKS ==> p * AD_DURATION_TICKS == 100 * t
  {
    var current := 100 * t / AD_DURATION_TICKS;
    if current > 100 then 100 else current
  }

  /** `countdown` after `t` ticks: `max(0, 5 - floor(elapsed))`. */
  function CountdownAt(t: nat): (c: int)
    ensures 0 <= c <= AD_DURATION_SECONDS
    ensures c == 0 <==> t >= AD_DURATION_TICKS
    ensures t < AD_DURATION_TICKS ==> c + t / TICKS_PER_SECOND == AD_DURATION_SECONDS
  {
    var left := AD_DURATION_SECONDS - t / TICKS_PER_SECOND;
    if left > 0 then left else 0
  }

  /** Progress never decreases and the countdown never increases as ticks go by. */
  lemma MonotoneInTime(t1: nat, t2: nat)
    requires t1 <= t2
    ensures ProgressAt(t1) <= ProgressAt(t2)
    ensures CountdownAt(t1) >= CountdownAt(t2)
  {
  }

  // ---------------------------------------------------------------------------
  // One gate session as a value
  // ---------------------------------------------------------------------------

  /**
   * The component's state slots `progress`, `countdown` and `adSkipped`, the
   * interval's local `elapsed` (in ticks) and whether the interval is running.
   */
  datatype Session = Session(
    elapsed: nat,
    progress: int,
    countdown: int,
    adSkipped: bool,
    timerActive: bool)

  /** The callbacks the gate calls on its parent. */
  datatype Callback = OnAdWatched | OnClose

  /**
   * What a handler does: the next session, whether it calls
   * `incrementAdsSkipped` and `incrementAdsWatched`, and the parent callbacks
   * it calls, in order.
   */
  datatype Outcome = Outcome(next: Session, skip: bool, watch: bool, calls: seq<Callback>)

  /**
   * The displayed values agree with the elapsed time, which never passes the
   * full duration, and the interval runs only before the full duration.
   */
  ghost predicate Consistent(s: Session)
  {
    && s.progress == ProgressAt(s.elapsed)
    && s.countdown == CountdownAt(s.elapsed)
    && s.elapsed <= AD_DURATION_TICKS
    && (s.timerActive ==> s.elapsed < AD_DURATION_TICKS)
  }

  /** The state before the gate has ever opened: the `useState` initial values. */
  function Initial(): (r: Session)
    ensures r.elapsed == 0 && r.progress == 0 && r.countdown == AD_DURATION_SECONDS
    ensures !r.adSkipped && !r.timerActive
    ensures Consistent(r)
  {
    Session(0, 0, AD_DURATION_SECONDS, false, false)
  }

  /**
   * The open effect: progress 0, countdown 5, not skipped, and a new interval
   * with `elapsed = 0`, whatever the previous session was.
   */
  function AfterOpen(): (r: Session)
    ensures r.progress == 0 && r.countdown == AD_DURATION_SECONDS && !r.adSkipped
    ensures r.timerActive && r.elapsed == 0
    ensures Consistent(r)
  {
    Session(0, 0, AD_DURATION_SECONDS, false, true)
  }

  /**
   * One interval callback. A stopped interval does nothing; a running one
   * advances elapsed by one tick, recomputes progress and countdown, and stops
   * itself once the full duration has elapsed.
   */
  function AfterTick(s: Session): (r: Session)
    ensures !s.timerActive ==> r == s
    ensures s.timerActive ==> r.elapsed == s.elapsed + 1
    ensures r.adSkipped == s.adSkipped
    ensures r.timerActive <==> s.timerActive && s.elapsed + 1 < AD_DURATION_TICKS
    ensures Consistent(s) ==> Consistent(r)
    ensures Consistent(s) ==> s.progress <= r.progress && r.countdown <= s.countdown
  {
    if !s.timerActive then s
    else
      var e := s.elapsed + 1;
      Session(e, ProgressAt(e), CountdownAt(e), s.adSkipped, !(e >= AD_DURATION_TICKS))
  }

  /**
   * `handleModalClose(open)`. Only a close (`open == false`) does anything: it
   * records a skip when progress is below 100 and no skip has been recorded in
   * this session, and it always calls `onClose`.
   */
  function OnModalClose(s: Session, open: bool): (r: Outcome)
    ensures open ==> r == Outcome(s, false, false, [])
    ensures !open ==> r.calls == [OnClose] && !r.watch
    ensures !open ==> (r.skip <==> s.progress < 100 && !s.adSkipped)
    ensures r.next.adSkipped <==> s.adSkipped || r.skip
    ensures r.next == s.(adSkipped := r.next.adSkipped)
  {
    if open then Outcome(s, false, false, [])
    else if s.progress < 100 && !s.adSkipped then
      Outcome(s.(adSkipped := true), true, false, [OnClose])
    else
      Outcome(s, false, false, [OnClose])
  }

  /**
   * `handleAdWatchedAndProceed`: records a watch only at 100 %, but calls
   * `onAdWatched` and then `onClose` in every case.
   */
  function OnProceed(s: Session): (r: Outcome)
    ensures r.next == s && !r.skip
    ensures r.watch <==> s.progress >= 100
    ensures r.calls == [OnAdWatched, OnClose]
  {
    Outcome(s, false, s.progress >= 100, [OnAdWatched, OnClose])
  }

  /** The Proceed button is enabled exactly when it is not `disabled={progress < 100}`. */
  predicate ProceedEnabled(s: Session)
  {
    !(s.progress < 100)
  }

  /**
   * A click on the Proceed button: a disabled button does not run its
   * handler, so below 100 % nothing happens at all.
   */
  function OnProceedClick(s: Session): (r: Outcome)
    ensures !ProceedEnabled(s) ==> r == Outcome(s, false, false, [])
    ensures ProceedEnabled(s) ==> r == OnProceed(s)
  {
    if ProceedEnabled(s) then OnProceed(s) else Outcome(s, false, false, [])
  }

  /** The enabled button, the handler's guard and completion of the ad coincide. */
  lemma ProceedEnabledIffComplete(s: Session)
    requires Consistent(s)
    ensures ProceedEnabled(s) <==> s.progress >= 100
    ensures ProceedEnabled(s) <==> s.elapsed >= AD_DURATION_TICKS
    ensures ProceedEnabled(s) <==> s.countdown == 0
  {
  }

  /**
   * Dismissing after the ad has completed records neither a skip nor a
   * watch: the dialog just closes.
   */
  lemma CloseAfterCompletionRecordsNothing(s: Session)
    requires Consistent(s) && s.elapsed >= AD_DURATION_TICKS
    ensures !OnModalClose(s, false).skip && !OnModalClose(s, false).watch
    ensures OnModalClose(s, false).calls == [OnClose]
  {
  }

  // ---------------------------------------------------------------------------
  // Sequences of user and timer events in one session
  // ---------------------------------------------------------------------------

  /** What can happen while the dialog is open. */
  datatype Event = TickEvent | CloseEvent | ProceedClickEvent

  /** The handler an event runs. */
  function Step(s: Session, e: Event): Outcome
  {
    match e
    case TickEvent => Outcome(AfterTick(s), false, false, [])
    case CloseEvent => OnModalClose(s, false)
    case ProceedClickEvent => OnProceedClick(s)
  }

  /** The result of running a sequence of events. */
  datatype Totals = Totals(final: Session, skips: nat, watches: nat, calls: seq<Callback>)

  function Run(s: Session, evs: seq<Event>): Totals
    decreases |evs|
  {
    if evs == [] then Totals(s, 0, 0, [])
    else
      var o := Step(s, evs[0]);
      var rest := Run(o.next, evs[1..]);
      Totals(rest.final,
             (if o.skip then 1 else 0) + rest.skips,
             (if o.watch then 1 else 0) + rest.watches,
             o.calls + rest.calls)
  }

  /** The number of interval ticks among the events. */
  function TickCount(evs: seq<Event>): nat
  {
    if evs == [] then 0 else (if evs[0] == TickEvent then 1 else 0) + TickCount(evs[1..])
  }

  /** The number of Proceed clicks among the events. */
  function ClickCount(evs: seq<Event>): nat
  {
    if evs == [] then 0 else (if evs[0] == ProceedClickEvent then 1 else 0) + ClickCount(evs[1..])
  }

  /**
   * Every sequence of events keeps the session consistent, so progress stays
   * within 0..100 and the countdown within 0..5, progress only grows, the
   * countdown only shrinks, and a recorded skip stays recorded.
   */
  lemma {:induction false} RunKeepsConsistent(s: Session, evs: seq<Event>)
    requires Consistent(s)
    ensures Consistent(Run(s, evs).final)
    ensures s.progress <= Run(s, evs).final.progress
    ensures Run(s, evs).final.countdown <= s.countdown
    ensures s.adSkipped ==> Run(s, evs).final.adSkipped
    decreases |evs|
  {
    if evs != [] {
      RunKeepsConsistent(Step(s, evs[0]).next, evs[1..]);
    }
  }

  /**
   * The `adSkipped` guard: however often the dialog is dismissed, a session
   * records at most one skip, and none once one has been recorded.
   */
  lemma {:induction false} AtMostOneSkip(s: Session, evs: seq<Event>)
    ensures Run(s, evs).skips <= (if s.adSkipped then 0 else 1)
    ensures Run(s, evs).skips > 0 || s.adSkipped ==> Run(s, evs).final.adSkipped
    decreases |evs|
  {
    if evs != [] {
      AtMostOneSkip(Step(s, evs[0]).next, evs[1..]);
    }
  }

  /**
   * A dismissal before the ad completes records exactly one skip for the
   * session, whatever happens afterwards (more dismissals included).
   */
  lemma SkipOnEarlyClose(s: Session, evs: seq<Event>)
    requires !s.adSkipped && s.progress < 100
    ensures Run(s, [CloseEvent] + evs).skips == 1
  {
    var all := [CloseEvent] + evs;
    assert all[0] == CloseEvent && all[1..] == evs;
    AtMostOneSkip(OnModalClose(s, false).next, evs);
  }

  /** A freshly opened gate dismissed any number of times records one skip. */
  lemma RepeatedCloseCountsOnce(n: nat)
    requires n >= 1
    ensures Run(AfterOpen(), seq(n, _ => CloseEvent)).skips == 1
  {
    var evs := seq(n, _ => CloseEvent);
    assert evs == [CloseEvent] + seq(n - 1, _ => CloseEvent);
    SkipOnEarlyClose(AfterOpen(), seq(n - 1, _ => CloseEvent));
  }

  /**
   * There is no way to complete the gate early: a watch is recorded only
   * after the full duration has been ticked off.
   */
  lemma {:induction false} NoEarlyWatch(s: Session, evs: seq<Event>)
    requires Consistent(s)
    ensures Run(s, evs).watches > 0 ==> s.elapsed + TickCount(evs) >= AD_DURATION_TICKS
    decreases |evs|
  {
    if evs != [] {
      var o := Step(s, evs[0]);
      NoEarlyWatch(o.next, evs[1..]);
      assert o.next.elapsed <= s.elapsed + (if evs[0] == TickEvent then 1 else 0);
    }
  }

  /** Each recorded watch comes from its own click on the enabled Proceed button. */
  lemma {:induction false} WatchesOnlyFromClicks(s: Session, evs: seq<Event>)
    ensures Run(s, evs).watches <= ClickCount(evs)
    decreases |evs|
  {
    if evs != [] {
      WatchesOnlyFromClicks(Step(s, evs[0]).next, evs[1..]);
    }
  }

  /**
   * Watches have no guard like `adSkipped`: two clicks on Proceed once the
   * ad has completed, before the parent closes the dialog, record two.
   */
  lemma WatchNotGuarded(s: Session)
    requires Consistent(s) && s.elapsed >= AD_DURATION_TICKS
    ensures Run(s, [ProceedClickEvent, ProceedClickEvent]).watches == 2
  {
    var evs := [ProceedClickEvent, ProceedClickEvent];
    assert evs[1..] == [ProceedClickEvent] && evs[1..][1..] == [];
  }

  /** A freshly opened gate needs 50 ticks (5 s) before any watch can be recorded. */
  lemma OpenedGateNeedsFullDuration(evs: seq<Event>)
    requires TickCount(evs) < AD_DURATION_TICKS
    ensures Run(AfterOpen(), evs).watches == 0
  {
    NoEarlyWatch(AfterOpen(), evs);
  }

  // ---------------------------------------------------------------------------
  // The component
  // ---------------------------------------------------------------------------

  /**
   * The component's state, updated in place by its effect, its interval and
   * its handlers. `isOpen` is the parent's prop; `calls` logs the parent
   * callbacks in the order they are made.
   */
  class Gate {
    var isOpen: bool
    var elapsed: nat
    var progress: int
    var countdown: int
    var adSkipped: bool
    var timerActive: bool
    var calls: seq<Callback>
    const analytics: Analytics.Counters

    /** The state slots as a session value. */
    ghost function State(): Session
      reads this
    {
      Session(elapsed, progress, countdown, adSkipped, timerActive)
    }

    ghost predicate Valid()
      reads this
    {
      Consistent(State()) && (timerActive ==> isOpen)
    }

    /** A mounted, closed gate with the initial state values. */
    constructor (analytics: Analytics.Counters)
      ensures Valid() && !isOpen && State() == Initial() && calls == []
      ensures this.analytics == analytics
    {
      isOpen := false;
      elapsed, progress, countdown := 0, 0, AD_DURATION_SECONDS;
      adSkipped, timerActive := false, false;
      calls := [];
      this.analytics := analytics;
    }

    /**
     * The parent opens the dialog and the open effect runs. The effect
     * depends on `isOpen`, so it runs only when a closed dialog opens.
     */
    method Open()
      requires Valid() && !isOpen
      modifies this
      ensures Valid() && isOpen
      ensures State() == AfterOpen()
      ensures calls == old(calls)
    {
      isOpen := true;
      progress := 0;
      countdown := AD_DURATION_SECONDS;
      adSkipped := false;
      elapsed := 0;
      timerActive := true;
    }

    /** One 100 ms interval callback. */
    method Tick()
      requires Valid()
      modifies this
      ensures Valid() && isOpen == old(isOpen)
      ensures State() == AfterTick(old(State()))
      ensures calls == old(calls)
    {
      if timerActive {
        elapsed := elapsed + 1;
        progress := ProgressAt(elapsed);
        countdown := CountdownAt(elapsed);
        if elapsed >= AD_DURATION_TICKS {
          timerActive := false;
        }
      }
    }

    /**
     * The parent closes the dialog (or unmounts the gate): the effect's
     * cleanup clears the interval.
     */
    method Hide()
      requires Valid()
      modifies this
      ensures Valid() && !isOpen && !timerActive
      ensures State() == old(State()).(timerActive := false)
      ensures calls == old(calls)
    {
      isOpen := false;
      timerActive := false;
    }

    /**
     * `handleModalClose(open)`, the dialog's open-change handler. A closed
     * dialog mounts no content, so the handler fires only while it is open.
     */
    method HandleModalClose(open: bool)
      requires Valid() && isOpen
      modifies this, analytics
      ensures Valid() && isOpen == old(isOpen)
      ensures State() == OnModalClose(old(State()), open).next
      ensures calls == old(calls) + OnModalClose(old(State()), open).calls
      ensures analytics.adsSkipped
              == old(analytics.adsSkipped) + (if OnModalClose(old(State()), open).skip then 1 else 0)
      ensures analytics.adsWatched == old(analytics.adsWatched)
    {
      if !open {
        if progress < 100 && !adSkipped {
          analytics.IncrementAdsSkipped();
          adSkipped := true;
        }
        calls := calls + [OnClose];
      }
    }

    /** `handleAdWatchedAndProceed`, the Proceed button's click handler. */
    method HandleAdWatchedAndProceed()
      requires Valid() && isOpen
      modifies this, analytics
      ensures Valid() && isOpen == old(isOpen)
      ensures State() == old(State())
      ensures calls == old(calls) + OnProceed(old(State())).calls
      ensures analytics.adsWatched
              == old(analytics.adsWatched) + (if OnProceed(old(State())).watch then 1 else 0)
      ensures analytics.adsSkipped == old(analytics.adsSkipped)
    {
      if progress >= 100 {
        analytics.IncrementAdsWatched();
      }
      calls := calls + [OnAdWatched];
      calls := calls + [OnClose];
    }

    /**
     * A click on the Proceed button, which is on screen only while the dialog
     * is open and runs the handler only when enabled.
     */
    method ClickProceed()
      requires Valid() && isOpen
      modifies this, analytics
      ensures Valid() && isOpen == old(isOpen)
      ensures State() == old(State())
      ensures calls == old(calls) + OnProceedClick(old(State())).calls
      ensures analytics.adsWatched
              == old(analytics.adsWatched) + (if OnProceedClick(old(State())).watch then 1 else 0)
      ensures analytics.adsSkipped == old(analytics.adsSkipped)
    {
      if !(progress < 100) {
        HandleAdWatchedAndProceed();
      }
    }
  }

  /**
   * A session as the detail page drives it: the gate opens, the user
   * dismisses it twice at once, and one skip is recorded; a second session
   * plays for the full 5 s and Proceed records one watch.
   */
  method GateScenario()
  {
    var counters := new Analytics.Counters();
    var gate := new Gate(counters);
    gate.Open();
    gate.Tick();
    gate.HandleModalClose(false);
    gate.HandleModalClose(false);
    assert counters.adsSkipped == 1 && counters.adsWatched == 0;
    assert gate.calls == [OnClose, OnClose];
    gate.Hide();
    gate.Open();
    gate.ClickProceed();
    assert counters.adsWatched == 0 && gate.calls == [OnClose, OnClose];
    var i := 0;
    while i < AD_DURATION_TICKS
      invariant 0 <= i <= AD_DURATION_TICKS
      invariant gate.Valid() && gate.isOpen && gate.elapsed == i && !gate.adSkipped
      invariant gate.timerActive <==> i < AD_DURATION_TICKS
      invariant gate.calls == [OnClose, OnClose]
      invariant counters.adsSkipped == 1 && counters.adsWatched == 0
    {
      gate.Tick();
      i := i + 1;
    }
    assert gate.progress == 100 && gate.countdown == 0;
    gate.ClickProceed();
    assert counters.adsWatched == 1 && counters.adsSkipped == 1;
    assert gate.calls == [OnClose, OnClose, OnAdWatched, OnClose];
  }
}
