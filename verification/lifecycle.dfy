/**
 * The FadeIn component's state and the events that change it, as a pure
 * state machine: mounting, window resizes debounced through the window's
 * timers, a debounce timer firing, the one-shot entrance-visibility timer
 * firing, and cleanup.
 *
 * The debounce timers are the window's: `setTimeout` arms a timer under a
 * fresh id and `clearTimeout` disarms the timer with the given id. The
 * component keeps the id of the last one in `debounceTimeout`. Time itself
 * is abstract: a timer fires when the event naming its id occurs. The
 * viewport size is an argument of the events that read it.
 */
module Lifecycle {
  import opened Options
  import opened Layout

  /** Where the component is in its life; the resize listener is attached exactly while Mounted. */
  datatype Phase = Created | Mounted | Unmounted

  /** Opacity the component writes on the external `spooky-div` element. */
  const Hidden: int := 0
  const Shown: int := 1

  datatype State = State(
    phase: Phase,
    isVisible: bool,
    isResizing: bool,
    grid: Grid,
    /** ids of the debounce timers the window holds armed */
    liveTimers: set<nat>,
    /** the id the component stored from its last setTimeout, None while undefined */
    debounceTimeout: Option<nat>,
    /** the id the window gives the next timer it arms */
    nextTimerId: nat,
    /** the entrance-visibility timer is armed */
    visibilityPending: bool,
    /** opacity of the external element, None when the page has no such element */
    spooky: Option<int>,
    /** how many times calculateGrid has run */
    recomputations: nat)

  datatype Event =
    | Mount(width: int, height: int)
    | Resize
    | DebounceFire(id: nat, width: int, height: int)
    | VisibilityFire
    | Cleanup

  /**
   * What holds of every state the component reaches:
   * - before mounting nothing has happened;
   * - while mounted the grid has been calculated, and the component is
   *   resizing exactly while a debounce timer is armed;
   * - a debounce timer is armed only while mounted;
   * - every armed debounce timer is the one whose id the component stored,
   *   so at most one is armed;
   * - the visibility timer fires at most once;
   * - once a grid has been calculated, the external element is hidden
   *   exactly while resizing.
   */
  predicate Valid(s: State)
  {
    (s.phase == Created ==>
       !s.isVisible && !s.isResizing && s.liveTimers == {} && s.debounceTimeout == None &&
       !s.visibilityPending && s.recomputations == 0 && s.grid == EmptyGrid) &&
    (s.phase == Mounted ==> s.recomputations >= 1 && (s.isResizing <==> s.liveTimers != {})) &&
    (s.liveTimers != {} ==> s.phase == Mounted) &&
    (forall id :: id in s.liveTimers ==> s.debounceTimeout == Some(id)) &&
    (s.isVisible ==> !s.visibilityPending) &&
    (s.isResizing ==> s.recomputations >= 1) &&
    (s.recomputations >= 1 && s.spooky.Some? ==>
       s.spooky.value == if s.isResizing then Hidden else Shown)
  }

  /** The state when the component is created, before it mounts: invisible, grid (0, 0), no timers. */
  function Init(spooky: Option<int>): (r: State)
    ensures Valid(r) && r.phase == Created && r.spooky == spooky
  {
    State(Created, false, false, EmptyGrid, {}, None, 0, false, spooky, 0)
  }

  /** Sets the external element's opacity, or does nothing when it is absent. */
  function SetOpacity(spooky: Option<int>, opacity: int): (r: Option<int>)
    ensures r.Some? <==> spooky.Some?
    ensures r.Some? ==> r.value == opacity
  {
    match spooky
    case Some(_) => Some(opacity)
    case None => None
  }

  /** window.clearTimeout: disarms the timer with the given id; with no id it does nothing. */
  function ClearTimeout(live: set<nat>, handle: Option<nat>): (r: set<nat>)
    ensures r <= live
    ensures handle.Some? ==> handle.value !in r && r == live - {handle.value}
    ensures handle.None? ==> r == live
  {
    match handle
    case Some(id) => live - {id}
    case None => live
  }

  /**
   * calculateGrid: store the grid for the current viewport, show the
   * external element, end resizing. Nothing else changes.
   */
  function Settle(s: State, width: int, height: int): (r: State)
    ensures r.grid == GridFor(width, height) && !r.isResizing
    ensures r.spooky == SetOpacity(s.spooky, Shown) && r.recomputations == s.recomputations + 1
    ensures r.(grid := s.grid, isResizing := s.isResizing, spooky := s.spooky,
               recomputations := s.recomputations) == s
  {
    s.(grid := GridFor(width, height), spooky := SetOpacity(s.spooky, Shown),
       isResizing := false, recomputations := s.recomputations + 1)
  }

  /** onMount: arm the visibility timer, calculate the grid at once, attach the resize listener. */
  function OnMount(s: State, width: int, height: int): (r: State)
    ensures Valid(s) ==> Valid(r)
    ensures s.phase == Created ==> r.phase == Mounted && r.visibilityPending
    ensures s.phase != Created ==> r == s
  {
    if s.phase == Created then
      Settle(s.(visibilityPending := true), width, height).(phase := Mounted)
    else s
  }

  /**
   * A resize event; it reaches debouncedCalculateGrid only while the listener
   * is attached, which then marks resizing, hides the external element,
   * clears the timer whose id it stored and arms a new one under a fresh id.
   * Because of the clearing, the new timer is then the only one armed.
   */
  function OnResize(s: State): (r: State)
    ensures Valid(s) ==> Valid(r)
    ensures Valid(s) && s.phase == Mounted ==>
      r.liveTimers == {s.nextTimerId} && r.debounceTimeout == Some(s.nextTimerId)
    ensures s.phase != Mounted ==> r == s
  {
    if s.phase == Mounted then
      var id := s.nextTimerId;
      s.(isResizing := true, spooky := SetOpacity(s.spooky, Hidden),
         liveTimers := ClearTimeout(s.liveTimers, s.debounceTimeout) + {id},
         debounceTimeout := Some(id), nextTimerId := id + 1)
    else s
  }

  /**
   * Debounce timer `id` fires: when armed it runs calculateGrid on the
   * viewport as it is at that moment; a cleared timer never fires.
   */
  function OnDebounceFire(s: State, id: nat, width: int, height: int): (r: State)
    ensures Valid(s) ==> Valid(r)
    ensures id in s.liveTimers <==> r.recomputations == s.recomputations + 1
    ensures id !in s.liveTimers ==> r == s
  {
    if id in s.liveTimers then Settle(s.(liveTimers := s.liveTimers - {id}), width, height) else s
  }

  /** The armed visibility timer makes the component visible. */
  function OnVisibilityFire(s: State): (r: State)
    ensures Valid(s) ==> Valid(r)
    ensures r.isVisible <==> s.isVisible || s.visibilityPending
    ensures !r.visibilityPending
  {
    if s.visibilityPending then s.(isVisible := true, visibilityPending := false) else s
  }

  /**
   * onCleanup: clear the timer whose id is stored and detach the resize
   * listener. The visibility timer is not cleared.
   */
  function OnCleanup(s: State): (r: State)
    ensures Valid(s) ==> Valid(r) && r.liveTimers == {}
    ensures r.phase == Unmounted && r.visibilityPending == s.visibilityPending
  {
    s.(liveTimers := ClearTimeout(s.liveTimers, s.debounceTimeout), phase := Unmounted)
  }

  function Step(s: State, e: Event): State
  {
    match e
    case Mount(w, h) => OnMount(s, w, h)
    case Resize => OnResize(s)
    case DebounceFire(id, w, h) => OnDebounceFire(s, id, w, h)
    case VisibilityFire => OnVisibilityFire(s)
    case Cleanup => OnCleanup(s)
  }

  /** The state after the events of `evs`, in order. */
  function Run(s: State, evs: seq<Event>): State
    decreases |evs|
  {
    if evs == [] then s else Run(Step(s, evs[0]), evs[1..])
  }

  lemma StepValid(s: State, e: Event)
    requires Valid(s)
    ensures Valid(Step(s, e))
  {
  }

  lemma {:induction false} RunValid(s: State, evs: seq<Event>)
    requires Valid(s)
    ensures Valid(Run(s, evs))
    decreases |evs|
  {
    if evs != [] {
      StepValid(s, evs[0]);
      RunValid(Step(s, evs[0]), evs[1..]);
    }
  }

  lemma {:induction false} RunAppend(s: State, a: seq<Event>, b: seq<Event>)
    ensures Run(s, a + b) == Run(Run(s, a), b)
    decreases |a|
  {
    if a == [] {
      assert a + b == b;
    } else {
      assert (a + b)[0] == a[0] && (a + b)[1..] == a[1..] + b;
      RunAppend(Step(s, a[0]), a[1..], b);
    }
  }

  /** In every reachable state at most one debounce timer is armed. */
  lemma AtMostOneLiveTimer(s: State)
    requires Valid(s)
    ensures |s.liveTimers| <= 1
  {
    if s.liveTimers != {} {
      var id :| id in s.liveTimers;
      assert s.liveTimers == {id};
    }
  }

  /**
   * Mounting a fresh component calculates the grid once, unconditionally,
   * for the viewport at mount time, arms the visibility timer and attaches
   * the listener, with no debounce timer armed.
   */
  lemma MountCalculatesOnce(spooky: Option<int>, width: int, height: int)
    ensures var t := Step(Init(spooky), Mount(width, height));
      t.phase == Mounted && t.grid == GridFor(width, height) && t.recomputations == 1 &&
      !t.isResizing && t.liveTimers == {} && t.visibilityPending && !t.isVisible &&
      t.spooky == SetOpacity(spooky, Shown)
  {
  }

  /** Mounting a second time does nothing. */
  lemma MountOnlyOnce(s: State, width: int, height: int)
    requires s.phase != Created
    ensures Step(s, Mount(width, height)) == s
  {
  }

  /**
   * A resize while mounted marks resizing, hides the external element when
   * present, leaves exactly one debounce timer armed, the new one, and does
   * not touch the grid, the visibility or the count of calculations.
   */
  lemma ResizeArmsTimer(s: State)
    requires Valid(s) && s.phase == Mounted
    ensures var t := Step(s, Resize);
      t.isResizing && t.liveTimers == {s.nextTimerId} && t.spooky == SetOpacity(s.spooky, Hidden) &&
      t.grid == s.grid && t.recomputations == s.recomputations && t.phase == s.phase &&
      t.isVisible == s.isVisible && t.visibilityPending == s.visibilityPending
  {
  }

  predicate AllResizes(evs: seq<Event>)
  {
    forall k :: 0 <= k < |evs| ==> evs[k] == Resize
  }

  predicate AllDebounceFires(evs: seq<Event>)
  {
    forall k :: 0 <= k < |evs| ==> evs[k].DebounceFire?
  }

  /**
   * After a burst of resizes while mounted, the only armed debounce timer is
   * the one the last resize armed; every earlier one has been cleared. No
   * grid has been calculated and the external element is hidden.
   */
  lemma {:induction false} BurstLeavesOneTimer(s: State, burst: seq<Event>)
    requires Valid(s) && s.phase == Mounted
    requires burst != [] && AllResizes(burst)
    ensures var t := Run(s, burst); var last := s.nextTimerId + |burst| - 1;
      Valid(t) && t.phase == Mounted && t.isResizing &&
      t.liveTimers == {last} && t.debounceTimeout == Some(last) && t.nextTimerId == last + 1 &&
      t.grid == s.grid && t.recomputations == s.recomputations &&
      t.spooky == SetOpacity(s.spooky, Hidden) &&
      t.isVisible == s.isVisible && t.visibilityPending == s.visibilityPending
    decreases |burst|
  {
    assert burst[0] == Resize;
    var s1 := Step(s, Resize);
    if |burst| > 1 {
      assert AllResizes(burst[1..]) by {
        forall k | 0 <= k < |burst[1..]| ensures burst[1..][k] == Resize {
          assert burst[1..][k] == burst[k + 1];
        }
      }
      BurstLeavesOneTimer(s1, burst[1..]);
    }
  }

  /** After a burst, a timer armed by any resize but the last never fires. */
  lemma StaleTimerAfterBurstIsNoop(s: State, burst: seq<Event>, id: nat, width: int, height: int)
    requires Valid(s) && s.phase == Mounted
    requires burst != [] && AllResizes(burst)
    requires id != s.nextTimerId + |burst| - 1
    ensures Step(Run(s, burst), DebounceFire(id, width, height)) == Run(s, burst)
  {
    BurstLeavesOneTimer(s, burst);
  }

  /**
   * Trailing-edge debounce: after a burst of resizes and then the last
   * resize's timer firing, the grid has been calculated exactly once, for
   * the viewport at firing time; resizing has ended, no timer is armed, and
   * the external element is shown when present.
   */
  lemma BurstThenFireSettlesOnce(s: State, burst: seq<Event>, width: int, height: int)
    requires Valid(s) && s.phase == Mounted
    requires burst != [] && AllResizes(burst)
    ensures var t := Run(s, burst + [DebounceFire(s.nextTimerId + |burst| - 1, width, height)]);
      t.recomputations == s.recomputations + 1 && t.grid == GridFor(width, height) &&
      !t.isResizing && t.liveTimers == {} && t.spooky == SetOpacity(s.spooky, Shown) &&
      t.phase == Mounted && t.isVisible == s.isVisible
  {
    var last := s.nextTimerId + |burst| - 1;
    RunAppend(s, burst, [DebounceFire(last, width, height)]);
    BurstLeavesOneTimer(s, burst);
  }

  /** Any run of debounce firings calculates the grid at most once per armed timer. */
  lemma {:induction false} FiresSettleAtMostOncePerTimer(s: State, fires: seq<Event>)
    requires Valid(s) && AllDebounceFires(fires)
    ensures Run(s, fires).recomputations <= s.recomputations + |s.liveTimers|
    decreases |fires|
  {
    if fires != [] {
      var e := fires[0];
      assert e.DebounceFire?;
      var s1 := Step(s, e);
      assert AllDebounceFires(fires[1..]) by {
        forall k | 0 <= k < |fires[1..]| ensures fires[1..][k].DebounceFire? {
          assert fires[1..][k] == fires[k + 1];
        }
      }
      if e.id in s.liveTimers {
        assert s1.liveTimers == s.liveTimers - {e.id};
        assert |s1.liveTimers| == |s.liveTimers| - 1;
      }
      FiresSettleAtMostOncePerTimer(s1, fires[1..]);
    }
  }

  /**
   * However many debounce firings follow a burst of resizes, and for
   * whichever timer ids, the grid is calculated at most once.
   */
  lemma BurstThenFiresSettleAtMostOnce(s: State, burst: seq<Event>, fires: seq<Event>)
    requires Valid(s) && s.phase == Mounted
    requires burst != [] && AllResizes(burst) && AllDebounceFires(fires)
    ensures Run(s, burst + fires).recomputations <= s.recomputations + 1
  {
    RunAppend(s, burst, fires);
    BurstLeavesOneTimer(s, burst);
    FiresSettleAtMostOncePerTimer(Run(s, burst), fires);
  }

  /** A firing for a timer that is not armed changes nothing. */
  lemma FireWithoutTimerIsNoop(s: State, id: nat, width: int, height: int)
    requires id !in s.liveTimers
    ensures Step(s, DebounceFire(id, width, height)) == s
  {
  }

  /**
   * After cleanup nothing but the uncleared visibility timer can change the
   * state: whatever events follow, the grid, the resizing flag, the external
   * element, the timers and the count of calculations stay as they were.
   */
  lemma {:induction false} CleanupIsFinal(s: State, evs: seq<Event>)
    requires s.phase == Unmounted && s.liveTimers == {}
    ensures var t := Run(s, evs);
      t.(isVisible := s.isVisible, visibilityPending := s.visibilityPending) == s
    decreases |evs|
  {
    if evs != [] {
      var s1 := Step(s, evs[0]);
      assert s1.(isVisible := s.isVisible, visibilityPending := s.visibilityPending) == s;
      CleanupIsFinal(s1, evs[1..]);
    }
  }

  /** In a reachable state, cleanup reaches a state CleanupIsFinal applies to. */
  lemma CleanupDisarms(s: State)
    requires Valid(s)
    ensures Step(s, Cleanup).phase == Unmounted && Step(s, Cleanup).liveTimers == {}
  {
  }

  /** Visibility never goes back from true to false. */
  lemma {:induction false} VisibleStaysVisible(s: State, evs: seq<Event>)
    requires s.isVisible
    ensures Run(s, evs).isVisible
    decreases |evs|
  {
    if evs != [] {
      VisibleStaysVisible(Step(s, evs[0]), evs[1..]);
    }
  }

  /** Visibility becomes true only by the visibility timer firing. */
  lemma {:induction false} VisibleOnlyByTimer(s: State, evs: seq<Event>)
    requires !s.isVisible && Run(s, evs).isVisible
    ensures VisibilityFire in evs
    decreases |evs|
  {
    if evs[0] != VisibilityFire {
      VisibleOnlyByTimer(Step(s, evs[0]), evs[1..]);
    }
  }

  /** The grid changes only when mounting or when a debounce timer fires. */
  lemma {:induction false} GridChangesOnlyBySettling(s: State, evs: seq<Event>)
    requires Run(s, evs).grid != s.grid
    ensures exists k :: 0 <= k < |evs| && (evs[k].Mount? || evs[k].DebounceFire?)
    decreases |evs|
  {
    var e := evs[0];
    if !(e.Mount? || e.DebounceFire?) {
      GridChangesOnlyBySettling(Step(s, e), evs[1..]);
      var k :| 0 <= k < |evs[1..]| && (evs[1..][k].Mount? || evs[1..][k].DebounceFire?);
      assert evs[k + 1] == evs[1..][k];
    } else {
      assert evs[0].Mount? || evs[0].DebounceFire?;
    }
  }
}
