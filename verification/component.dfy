/**
 * The FadeIn component as an object whose handlers update its fields in
 * place. Each handler is proved to move the object's state exactly as the
 * matching event of Lifecycle does, so every property proved there holds of
 * the object.
 */
module Component {
  import opened Options
  import opened Layout
  import opened Timing
  import opened Lifecycle

  /** The props the caller passes; `delay` only schedules the visibility timer, which is abstract here. */
  datatype Props = Props(delay: int, staggerDelay: Option<int>, scaleStart: Option<real>)

  class FadeIn {
    var phase: Phase
    var isVisible: bool
    var isResizing: bool
    var gridDimensions: Grid
    /** ids of the debounce timers the window holds armed */
    var liveTimers: set<nat>
    /** the id kept from the last `window.setTimeout`, None while undefined */
    var debounceTimeout: Option<nat>
    /** the id the window gives the next timer */
    var nextTimerId: nat
    var visibilityArmed: bool
    /** opacity of the external `spooky-div` element, None when it is absent */
    var spookyOpacity: Option<int>
    ghost var recomputations: nat

    const staggerDelay: int
    const scaleStart: real
    const waveDuration: int

    /** The object's state as a Lifecycle state. */
    ghost function Snapshot(): State
      reads this
    {
      State(phase, isVisible, isResizing, gridDimensions, liveTimers, debounceTimeout,
            nextTimerId, visibilityArmed, spookyOpacity, recomputations)
    }

    ghost predicate Valid()
      reads this
    {
      Lifecycle.Valid(Snapshot())
    }

    /**
     * Creating the component: resolve the prop defaults and fix the wave
     * period from the local time `hour`:`minute` once for the object's life.
     */
    constructor (props: Props, hour: int, minute: int, spooky: Option<int>)
      requires 0 <= hour < 24 && 0 <= minute < 60
      ensures Valid() && Snapshot() == Init(spooky)
      ensures staggerDelay == StaggerDelay(props.staggerDelay)
      ensures scaleStart == ScaleStart(props.scaleStart)
      ensures waveDuration == WaveDuration(hour, minute)
    {
      phase := Created;
      isVisible, isResizing := false, false;
      gridDimensions := EmptyGrid;
      liveTimers, debounceTimeout, nextTimerId := {}, None, 0;
      visibilityArmed := false;
      spookyOpacity := spooky;
      recomputations := 0;
      staggerDelay := StaggerDelay(props.staggerDelay);
      scaleStart := ScaleStart(props.scaleStart);
      waveDuration := WaveDuration(hour, minute);
    }

    /** window.clearTimeout(handle): disarm that timer, if any. */
    method ClearTimeout(handle: Option<nat>)
      modifies this
      ensures liveTimers == Lifecycle.ClearTimeout(old(liveTimers), handle)
      ensures Snapshot() == old(Snapshot()).(liveTimers := liveTimers)
    {
      if handle.Some? {
        liveTimers := liveTimers - {handle.value};
      }
    }

    /** window.setTimeout: arm a timer under a fresh id and return that id. */
    method SetTimeout() returns (id: nat)
      modifies this
      ensures id == old(nextTimerId)
      ensures Snapshot() == old(Snapshot()).(liveTimers := old(liveTimers) + {id}, nextTimerId := id + 1)
    {
      id := nextTimerId;
      liveTimers := liveTimers + {id};
      nextTimerId := nextTimerId + 1;
    }

    /** calculateGrid, for a viewport of `width` by `height` pixels. */
    method CalculateGrid(width: int, height: int)
      modifies this
      ensures Snapshot() == Settle(old(Snapshot()), width, height)
      ensures gridDimensions == GridFor(width, height) && !isResizing
    {
      var cols := Cells(width);
      var rows := Cells(height);
      gridDimensions := Grid(cols, rows);
      if spookyOpacity.Some? {
        spookyOpacity := Some(Shown);
      }
      isResizing := false;
      recomputations := recomputations + 1;
    }

    /**
     * debouncedCalculateGrid, the resize listener: mark resizing, hide the
     * external element, clear the stored timer and store a new one.
     */
    method DebouncedCalculateGrid()
      modifies this
      ensures Snapshot() == old(Snapshot()).(isResizing := true,
        spooky := SetOpacity(old(spookyOpacity), Hidden),
        liveTimers := Lifecycle.ClearTimeout(old(liveTimers), old(debounceTimeout)) + {old(nextTimerId)},
        debounceTimeout := Some(old(nextTimerId)), nextTimerId := old(nextTimerId) + 1)
    {
      isResizing := true;
      if spookyOpacity.Some? {
        spookyOpacity := Some(Hidden);
      }
      ClearTimeout(debounceTimeout);
      var id := SetTimeout();
      debounceTimeout := Some(id);
    }

    /** onMount: the one mount of the component, with the viewport at that moment. */
    method Mount(width: int, height: int)
      requires Valid()
      modifies this
      ensures Valid() && Snapshot() == OnMount(old(Snapshot()), width, height)
    {
      if phase == Created {
        visibilityArmed := true;
        CalculateGrid(width, height);
        phase := Mounted;
      }
    }

    /** The window dispatches a resize event; it reaches the listener only while attached. */
    method Resize()
      requires Valid()
      modifies this
      ensures Valid() && Snapshot() == OnResize(old(Snapshot()))
    {
      if phase == Mounted {
        DebouncedCalculateGrid();
      }
    }

    /** Debounce timer `id` reaches its deadline, with the viewport at that moment. */
    method DebounceTimerFires(id: nat, width: int, height: int)
      requires Valid()
      modifies this
      ensures Valid() && Snapshot() == OnDebounceFire(old(Snapshot()), id, width, height)
    {
      if id in liveTimers {
        liveTimers := liveTimers - {id};
        CalculateGrid(width, height);
      }
    }

    /** The visibility timer reaches its deadline. */
    method VisibilityTimerFires()
      requires Valid()
      modifies this
      ensures Valid() && Snapshot() == OnVisibilityFire(old(Snapshot()))
      ensures old(isVisible) ==> isVisible
    {
      if visibilityArmed {
        isVisible := true;
        visibilityArmed := false;
      }
    }

    /** onCleanup: clear the stored debounce timer and detach the resize listener. */
    method Cleanup()
      requires Valid()
      modifies this
      ensures Valid() && Snapshot() == OnCleanup(old(Snapshot()))
      ensures liveTimers == {} && phase == Unmounted
    {
      ClearTimeout(debounceTimeout);
      phase := Unmounted;
    }
  }

  /**
   * A client of the object: mount, resize three times, then the first
   * resize's timer and the last one's reach their deadlines. The first was
   * cleared and does nothing; the last settles on the viewport at that time.
   * The grid has been calculated twice in all, once on mount and once on
   * settling.
   */
  method ResizeScenario(props: Props, spooky: Option<int>, w0: int, h0: int, w1: int, h1: int)
    returns (c: FadeIn)
    ensures c.gridDimensions == GridFor(w1, h1) && !c.isResizing && c.liveTimers == {}
    ensures c.recomputations == 2
    ensures c.spookyOpacity == SetOpacity(spooky, Shown)
  {
    c := new FadeIn(props, 0, 0, spooky);
    c.Mount(w0, h0);
    c.Resize();
    assert c.gridDimensions == GridFor(w0, h0) && c.isResizing && c.liveTimers == {0};
    c.Resize();
    c.Resize();
    assert c.liveTimers == {2};
    c.DebounceTimerFires(0, w1, h1);
    assert c.recomputations == 1;
    c.DebounceTimerFires(2, w1, h1);
  }
}
