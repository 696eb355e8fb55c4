# FadeIn: grid layout, resize debounce and timing, modelled in Dafny

FadeIn is a decorative UI component. It covers the viewport with a grid of
64-pixel tiles inside 16 pixels of padding. The tiles fade and scale in one
after another once an entrance delay has passed, and then pulse in an
endless "wave" whose period depends on the time of day. When the window is
resized, the component hides the grid and an external element with the id
`spooky-div`. After the resizing has settled, it calculates the grid again.
The settling uses a trailing-edge debounce: every resize clears the pending
timer and arms a new one.

The project models the logic of that component:

- `layout.dfy` (module `Layout`): the grid arithmetic, and when the tile array `Array(cols * rows)` can be allocated.
- `timing.dfy` (module `Timing`): the wave period from the local hour and minute, the defaults of the optional props `staggerDelay` and `scaleStart`, and the per-tile entrance delay and wave phase offset.
- `lifecycle.dfy` (module `Lifecycle`): the component's state as a pure state machine.
  - Events: `Mount`, `Resize`, `DebounceFire`, `VisibilityFire` and `Cleanup`.
  - The debounce timers are the window's, as a set of armed timer ids. `setTimeout` arms one under a fresh id, and `clearTimeout` disarms the one whose id the component stored in `debounceTimeout`. A `DebounceFire` event names the id of the timer whose deadline passes.
  - `Step` applies one event and `Run` applies a sequence of them.
  - `Valid` is the invariant of every reachable state.
  - Lemmas prove the debounce, cleanup and visibility properties.
- `render.dfy` (module `Render`): the per-tile animation derived from a state.
- `component.dfy` (module `Component`): the class `FadeIn`.
  - Its fields are updated in place by `CalculateGrid`, `DebouncedCalculateGrid` and the mount, resize, timer and cleanup handlers.
  - `ClearTimeout` and `SetTimeout` model the window's timer calls on the same fields.
  - Each handler is proved to change the object's state exactly as the matching `Lifecycle` event does. All the lemmas of `Lifecycle` therefore hold of the object.
- `options.dfy` (module `Options`): the `Option` type, used for omitted props and for an absent element.

Three behaviours of the code are easy to overlook, and the model keeps them:

- Nothing clamps the grid counts at 0. For an extent below 32 pixels, the count on that axis is -1 (src/components/atomic/FadeIn.tsx:32-36).
  - If both axes are that narrow, one phantom tile is allocated (`Layout.NarrowViewportPhantomTile`).
  - If only one is, and the other has at least one tile, `Array` receives a negative length and throws (`Layout.NarrowViewportRangeError`).
- `onCleanup` (src/components/atomic/FadeIn.tsx:62-65) clears only the debounce timer. The visibility timer armed at line 57 can still fire afterwards. `Lifecycle.OnCleanup` and `Lifecycle.CleanupIsFinal` leave it armed.
- A cleanup in the middle of a resize burst leaves `isResizing` true, because nothing resets it. So "resizing exactly while a debounce timer is armed" is part of `Lifecycle.Valid` only while the component is mounted.

## Model

| member | source | states |
|---|---|---|
| `Layout.Cells` | src/components/atomic/FadeIn.tsx:32-36 | The count along one axis is the floor of the padded extent over 64: `n*64 <= extent-32 < (n+1)*64`. It is non-negative exactly when extent >= 32, and it is -1 for extents in [0, 32). |
| `Layout.GridFor` | src/components/atomic/FadeIn.tsx:32-38 | The stored grid has as many columns and rows as fit in the viewport after padding, with no room for one more. |
| `Layout.TileArrayLength` | src/components/atomic/FadeIn.tsx:76-77 | `Array(cols*rows)` exists exactly when the product is in [0, 2^32-1], and then has that length. |
| `Layout.CellsUnique` | src/components/atomic/FadeIn.tsx:35-36 | The floor bracket determines the count uniquely. |
| `Layout.CellsMonotone` | src/components/atomic/FadeIn.tsx:32-36 | A larger viewport never has fewer tiles along an axis. |
| `Layout.CellsStep` | src/components/atomic/FadeIn.tsx:32-36 | 64 more pixels give exactly one more tile along that axis. |
| `Layout.GridFits` | src/components/atomic/FadeIn.tsx:32-36 | For width, height >= 32 with width*height <= 2^32-1, the counts are non-negative. The tiles plus padding fit the viewport, and one more row or column would not. The tile array has cols*rows entries. |
| `Layout.NarrowViewportPhantomTile` | src/components/atomic/FadeIn.tsx:32-36 | Width and height both below 32 give the grid (-1, -1) and a tile array of length 1. |
| `Layout.NarrowViewportRangeError` | src/components/atomic/FadeIn.tsx:76 | Width below 32 with height >= 96 gives cols -1 and rows >= 1, and the tile array cannot be allocated. |
| `Timing.MinuteOfDay` | src/components/atomic/FadeIn.tsx:27 | `hour*60+minute`: for a valid hour and minute, it lies in [0, 1440) and gives back the hour and minute. |
| `Timing.WaveDuration` | src/components/atomic/FadeIn.tsx:26-27 | For a valid hour and minute, the period lies in [1000, 8940], so within the promised 1 s to 10 s. It is 1000 exactly when the minute of the 150-minute cycle is at most 16. Above 1000 it is a multiple of 60. |
| `Timing.WaveForMinute` | src/components/atomic/FadeIn.tsx:27 | For any minute of the day, the period lies in [1000, 8940]. It is 1000 exactly when the minute of the 150-minute cycle is at most 16, and otherwise a multiple of 60. |
| `Timing.CycleShift` | src/components/atomic/FadeIn.tsx:27 | Adding 150 minutes to the minute of the day leaves the period unchanged. |
| `Timing.WaveDurationBoundsTight` | src/components/atomic/FadeIn.tsx:27 | Both ends of the range are reached: 1000 ms at 00:00 and 8940 ms at 02:29. |
| `Timing.WaveDurationPeriodic` | src/components/atomic/FadeIn.tsx:27 | Times of day 150 minutes apart give the same period. |
| `Timing.StaggerDelay` | src/components/atomic/FadeIn.tsx:19 | The result is the prop unless the prop is absent or 0, and then it is 50. It is never 0. |
| `Timing.ScaleStart` | src/components/atomic/FadeIn.tsx:20 | The result is the prop unless the prop is absent or 0, and then it is 0.5. It is never 0. |
| `Timing.EntranceDelay` | src/components/atomic/FadeIn.tsx:85 | The entrance delay of tile i is 0 for the first tile, non-negative for a non-negative stagger, and at least one stagger for later tiles. |
| `Timing.WaveOffset` | src/components/atomic/FadeIn.tsx:86 | The wave offset times 50 is `i * period`, and it is non-negative for a non-negative period. |
| `Timing.EntranceDelayOrdered` | src/components/atomic/FadeIn.tsx:85 | With a non-negative stagger, tile i's entrance delay `i*stagger` does not decrease with i. With a positive stagger it increases strictly. |
| `Timing.NegativeStaggerReverses` | src/components/atomic/FadeIn.tsx:19 | A negative stagger prop is kept by `\|\|` and reverses the entrance order. |
| `Timing.WaveOffsetStep` | src/components/atomic/FadeIn.tsx:86 | Consecutive tiles' wave phases differ by a fiftieth of the period, increasing with the index. |
| `Lifecycle.Valid` | src/components/atomic/FadeIn.tsx:13-65 | The invariant of every reachable state. Before mounting nothing has happened. While mounted, the grid has been calculated and the component is resizing exactly while a debounce timer is armed. Every armed debounce timer is the stored one. The element is hidden exactly while resizing, once a grid exists. |
| `Lifecycle.ClearTimeout` | src/components/atomic/FadeIn.tsx:52 | clearTimeout disarms exactly the timer with the stored id. With no stored id it changes nothing. |
| `Lifecycle.Settle` | src/components/atomic/FadeIn.tsx:31-44 | calculateGrid stores the grid for the viewport, shows the element when present, and ends resizing. Every other field is unchanged. |
| `Lifecycle.OnMount` | src/components/atomic/FadeIn.tsx:56-60 | Mount preserves the invariant, arms the visibility timer and attaches the listener. A second mount changes nothing. |
| `Lifecycle.OnResize` | src/components/atomic/FadeIn.tsx:46-54 | A resize while mounted preserves the invariant. Because the stored timer is cleared first, the new timer is the only one armed afterwards. A resize while not mounted changes nothing. |
| `Lifecycle.OnDebounceFire` | src/components/atomic/FadeIn.tsx:53 | A firing calculates the grid exactly when its timer is armed, and otherwise changes nothing. It preserves the invariant. |
| `Lifecycle.OnVisibilityFire` | src/components/atomic/FadeIn.tsx:57 | Afterwards the component is visible exactly when it was, or when the timer was armed. The timer is spent. |
| `Lifecycle.OnCleanup` | src/components/atomic/FadeIn.tsx:62-65 | Cleanup detaches the listener, leaves the visibility timer as it was, and, in a reachable state, leaves no debounce timer armed. |
| `Lifecycle.SetOpacity` | src/components/atomic/FadeIn.tsx:39-42 | Setting the external element's opacity changes it when the element exists and does nothing when it is absent. |
| `Lifecycle.Init` | src/components/atomic/FadeIn.tsx:13-15 | The initial state is invisible, not resizing, has grid (0, 0) and no timers, and satisfies the invariant. |
| `Lifecycle.StepValid` | src/components/atomic/FadeIn.tsx:31-65 | Every handler preserves the invariant. |
| `Lifecycle.RunValid` | src/components/atomic/FadeIn.tsx:31-65 | Every sequence of events preserves the invariant. |
| `Lifecycle.MountCalculatesOnce` | src/components/atomic/FadeIn.tsx:56-60 | Mount calculates the grid once and unconditionally, for the viewport at mount time. It arms the visibility timer, attaches the listener, shows the element, and arms no debounce timer. |
| `Lifecycle.MountOnlyOnce` | src/components/atomic/FadeIn.tsx:56 | A second mount changes nothing. |
| `Lifecycle.ResizeArmsTimer` | src/components/atomic/FadeIn.tsx:46-54 | A resize while mounted sets isResizing, hides the element when present, and leaves one debounce timer armed. The grid and everything else stay unchanged. |
| `Lifecycle.BurstLeavesOneTimer` | src/components/atomic/FadeIn.tsx:46-54 | After a burst of resizes while mounted, the only armed debounce timer is the last one armed. clearTimeout has disarmed every earlier one. No grid has been calculated, and the element is hidden. |
| `Lifecycle.StaleTimerAfterBurstIsNoop` | src/components/atomic/FadeIn.tsx:52 | After a burst, a timer armed by any resize but the last does nothing when its deadline passes. |
| `Lifecycle.FiresSettleAtMostOncePerTimer` | src/components/atomic/FadeIn.tsx:38-53 | Any sequence of debounce firings calculates the grid at most once per armed timer. |
| `Lifecycle.BurstThenFiresSettleAtMostOnce` | src/components/atomic/FadeIn.tsx:46-54 | However many firings follow a burst of resizes, and for whichever ids, the grid is calculated at most once. |
| `Lifecycle.AtMostOneLiveTimer` | src/components/atomic/FadeIn.tsx:52-53 | In every reachable state, at most one debounce timer is armed. |
| `Lifecycle.BurstThenFireSettlesOnce` | src/components/atomic/FadeIn.tsx:38-53 | After a burst and the firing of the last resize's timer, the grid has been calculated exactly once more, for the viewport at firing time. Resizing has ended, no timer is armed, and the element is shown. |
| `Lifecycle.FireWithoutTimerIsNoop` | src/components/atomic/FadeIn.tsx:52-53 | A firing for a timer that is not armed changes nothing. |
| `Lifecycle.CleanupIsFinal` | src/components/atomic/FadeIn.tsx:62-65 | After cleanup, no later event changes the grid, the resizing flag, the element, the debounce timer or the calculation count. Only the uncleared visibility timer can still act. |
| `Lifecycle.CleanupDisarms` | src/components/atomic/FadeIn.tsx:62-65 | In a reachable state, cleanup detaches the listener and leaves no debounce timer armed. |
| `Lifecycle.VisibleStaysVisible` | src/components/atomic/FadeIn.tsx:13 | isVisible never returns from true to false. |
| `Lifecycle.VisibleOnlyByTimer` | src/components/atomic/FadeIn.tsx:57 | isVisible becomes true only through the visibility timer firing. |
| `Lifecycle.GridChangesOnlyBySettling` | src/components/atomic/FadeIn.tsx:38 | The grid changes only through a mount or a debounce timer firing. |
| `Render.Animating` | src/components/atomic/FadeIn.tsx:84 | Tiles animate only when visible. In a reachable state, they animate only when no debounce timer is armed and the component has mounted. |
| `Render.TileAnimation` | src/components/atomic/FadeIn.tsx:84-87 | A tile animates exactly when visible and not resizing. It then has entrance delay `i*stagger`, wave offset `WaveOffset(i, period)` and wave period `period`, for the given stagger and period. |
| `Render.Tiles` | src/components/atomic/FadeIn.tsx:76-78 | The tile list exists exactly when the tile array can be allocated. It has cols*rows entries, and entry i is `TileAnimation(i, ...)`. |
| `Render.TilesAnimateInOrder` | src/components/atomic/FadeIn.tsx:76-86 | All tiles animate or none does. Entrance delays do not decrease along the list when the stagger is non-negative, and consecutive tiles differ by one stagger. |
| `Render.BurstStopsAnimation` | src/components/atomic/FadeIn.tsx:84 | During a resize burst, no tile animates. |
| `Render.SettleResumesAnimation` | src/components/atomic/FadeIn.tsx:43 | After the timer fires, a visible component animates again over the grid for the viewport at firing time. |
| `Component.FadeIn.constructor` | src/components/atomic/FadeIn.tsx:12-29 | A new object is in the initial state. The prop defaults are resolved, and the wave period is fixed once from the time of creation. |
| `Component.FadeIn.CalculateGrid` | src/components/atomic/FadeIn.tsx:31-44 | Stores the grid for the viewport, shows the element when present, ends resizing, and counts one calculation. |
| `Component.FadeIn.ClearTimeout` | src/components/atomic/FadeIn.tsx:52 | window.clearTimeout disarms the timer with the given id, or nothing. |
| `Component.FadeIn.SetTimeout` | src/components/atomic/FadeIn.tsx:53 | window.setTimeout arms a timer under the next id and returns that id. |
| `Component.FadeIn.DebouncedCalculateGrid` | src/components/atomic/FadeIn.tsx:46-54 | Sets resizing, hides the element when present, and arms the debounce timer in place of any earlier one. |
| `Component.FadeIn.Mount` | src/components/atomic/FadeIn.tsx:56-60 | Changes the object as the Mount event does, keeping the invariant. |
| `Component.FadeIn.Resize` | src/components/atomic/FadeIn.tsx:59 | A window resize reaches the listener only while it is attached. Otherwise the object is unchanged. |
| `Component.FadeIn.DebounceTimerFires` | src/components/atomic/FadeIn.tsx:53 | An armed timer runs calculateGrid on the viewport at firing time. A cleared timer does nothing. |
| `Component.FadeIn.VisibilityTimerFires` | src/components/atomic/FadeIn.tsx:57 | The armed visibility timer makes the object visible. Visibility never goes back. |
| `Component.FadeIn.Cleanup` | src/components/atomic/FadeIn.tsx:62-65 | Clears the debounce timer and detaches the listener. |
| `Component.ResizeScenario` | src/components/atomic/FadeIn.tsx:46-60 | Mount, three resizes, then the first (cleared) and the last timer's deadlines. The result is the grid for the viewport at firing time, after two calculations in all, with the element shown. |

## Left out

- The JSX markup, the CSS classes, the `@keyframes` text and the image are not modelled. They are presentation. `Render` models only the inputs they receive: the tile count and each tile's animation values.
- Solid's signals, effects and `onMount`/`onCleanup` registration are not modelled. The signals are plain fields, and the handlers are method calls made by the caller.
- Real time is not modelled.
  - The visibility timer (the `delay` prop) is a pending flag that an explicit event fires.
  - The debounce timers are ids that an explicit event fires. The model therefore states which firing settles a burst, but not that it comes 250 ms after the last resize.
  - Durations that only CSS uses are not modelled: the 500 ms `scaleIn` animation and the 200 ms transitions.
- The window's timer ids come from one counter per component. A browser shares one id sequence across all timers, including the visibility timer. Only the distinctness of debounce timer ids matters here.
- The clock and the DOM are inputs. The hour and minute are constructor arguments, and the viewport size is an argument of the events that read it.
- The `spooky-div` element is an optional opacity field. Whether it exists is fixed for the object's life, and its appearing or disappearing between lookups is not modelled.
- `Timing.WaveDuration` requires the hour in [0, 24) and the minute in [0, 60), which is what the clock returns. JavaScript's `%` and Dafny's agree on those non-negative operands.
- Floating point is not modelled. Props are integers (`staggerDelay`) or exact rationals (`scaleStart`). A NaN prop, which `||` also replaces by the default, is not represented. The wave phase offset is the exact rational `i * (period / 50)`, without floating-point rounding.
- `Lifecycle.State.recomputations` counts the runs of calculateGrid. The source has no such counter. It is instrumentation that lets the model state "exactly one recalculation".
