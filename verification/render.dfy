/**
 * What the FadeIn component hands the renderer for each tile, derived from
 * its state: the tile list of length cols * rows, and per tile either no
 * animation or the entrance animation with its delay plus the infinite wave
 * with its period and phase offset.
 */
module Render {
  import opened Options
  import opened Layout
  import opened Timing
  import opened Lifecycle

  datatype Animation =
    | NoAnimation
    | Animate(entranceDelay: int, wavePeriod: int, waveOffset: real)

  /** Tiles animate exactly while the component is visible and not resizing. */
  predicate Animating(s: State)
    ensures Animating(s) ==> s.isVisible
    ensures Valid(s) && Animating(s) ==> s.liveTimers == {} && s.phase != Created
  {
    s.isVisible && !s.isResizing
  }

  /** The animation style of tile `i`. */
  function TileAnimation(i: nat, s: State, stagger: int, waveDuration: int): (a: Animation)
    ensures a.Animate? <==> Animating(s)
    ensures a.Animate? ==> a.entranceDelay == i * stagger && a.wavePeriod == waveDuration
    ensures a.Animate? ==> a.waveOffset == WaveOffset(i, waveDuration)
  {
    if Animating(s) then Animate(EntranceDelay(i, stagger), waveDuration, WaveOffset(i, waveDuration))
    else NoAnimation
  }

  /**
   * The tiles rendered for state `s`: one per entry of `Array(cols * rows)`,
   * or None where allocating that array throws.
   */
  function Tiles(s: State, stagger: int, waveDuration: int): (r: Option<seq<Animation>>)
    ensures r.Some? <==> TileArrayLength(s.grid).Some?
    ensures r.Some? ==> |r.value| == s.grid.cols * s.grid.rows
    ensures r.Some? ==> forall i :: 0 <= i < |r.value| ==> r.value[i] == TileAnimation(i, s, stagger, waveDuration)
  {
    match TileArrayLength(s.grid)
    case Some(n) => Some(seq(n, i requires 0 <= i => TileAnimation(i, s, stagger, waveDuration)))
    case None => None
  }

  /**
   * All tiles animate together or none does, and while animating, a tile
   * with a larger index never starts its entrance earlier when the stagger is
   * non-negative, and lags its predecessor by one stagger.
   */
  lemma TilesAnimateInOrder(s: State, stagger: int, waveDuration: int, i: nat, j: nat)
    requires Tiles(s, stagger, waveDuration).Some?
    requires i <= j < |Tiles(s, stagger, waveDuration).value|
    ensures var ts := Tiles(s, stagger, waveDuration).value;
      (ts[i].Animate? <==> Animating(s)) && (ts[j].Animate? <==> Animating(s)) &&
      (Animating(s) && stagger >= 0 ==> ts[i].entranceDelay <= ts[j].entranceDelay) &&
      (Animating(s) && j == i + 1 ==> ts[j].entranceDelay == ts[i].entranceDelay + stagger)
  {
    if Animating(s) && stagger >= 0 {
      EntranceDelayOrdered(i, j, stagger);
    }
  }

  /** During a burst of resizes no tile animates. */
  lemma BurstStopsAnimation(s: State, burst: seq<Event>, stagger: int, waveDuration: int, i: nat)
    requires Valid(s) && s.phase == Mounted
    requires burst != [] && AllResizes(burst)
    ensures !Animating(Run(s, burst))
    ensures TileAnimation(i, Run(s, burst), stagger, waveDuration) == NoAnimation
  {
    BurstLeavesOneTimer(s, burst);
  }

  /**
   * Once the last resize's debounce timer has fired, a visible component
   * animates again, over the grid for the viewport at firing time.
   */
  lemma SettleResumesAnimation(s: State, burst: seq<Event>, width: int, height: int)
    requires Valid(s) && s.phase == Mounted && s.isVisible
    requires burst != [] && AllResizes(burst)
    ensures var t := Run(s, burst + [DebounceFire(s.nextTimerId + |burst| - 1, width, height)]);
      Animating(t) && t.grid == GridFor(width, height)
  {
    BurstThenFireSettlesOnce(s, burst, width, height);
  }
}
