/**
 * The playback cursor of the menu's animated GIF: a frame index and the
 * loaded/playing flags, moved by `Play`, `Stop`, `Pause`, `Resume` and by
 * the frame loop of the `PlayAnimation` coroutine. Frames themselves are
 * represented only by their count; a missing frame list counts as empty.
 */
module GifPlayback {

  datatype Playback = Playback(frame: int, playing: bool)

  /** What the head of the frame loop does with the cursor. */
  datatype FrameRead =
    | Exited                 // `isPlaying` is false: the loop ends
    | NoFrames               // no frames: the coroutine stops
    | Shown(index: nat)      // frame `index` is displayed
    | OutOfRange(badIndex: int) // the frame list is indexed outside its bounds: the coroutine dies

  function ReadFrame(p: Playback, count: nat): (r: FrameRead)
    ensures r.Shown? <==> p.playing && 0 <= p.frame < count
    ensures r.Shown? ==> r.index == p.frame
    ensures r.OutOfRange? <==> p.playing && count > 0 && !(0 <= p.frame < count)
  {
    if !p.playing then Exited
    else if count == 0 then NoFrames
    else if 0 <= p.frame < count then Shown(p.frame)
    else OutOfRange(p.frame)
  }

  /**
   * The end of one loop iteration: the next frame, wrapping to the first when
   * looping, or stopping with the index one past the last frame when not.
   */
  function Advance(p: Playback, count: nat, loop: bool): (r: Playback)
    ensures p.frame + 1 < count ==> r == p.(frame := p.frame + 1)
    ensures loop && 0 <= p.frame < count ==> 0 <= r.frame < count && r.playing == p.playing
    ensures !loop && p.frame + 1 >= count ==> r == Playback(p.frame + 1, false)
  {
    var next := p.frame + 1;
    if next >= count then
      if loop then Playback(0, p.playing) else Playback(next, false)
    else
      p.(frame := next)
  }

  /** `Play`: starts playback when loaded, with frames, and not already playing. */
  function PlayFrom(p: Playback, isLoaded: bool, count: nat): (r: Playback)
    ensures r.frame == p.frame
    ensures r.playing <==> p.playing || (isLoaded && count > 0)
  {
    if !isLoaded || count == 0 then p
    else if !p.playing then p.(playing := true)
    else p
  }

  /** `Resume`: starts playback when loaded and not playing; the frame count is not consulted. */
  function ResumeFrom(p: Playback, isLoaded: bool): (r: Playback)
    ensures r.frame == p.frame
    ensures r.playing <==> p.playing || isLoaded
  {
    if isLoaded && !p.playing then p.(playing := true) else p
  }

  /** The frames shown by `ticks` iterations of the frame loop and the cursor it leaves. */
  datatype RunResult = RunResult(shown: seq<nat>, last: Playback)

  function Run(p: Playback, count: nat, loop: bool, ticks: nat): (r: RunResult)
    ensures |r.shown| <= ticks
    decreases ticks
  {
    if ticks == 0 then RunResult([], p)
    else match ReadFrame(p, count)
      case Shown(i) =>
        var rest := Run(Advance(p, count, loop), count, loop, ticks - 1);
        RunResult([i] + rest.shown, rest.last)
      case _ => RunResult([], p)
  }

  /** The frame shown after frame `i`: the next one, or the first after the last. */
  function NextFrame(i: nat, count: nat): nat {
    if i + 1 == count then 0 else i + 1
  }

  /**
   * A looping animation started on a frame in range shows one frame per
   * iteration: first the frame it started on, then each frame's successor,
   * wrapping from the last frame to the first, always in range.
   */
  lemma {:induction false} LoopingCycles(p: Playback, count: nat, ticks: nat)
    requires p.playing && 0 <= p.frame < count
    decreases ticks
    ensures var r := Run(p, count, true, ticks);
      && |r.shown| == ticks
      && (ticks > 0 ==> r.shown[0] == p.frame)
      && (forall k :: 0 <= k < ticks ==> r.shown[k] < count)
      && (forall k :: 0 <= k < ticks - 1 ==> r.shown[k + 1] == NextFrame(r.shown[k], count))
      && r.last.playing && 0 <= r.last.frame < count
  {
    if ticks > 0 {
      var q := Advance(p, count, true);
      LoopingCycles(q, count, ticks - 1);
      var rest := Run(q, count, true, ticks - 1);
      var all := [p.frame] + rest.shown;
      assert Run(p, count, true, ticks) == RunResult(all, rest.last);
      forall k | 0 <= k < ticks - 1
        ensures all[k + 1] == NextFrame(all[k], count)
      {
        if k == 0 {
          assert all[1] == rest.shown[0] == q.frame;
        } else {
          assert all[k] == rest.shown[k - 1] && all[k + 1] == rest.shown[k];
        }
      }
    }
  }

  /**
   * A non-looping animation started on a frame in range shows every
   * remaining frame once, in order, and then stops with the index equal to
   * the frame count.
   */
  lemma {:induction false} OnceRunsToEnd(p: Playback, count: nat, ticks: nat)
    requires p.playing && 0 <= p.frame < count && ticks >= count - p.frame
    decreases ticks
    ensures var r := Run(p, count, false, ticks);
      && |r.shown| == count - p.frame
      && (forall k :: 0 <= k < |r.shown| ==> r.shown[k] == p.frame + k)
      && r.last == Playback(count, false)
  {
    var q := Advance(p, count, false);
    if p.frame + 1 < count {
      OnceRunsToEnd(q, count, ticks - 1);
    } else {
      assert q == Playback(count, false);
      if ticks - 1 > 0 {
        assert ReadFrame(q, count) == Exited;
      }
    }
  }

  /**
   * Resuming a non-looping animation that has played to its end sends the
   * frame loop to read one past the last frame: the frame index is not reset
   * when playback finishes, and `Resume` does not reset it either.
   */
  lemma ResumeAfterFinishReadsPastEnd(count: nat, start: nat)
    requires start < count
    ensures var finished := Run(Playback(start, true), count, false, count - start).last;
      ReadFrame(ResumeFrom(finished, true), count) == OutOfRange(count)
  {
    OnceRunsToEnd(Playback(start, true), count, count - start);
  }

  class GifFromUrl {
    const loop: bool
    var frameCount: nat
    var isLoaded: bool
    var currentFrame: int
    var isPlaying: bool
    /** How many times the frame-loop coroutine has been started. */
    var coroutinesStarted: nat

    function Cursor(): Playback
      reads this
    {
      Playback(currentFrame, isPlaying)
    }

    constructor(loop: bool)
      ensures this.loop == loop && !isLoaded && frameCount == 0
      ensures Cursor() == Playback(0, false) && coroutinesStarted == 0
    {
      this.loop := loop;
      frameCount, isLoaded, currentFrame, isPlaying, coroutinesStarted := 0, false, 0, false, 0;
    }

    /** The preload branch of `LoadGifInstant`: `count` frames arrive; with any, the GIF is loaded. */
    method LoadPreloaded(count: nat, playOnStart: bool)
      modifies this
      ensures frameCount == count && isLoaded == (old(isLoaded) || count > 0)
      ensures Cursor() == if count > 0 && playOnStart then PlayFrom(old(Cursor()), true, count) else old(Cursor())
      ensures coroutinesStarted ==
        old(coroutinesStarted) + if count > 0 && playOnStart && !old(isPlaying) then 1 else 0
    {
      frameCount := count;
      if count > 0 {
        isLoaded := true;
        if playOnStart {
          Play();
        }
      }
    }

    method Play()
      modifies this
      ensures frameCount == old(frameCount) && isLoaded == old(isLoaded)
      ensures Cursor() == PlayFrom(old(Cursor()), isLoaded, frameCount)
      ensures coroutinesStarted ==
        old(coroutinesStarted) + if isLoaded && frameCount > 0 && !old(isPlaying) then 1 else 0
    {
      if !isLoaded {
        return;
      }
      if frameCount == 0 {
        return;
      }
      if !isPlaying {
        isPlaying := true;
        coroutinesStarted := coroutinesStarted + 1;
      }
    }

    method Stop()
      modifies this
      ensures frameCount == old(frameCount) && isLoaded == old(isLoaded) && coroutinesStarted == old(coroutinesStarted)
      ensures Cursor() == Playback(0, false)
    {
      isPlaying := false;
      currentFrame := 0;
    }

    method Pause()
      modifies this
      ensures frameCount == old(frameCount) && isLoaded == old(isLoaded) && coroutinesStarted == old(coroutinesStarted)
      ensures Cursor() == Playback(old(currentFrame), false)
    {
      isPlaying := false;
    }

    method Resume()
      modifies this
      ensures frameCount == old(frameCount) && isLoaded == old(isLoaded)
      ensures Cursor() == ResumeFrom(old(Cursor()), isLoaded)
      ensures coroutinesStarted == old(coroutinesStarted) + if isLoaded && !old(isPlaying) then 1 else 0
    {
      if isLoaded && !isPlaying {
        isPlaying := true;
        coroutinesStarted := coroutinesStarted + 1;
      }
    }

    /** The end of one frame-loop iteration: on to the next frame, wrapping when looping, else stopping. */
    method StepFrame()
      modifies this
      ensures frameCount == old(frameCount) && isLoaded == old(isLoaded) && coroutinesStarted == old(coroutinesStarted)
      ensures Cursor() == Advance(old(Cursor()), frameCount, loop)
    {
      currentFrame := currentFrame + 1;
      if currentFrame >= frameCount {
        if loop {
          currentFrame := 0;
        } else {
          isPlaying := false;
        }
      }
    }

    /**
     * `ticks` iterations of the frame loop of `PlayAnimation`, with no other
     * call in between; `shown` is the frames displayed, in order.
     */
    method PlayAnimation(ticks: nat) returns (shown: seq<nat>)
      modifies this
      ensures frameCount == old(frameCount) && isLoaded == old(isLoaded) && coroutinesStarted == old(coroutinesStarted)
      ensures RunResult(shown, Cursor()) == Run(old(Cursor()), frameCount, loop, ticks)
    {
      ghost var whole := Run(Cursor(), frameCount, loop, ticks);
      shown := [];
      var n := 0;
      while n < ticks
        invariant n <= ticks
        invariant frameCount == old(frameCount) && isLoaded == old(isLoaded) && coroutinesStarted == old(coroutinesStarted)
        invariant RunSplits(whole, shown, Run(Cursor(), frameCount, loop, ticks - n))
        decreases ticks - n
      {
        ghost var before := Cursor();
        if !isPlaying || frameCount == 0 || !(0 <= currentFrame < frameCount) {
          RunHalts(before, frameCount, loop, ticks - n);
          return;
        }
        RunShows(before, frameCount, loop, ticks - n);
        RunSplitsShift(whole, shown, currentFrame, Run(Advance(before, frameCount, loop), frameCount, loop, ticks - n - 1));
        shown := shown + [currentFrame];
        StepFrame();
        if !isPlaying {
          RunHalts(Cursor(), frameCount, loop, ticks - n - 1);
          return;
        }
        n := n + 1;
      }
      RunHalts(Cursor(), frameCount, loop, 0);
    }
  }

  /** `whole` is `shown` followed by what `rest` shows, ending where `rest` ends. */
  ghost predicate RunSplits(whole: RunResult, shown: seq<nat>, rest: RunResult) {
    whole == RunResult(shown + rest.shown, rest.last)
  }

  lemma RunSplitsShift(whole: RunResult, shown: seq<nat>, i: nat, rest: RunResult)
    requires RunSplits(whole, shown, RunResult([i] + rest.shown, rest.last))
    ensures RunSplits(whole, shown + [i], rest)
  {
    assert shown + ([i] + rest.shown) == shown + [i] + rest.shown;
  }

  lemma RunShows(p: Playback, count: nat, loop: bool, ticks: nat)
    requires ticks > 0 && p.playing && 0 <= p.frame < count
    ensures Run(p, count, loop, ticks) ==
      var rest := Run(Advance(p, count, loop), count, loop, ticks - 1);
      RunResult([p.frame] + rest.shown, rest.last)
  {
  }

  lemma RunHalts(p: Playback, count: nat, loop: bool, ticks: nat)
    requires ticks == 0 || !(p.playing && 0 <= p.frame < count)
    ensures Run(p, count, loop, ticks) == RunResult([], p)
  {
  }
}
