/** The looping frame counter of a sprite animation. An `Animation` object is
    updated in place once per game tick; its behaviour is specified by the
    pure step function `Advanced` on `AnimationState`. */
module Animations {

  /** The seven fields of an animation, as a value. */
  datatype AnimationState = AnimationState(
    first: int,
    last: int,
    step: int,           // how many frame indices one advance moves
    speedInTps: real,    // how many ticks each frame is shown for
    frameCounter: real,  // ticks left before the next advance
    frame: int,
    y: int)              // row of a horizontal sprite sheet

  /** The frame after one advance: `step` further on, wrapping to `first`
      once it passes `last`. */
  function NextFrame(s: AnimationState): (f: int)
    ensures s.first <= s.frame <= s.last && s.step >= 0 ==> s.first <= f <= s.last
    ensures f == s.first || f == s.frame + s.step
  {
    if s.frame + s.step > s.last then s.first else s.frame + s.step
  }

  /** One call of `Update`: the counter drops by one; when it is no longer
      positive it is reloaded from `speedInTps` and the frame advances. */
  function Advanced(s: AnimationState): (r: AnimationState)
    ensures r.first == s.first && r.last == s.last && r.step == s.step
    ensures r.speedInTps == s.speedInTps && r.y == s.y
  {
    if s.frameCounter - 1.0 <= 0.0 then
      s.(frameCounter := s.speedInTps, frame := NextFrame(s))
    else
      s.(frameCounter := s.frameCounter - 1.0)
  }

  /** `n` consecutive calls of `Update`. */
  function AdvancedN(s: AnimationState, n: nat): AnimationState
  {
    if n == 0 then s else Advanced(AdvancedN(s, n - 1))
  }

  /** The frame advanced `n` times, without any waiting. */
  function NextFrameN(s: AnimationState, n: nat): int
  {
    if n == 0 then s.frame else NextFrame(s.(frame := NextFrameN(s, n - 1)))
  }

  ghost predicate FrameInRange(s: AnimationState) {
    s.first <= s.frame <= s.last && s.step >= 0
  }

  /** A frame inside `[first, last]` with a non-negative step stays inside
      it over any number of calls, whatever the counter does. */
  lemma {:induction false} AdvancedNKeepsFrameInRange(s: AnimationState, n: nat)
    requires FrameInRange(s)
    ensures FrameInRange(AdvancedN(s, n))
  {
    if n > 0 {
      AdvancedNKeepsFrameInRange(s, n - 1);
    }
  }

  /** With a whole number `m >= 1` of ticks left on the counter, the next
      `m - 1` calls only count down and the `m`-th reloads the counter and
      advances the frame. */
  lemma {:induction false} CountDown(s: AnimationState, m: nat, k: nat)
    requires m >= 1 && s.frameCounter == m as real
    requires k <= m
    ensures k < m ==> AdvancedN(s, k) == s.(frameCounter := (m - k) as real)
    ensures k == m ==> AdvancedN(s, k) == s.(frameCounter := s.speedInTps, frame := NextFrame(s))
  {
    if k > 0 {
      CountDown(s, m, k - 1);
    }
  }

  lemma {:induction false} AdvancedNAdd(s: AnimationState, a: nat, b: nat)
    ensures AdvancedN(s, a + b) == AdvancedN(AdvancedN(s, a), b)
  {
    if b > 0 {
      AdvancedNAdd(s, a, b - 1);
    }
  }

  /** With an integer speed `S >= 1` and a freshly loaded counter, the frame
      advances exactly once every `S` calls: after `n * S + k` calls with
      `k < S` it has advanced `n` times and the counter shows `S - k`. */
  lemma {:induction false} AdvancesOnceEverySpeedTicks(s: AnimationState, speed: nat, n: nat, k: nat)
    requires speed >= 1 && s.speedInTps == speed as real && s.frameCounter == s.speedInTps
    requires k < speed
    ensures AdvancedN(s, n * speed + k).frame == NextFrameN(s, n)
    ensures AdvancedN(s, n * speed + k).frameCounter == (speed - k) as real
  {
    var base := s.(frame := NextFrameN(s, n));
    if n == 0 {
      CountDown(s, speed, k);
    } else {
      var prev := s.(frame := NextFrameN(s, n - 1));
      AdvancesOnceEverySpeedTicks(s, speed, n - 1, 0);
      AdvancedNKeepsConfig(s, (n - 1) * speed);
      assert AdvancedN(s, (n - 1) * speed) == prev;
      CountDown(prev, speed, speed);
      assert AdvancedN(prev, speed) == base;
      AdvancedNAdd(s, (n - 1) * speed, speed);
      assert (n - 1) * speed + speed == n * speed;
      assert AdvancedN(s, n * speed) == base;
      CountDown(base, speed, k);
      AdvancedNAdd(s, n * speed, k);
    }
  }

  /** The fields other than the counter and the frame never change. */
  lemma {:induction false} AdvancedNKeepsConfig(s: AnimationState, n: nat)
    ensures AdvancedN(s, n).first == s.first && AdvancedN(s, n).last == s.last
    ensures AdvancedN(s, n).step == s.step && AdvancedN(s, n).speedInTps == s.speedInTps
    ensures AdvancedN(s, n).y == s.y
  {
    if n > 0 {
      AdvancedNKeepsConfig(s, n - 1);
    }
  }

  class Animation {
    var first: int
    var last: int
    var step: int
    var speedInTps: real
    var frameCounter: real
    var frame: int
    var y: int

    function State(): AnimationState
      reads this
    {
      AnimationState(first, last, step, speedInTps, frameCounter, frame, y)
    }

    /** `NewAnimationVertical`: starts on `first`, with a full counter. */
    constructor NewAnimationVertical(first: int, last: int, step: int, speedInTps: real)
      ensures State() == AnimationState(first, last, step, speedInTps, speedInTps, first, 0)
    {
      this.first := first;
      this.last := last;
      this.step := step;
      this.speedInTps := speedInTps;
      this.frameCounter := speedInTps;
      this.frame := first;
      this.y := 0;
    }

    /** `NewAnimationHorizotal`: frames `0..last` of row `y`, one at a time. */
    constructor NewAnimationHorizontal(y: int, last: int, speedInTps: real)
      ensures State() == AnimationState(0, last, 1, speedInTps, speedInTps, 0, y)
    {
      this.first := 0;
      this.last := last;
      this.step := 1;
      this.speedInTps := speedInTps;
      this.frameCounter := speedInTps;
      this.frame := 0;
      this.y := y;
    }

    /** The current frame and sprite-sheet row; reading changes nothing. */
    function Frame(): (r: (int, int))
      reads this
      ensures r.0 == State().frame && r.1 == State().y
    {
      (frame, y)
    }

    method Update()
      modifies this
      ensures State() == Advanced(old(State()))
    {
      frameCounter := frameCounter - 1.0;
      if frameCounter <= 0.0 {
        frameCounter := speedInTps;
        frame := frame + step;
        if frame > last {
          frame := first;
        }
      }
    }
  }
}
