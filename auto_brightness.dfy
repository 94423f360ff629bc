/**
 The manual-offset controller of auto_brightness.py's `main`.

 The brightness actually set is `b + offset`, where `b` is the baseline that
 the sun's elevation gives (read afresh by every event) and `offset` is the
 user's correction. A signal scales `b + offset` by 1.2 (SIGUSR1) or 0.8
 (SIGUSR2); every loop iteration shrinks the offset by the half-life decay
 factor. Both events then clamp `b + offset` to `[1, 100]` and store the
 clamped level back as `offset := level - b`.

 The baseline, the clock and the decay factor are inputs of the model; all
 numbers are exact reals.
 */
module AutoBrightness {
  import opened Tools

  /** CHANGE_PERCENTAGE: the relative step of one signal. */
  const ChangePercentage: real := 0.2

  /** CHANGE_HALFTIME, 30 minutes, in seconds. */
  const ChangeHalftime: real := 1800.0

  /** The bounds `main` passes to `between`. */
  const Dimmest: real := 1.0
  const Brightest: real := 100.0

  /** A backlight level the controller can settle on. */
  predicate Displayable(level: real) {
    Dimmest <= level <= Brightest
  }

  /** The two signals a handler is registered for. */
  datatype Signal = SigUsr1 | SigUsr2

  /** The handler's lookup table: exactly one multiplier per signal, brightening only for SIGUSR1. */
  function Multiplier(sig: Signal): (m: real)
    ensures m == 1.0 + ChangePercentage || m == 1.0 - ChangePercentage
    ensures sig == SigUsr1 <==> m > 1.0
    ensures sig == SigUsr2 <==> 0.0 < m < 1.0
  {
    match sig
    case SigUsr1 => 1.0 + ChangePercentage
    case SigUsr2 => 1.0 - ChangePercentage
  }

  /**
   The re-normalisation `offset := between(1, b + offset, 100) - b`: the
   offset that makes `b + offset` displayable, moving it no further than the
   nearest bound.
   */
  function Normalize(b: real, offset: real): (r: real)
    ensures Displayable(b + r)
    ensures Displayable(b + offset) ==> r == offset
    ensures b + offset < Dimmest ==> b + r == Dimmest
    ensures Brightest < b + offset ==> b + r == Brightest
  {
    Between(Dimmest, b + offset, Brightest) - b
  }

  /** Normalising twice against the same baseline is normalising once. */
  lemma NormalizeIdempotent(b: real, offset: real)
    ensures Normalize(b, Normalize(b, offset)) == Normalize(b, offset)
  {
  }

  /**
   The offset the signal handler stores:
   `between(1, (b + offset) * multiplier, 100) - b`.
   SIGUSR1 never lowers a displayable level and raises it unless it is
   already at 100; SIGUSR2 never raises it and lowers it unless it is at 1.
   Whatever the previous level, the result is displayable, SIGUSR1 ends at
   least at `min(level, 100)` and SIGUSR2 at most at `max(level, 1)`.
   */
  function Handled(sig: Signal, b: real, offset: real): (r: real)
    ensures Displayable(b + r)
    ensures sig == SigUsr1 ==> b + r >= Min(b + offset, Brightest)
    ensures sig == SigUsr2 ==> b + r <= Max(b + offset, Dimmest)
    ensures sig == SigUsr1 && Displayable(b + offset) ==> b + r > b + offset || b + r == Brightest
    ensures sig == SigUsr2 && Displayable(b + offset) ==> b + r < b + offset || b + r == Dimmest
  {
    var level := b + offset;
    assert sig == SigUsr1 ==> level * Multiplier(sig) == level + level * ChangePercentage;
    assert sig == SigUsr2 ==> level * Multiplier(sig) == level - level * ChangePercentage;
    Between(Dimmest, level * Multiplier(sig), Brightest) - b
  }

  /**
   The offset one loop iteration leaves behind: `offset *= mult` followed by
   the re-normalisation. For a displayable baseline and a positive factor
   the offset keeps its sign and shrinks at least by the factor; a factor of
   1 (no time elapsed) only normalises.
   */
  function Decayed(b: real, offset: real, mult: real): (r: real)
    ensures Displayable(b + r)
    ensures Displayable(b) && 0.0 < mult && 0.0 <= offset ==> 0.0 <= r <= offset * mult
    ensures Displayable(b) && 0.0 < mult && offset <= 0.0 ==> offset * mult <= r <= 0.0
    ensures mult == 1.0 ==> r == Normalize(b, offset)
  {
    Normalize(b, offset * mult)
  }

  /**
   A decay factor in `(0, 1]` never flips the sign of the offset and never
   makes it larger, whenever the baseline is displayable.
   */
  lemma DecayNeverGrows(b: real, offset: real, mult: real)
    requires Displayable(b) && 0.0 < mult <= 1.0
    ensures offset >= 0.0 ==> 0.0 <= Decayed(b, offset, mult) <= offset
    ensures offset <= 0.0 ==> offset <= Decayed(b, offset, mult) <= 0.0
  {
    assert offset - offset * mult == offset * (1.0 - mult);
    if offset >= 0.0 {
      assert offset * (1.0 - mult) >= 0.0;
    } else {
      assert offset * (1.0 - mult) <= 0.0;
    }
  }

  /**
   What `exp(-ln 2 * loop_time / CHANGE_HALFTIME)` is known to satisfy:
   1 for no elapsed time, always positive, at most 1 for non-negative
   elapsed time, and one half after one half-life.
   */
  ghost predicate IsHalfLifeDecay(decay: real -> real) {
    && decay(0.0) == 1.0
    && (forall tau :: 0.0 < decay(tau))
    && (forall tau :: 0.0 <= tau ==> decay(tau) <= 1.0)
    && decay(ChangeHalftime) == 0.5
  }

  /** After one half-life, an iteration at least halves the offset. */
  lemma HalfLifeHalves(decay: real -> real, b: real, offset: real)
    requires IsHalfLifeDecay(decay) && Displayable(b)
    ensures offset >= 0.0 ==> 0.0 <= Decayed(b, offset, decay(ChangeHalftime)) <= offset / 2.0
    ensures offset <= 0.0 ==> offset / 2.0 <= Decayed(b, offset, decay(ChangeHalftime)) <= 0.0
  {
  }

  /**
   The state of `main` after start-up: the offset, the clock reading `t`
   taken at the end of the previous iteration and the measured `loop_time`
   (both in seconds), and the decay law.
   */
  class Controller {
    var offset: real
    var t: real
    var loopTime: real
    const decay: real -> real

    ghost predicate Valid()
    {
      IsHalfLifeDecay(decay)
    }

    /** `offset = 0`, `t = datetime.now()`, `loop_time = timedelta()`. */
    constructor (decay: real -> real, now: real)
      requires IsHalfLifeDecay(decay)
      ensures Valid() && this.decay == decay
      ensures offset == 0.0 && t == now && loopTime == 0.0
    {
      this.decay := decay;
      offset := 0.0;
      t := now;
      loopTime := 0.0;
    }

    /**
     The signal handler, given the baseline it reads. It stores the new
     offset and returns the level it passes to `set_brightness`, which is
     always displayable.
     */
    method Handle(sig: Signal, b: real) returns (pushed: real)
      modifies this`offset
      ensures offset == Handled(sig, b, old(offset))
      ensures pushed == b + offset && Displayable(pushed)
    {
      var multiplier := Multiplier(sig);
      var level := Between(Dimmest, (b + offset) * multiplier, Brightest);
      assert level - b == Handled(sig, b, offset);
      offset := level - b;
      pushed := b + offset;
    }

    /**
     One iteration of the `while True` loop, given the baseline it reads and
     the two clock readings taken after the sleep. It returns the level it
     passes to `set_brightness` (the fresh baseline plus the offset left by
     the previous event, which need not be displayable), decays the offset by
     the factor for the previously measured loop time, normalises it against
     this baseline, and measures the new loop time. The first iteration after
     start-up applies no decay.
     */
    method LoopStep(b: real, clockAfterSleep: real, clockAgain: real) returns (pushed: real)
      requires Valid()
      modifies this`offset, this`t, this`loopTime
      ensures pushed == b + old(offset)
      ensures offset == Decayed(b, old(offset), decay(old(loopTime)))
      ensures Displayable(b + offset)
      ensures old(loopTime) == 0.0 ==> offset == Normalize(b, old(offset))
      ensures loopTime == clockAfterSleep - old(t) && t == clockAgain
    {
      pushed := b + offset;
      var mult := decay(loopTime);
      offset := offset * mult;
      offset := Between(Dimmest, b + offset, Brightest) - b;
      loopTime, t := clockAfterSleep - t, clockAgain;
    }
  }
}
