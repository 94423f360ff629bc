/**
 Runs of the controller in auto_brightness.py's `main`: a signal and a loop
 iteration are atomic events, each reading its own baseline, and a run is
 the sequence of events since start-up. These lemmas state what holds over
 many events: where the offset settles, which levels reach `set_brightness`,
 that without signals the offset never grows, and how repeated signals
 compound.
 */
module Traces {
  import opened Tools
  import opened AutoBrightness

  /** One atomic event: a signal handled against baseline `b`, or a loop iteration reading `b` and decaying by `mult`. */
  datatype Event = Press(sig: Signal, b: real) | Iteration(b: real, mult: real)

  /** The offset an event leaves behind. */
  function Step(offset: real, e: Event): real
  {
    match e
    case Press(sig, b) => Handled(sig, b, offset)
    case Iteration(b, mult) => Decayed(b, offset, mult)
  }

  /** The level an event passes to `set_brightness`, given the offset before it. */
  function Pushed(offset: real, e: Event): real
  {
    match e
    case Press(sig, b) => b + Handled(sig, b, offset)
    case Iteration(b, _) => b + offset
  }

  /** The offset after a run of events. */
  function Run(offset: real, trace: seq<Event>): real
    decreases |trace|
  {
    if trace == [] then offset else Run(Step(offset, trace[0]), trace[1..])
  }

  /** The levels a run passes to `set_brightness`, one per event, in order. */
  function Levels(offset: real, trace: seq<Event>): (levels: seq<real>)
    ensures |levels| == |trace|
    decreases |trace|
  {
    if trace == [] then [] else [Pushed(offset, trace[0])] + Levels(Step(offset, trace[0]), trace[1..])
  }

  /** The i-th level pushed is the i-th event's level, given the offset the first i events leave. */
  lemma {:induction false} LevelAt(offset: real, trace: seq<Event>, i: nat)
    requires i < |trace|
    ensures Levels(offset, trace)[i] == Pushed(Run(offset, trace[..i]), trace[i])
    decreases i
  {
    if i > 0 {
      assert trace[..i][1..] == trace[1..][..i - 1];
      LevelAt(Step(offset, trace[0]), trace[1..], i - 1);
    }
  }

  /** Whatever the history, after any event the offset puts that event's baseline at a displayable level. */
  lemma {:induction false} RunSettlesDisplayable(offset: real, trace: seq<Event>)
    requires trace != []
    ensures Displayable(trace[|trace| - 1].b + Run(offset, trace))
    decreases |trace|
  {
    if |trace| > 1 {
      assert trace[1..][|trace[1..]| - 1] == trace[|trace| - 1];
      RunSettlesDisplayable(Step(offset, trace[0]), trace[1..]);
    }
  }

  /** Every level a signal handler pushes is displayable. */
  lemma SignalLevelsDisplayable(offset: real, trace: seq<Event>, i: nat)
    requires i < |trace| && trace[i].Press?
    ensures Displayable(Levels(offset, trace)[i])
  {
    LevelAt(offset, trace, i);
  }

  /**
   A loop iteration pushes the fresh baseline plus an offset normalised
   against the previous event's baseline, so its level is displayable up to
   the change in baseline between the two events; with an unchanged baseline
   it is displayable.
   */
  lemma IterationLevelDrift(offset: real, trace: seq<Event>, i: nat)
    requires 0 < i < |trace| && trace[i].Iteration?
    ensures Displayable(Levels(offset, trace)[i] - (trace[i].b - trace[i - 1].b))
    ensures trace[i].b == trace[i - 1].b ==> Displayable(Levels(offset, trace)[i])
  {
    LevelAt(offset, trace, i);
    assert trace[..i][|trace[..i]| - 1] == trace[i - 1];
    RunSettlesDisplayable(offset, trace[..i]);
  }

  /** A run of loop iterations only, each with a displayable baseline and a decay factor in `(0, 1]`. */
  predicate Settling(trace: seq<Event>)
    decreases |trace|
  {
    trace != [] ==>
      && trace[0].Iteration?
      && Displayable(trace[0].b)
      && 0.0 < trace[0].mult <= 1.0
      && Settling(trace[1..])
  }

  /** Without signals, the offset keeps its sign and its magnitude never grows. */
  lemma {:induction false} SettlingNeverGrows(offset: real, trace: seq<Event>)
    requires Settling(trace)
    ensures offset >= 0.0 ==> 0.0 <= Run(offset, trace) <= offset
    ensures offset <= 0.0 ==> offset <= Run(offset, trace) <= 0.0
    decreases |trace|
  {
    if trace != [] {
      var next := Decayed(trace[0].b, offset, trace[0].mult);
      assert Run(offset, trace) == Run(next, trace[1..]);
      DecayNeverGrows(trace[0].b, offset, trace[0].mult);
      SettlingNeverGrows(next, trace[1..]);
    }
  }

  /** Scaling by a non-negative factor preserves order. */
  lemma ScaleMonotone(x: real, y: real, c: real)
    requires x <= y && 0.0 <= c
    ensures x * c <= y * c && c * x <= c * y
  {
    assert y * c - x * c == (y - x) * c;
  }

  /** A level scaled `n` times by `m`, never clamped. */
  function Scaled(level: real, m: real, n: nat): real
    decreases n
  {
    if n == 0 then level else Scaled(level * m, m, n - 1)
  }

  /** Scaling a non-negative level by factors of at least 1 never lowers it; by factors in `(0, 1]` never raises it. */
  lemma {:induction false} ScaledBounds(level: real, m: real, n: nat)
    requires 0.0 <= level && 0.0 < m
    ensures 0.0 <= Scaled(level, m, n)
    ensures 1.0 <= m ==> level <= Scaled(level, m, n)
    ensures m <= 1.0 ==> Scaled(level, m, n) <= level
    decreases n
  {
    if n > 0 {
      ScaleMonotone(0.0, level, m);
      ScaledBounds(level * m, m, n - 1);
      if 1.0 <= m {
        ScaleMonotone(1.0, m, level);
      } else {
        ScaleMonotone(m, 1.0, level);
      }
    }
  }

  /** `n` presses of the same signal, the baseline unchanged. */
  function Presses(sig: Signal, b: real, n: nat): (trace: seq<Event>)
    decreases n
  {
    if n == 0 then [] else [Press(sig, b)] + Presses(sig, b, n - 1)
  }

  lemma PressesUnfold(sig: Signal, b: real, offset: real, n: nat)
    requires n > 0
    ensures Run(offset, Presses(sig, b, n)) == Run(Handled(sig, b, offset), Presses(sig, b, n - 1))
  {
    assert Presses(sig, b, n)[0] == Press(sig, b);
    assert Presses(sig, b, n)[1..] == Presses(sig, b, n - 1);
  }

  /**
   Clamping after the first scaling by a signal's multiplier makes no
   difference once the last scaling is clamped, starting from a displayable
   level: SIGUSR1 stays above 1 all along and SIGUSR2 below 100.
   */
  lemma ClampFirstIsClampLast(sig: Signal, level: real, k: nat)
    requires Displayable(level)
    ensures var once := level * Multiplier(sig);
      Between(Dimmest, Scaled(Between(Dimmest, once, Brightest), Multiplier(sig), k), Brightest)
        == Between(Dimmest, Scaled(once, Multiplier(sig), k), Brightest)
  {
    var m := Multiplier(sig);
    var once := level * m;
    var clamped := Between(Dimmest, once, Brightest);
    ScaleMonotone(0.0, level, m);
    ScaledBounds(once, m, k);
    ScaledBounds(clamped, m, k);
    if sig == SigUsr1 {
      ScaleMonotone(1.0, m, level);
      assert Dimmest <= once;
    } else {
      ScaleMonotone(m, 1.0, level);
      assert once <= Brightest;
    }
  }

  /**
   Repeated signals against an unchanged baseline compound: from a
   displayable level, `n` presses scale it `n` times by the signal's
   multiplier and clamp only once, at the end.
   */
  lemma {:induction false} PressesCompound(sig: Signal, b: real, offset: real, n: nat)
    requires Displayable(b + offset)
    ensures b + Run(offset, Presses(sig, b, n)) == Between(Dimmest, Scaled(b + offset, Multiplier(sig), n), Brightest)
    decreases n
  {
    if n > 0 {
      var next := Handled(sig, b, offset);
      PressesUnfold(sig, b, offset, n);
      PressesCompound(sig, b, next, n - 1);
      ClampFirstIsClampLast(sig, b + offset, n - 1);
      assert b + next == Between(Dimmest, (b + offset) * Multiplier(sig), Brightest);
    }
  }
}
