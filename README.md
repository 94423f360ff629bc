# auto_brightness: the manual-offset controller, in Dafny

`auto_brightness` is a daemon. It sets the laptop backlight from the sun's
elevation over Amsterdam and lets the user nudge it with two signals.
`main` keeps one piece of state, `offset`, on top of a baseline `b`, which
`get_current_brightness` reads afresh at every event. The level sent to
`xbacklight` is `b + offset`.

- SIGUSR1 multiplies `b + offset` by `1 + CHANGE_PERCENTAGE` (1.2). SIGUSR2
  multiplies it by `1 - CHANGE_PERCENTAGE` (0.8). The handler clamps the
  result to `[1, 100]` with `between`, stores `offset := level - b` and sends
  the level.
- Each iteration of the poll loop sends `b + offset`. It then multiplies the
  offset by the half-life factor `exp(-ln 2 · loop_time / CHANGE_HALFTIME)`.
  Finally it re-normalises with `offset := between(1, b + offset, 100) - b`
  and measures the next `loop_time`.

The model has three modules:

- `Tools` (tools.dfy): `between` over exact reals, built from Python's `max`
  and `min`. tools.py:36-37 and auto_brightness.py:48-49 define the same
  function, so one definition models both.
- `AutoBrightness` (auto_brightness.dfy):
  - the constants;
  - the `Signal` datatype and its multiplier table;
  - one pure function per state change: `Normalize`, `Handled`, `Decayed`;
  - a `Controller` class with the fields `offset`, `t` and `loopTime`. Its
    constructor, `Handle` and `LoopStep` methods update these fields as
    `main` does, and their `ensures` tie the new state to the pure
    functions.
- `Traces` (brightness_traces.dfy): a run of atomic events (signals and
  loop iterations) folded with the same functions. It proves the
  properties that span several events.

Inputs of the model:

- The baseline `b` is an arbitrary real.
- The decay factor is a function `decay: real -> real` that the controller
  receives at construction. It has the properties `exp(-ln 2 · τ / 1800 s)`
  is known to have (`IsHalfLifeDecay`).
- Clock readings are seconds, passed to `LoopStep`. Line 100 reads the clock
  twice, so `LoopStep` takes two readings.

## Model

| member | source | states |
|---|---|---|
| `Tools.Max` | auto_brightness.py:49 | Python's `max` of two numbers: at least both, and equal to one of them |
| `Tools.Min` | auto_brightness.py:49 | Python's `min` of two numbers: at most both, and equal to one of them |
| `Tools.Between` | tools.py:36-37 | never above `upper`; at least `lower` when `lower <= upper`; `x` itself inside the interval; `lower` below it; `upper` above it; `upper` whenever `lower > upper`, because `min` is applied last |
| `Tools.BetweenIdempotent` | tools.py:37 | clamping a clamped value changes nothing |
| `Tools.BetweenMonotone` | tools.py:37 | `x <= y` implies `between(l, x, u) <= between(l, y, u)` |
| `AutoBrightness.Multiplier` | auto_brightness.py:76-79 | each of the two signals maps to exactly one multiplier, `1 + 0.2` or `1 - 0.2`; only SIGUSR1's exceeds 1, and SIGUSR2's lies in `(0, 1)` |
| `AutoBrightness.Normalize` | auto_brightness.py:96 | after re-normalisation `b + offset` lies in `[1, 100]`; a level already there is untouched; a level below or above is moved exactly to the nearest bound |
| `AutoBrightness.NormalizeIdempotent` | auto_brightness.py:96 | re-normalising twice against the same `b` equals re-normalising once |
| `AutoBrightness.Handled` | auto_brightness.py:74-82 | the handler leaves `b + offset` in `[1, 100]` for the `b` it read. SIGUSR1 ends at least at `min(previous level, 100)` and SIGUSR2 at most at `max(previous level, 1)`. From a level in `[1, 100]`, SIGUSR1 raises it strictly unless the result is 100, and SIGUSR2 lowers it strictly unless the result is 1 |
| `AutoBrightness.Decayed` | auto_brightness.py:94-96 | a loop iteration leaves `b + offset` in `[1, 100]`. For `b` in `[1, 100]` and a positive factor, the offset keeps its sign and is at most `mult` times its old magnitude. A factor of 1 only re-normalises |
| `AutoBrightness.DecayNeverGrows` | auto_brightness.py:94-96 | with a factor in `(0, 1]` and `b` in `[1, 100]`, an iteration never flips the offset's sign and never increases its magnitude |
| `AutoBrightness.HalfLifeHalves` | auto_brightness.py:94-96 | after a loop time of one `CHANGE_HALFTIME`, an iteration at least halves the offset and keeps its sign |
| `AutoBrightness.Controller.constructor` | auto_brightness.py:72-89 | the offset starts at 0, `t` at the start-up clock reading, and `loop_time` at zero |
| `AutoBrightness.Controller.Handle` | auto_brightness.py:74-82 | stores `Handled(sig, b, old offset)` and passes `b + offset` to `set_brightness`, a level in `[1, 100]` |
| `AutoBrightness.Controller.LoopStep` | auto_brightness.py:90-100 | passes `b + old offset` to `set_brightness`, a level not claimed to be in `[1, 100]`. Stores `Decayed(b, old offset, decay(old loop_time))`, so `b + offset` ends in `[1, 100]`. The first iteration (zero loop time) applies no decay. `loop_time` becomes the first clock reading minus the old `t`, and `t` becomes the second reading |
| `Traces.Levels` | auto_brightness.py:82-92 | a run sends exactly one level to `set_brightness` per event |
| `Traces.LevelAt` | auto_brightness.py:82-92 | the i-th level sent is the i-th event's level, computed from the offset that the first i events leave |
| `Traces.RunSettlesDisplayable` | auto_brightness.py:74-96 | whatever happened before, after any event the offset puts that event's baseline at a level in `[1, 100]` |
| `Traces.SignalLevelsDisplayable` | auto_brightness.py:81-82 | every level a signal handler sends, at any point of any run, lies in `[1, 100]` |
| `Traces.IterationLevelDrift` | auto_brightness.py:91-96 | a loop iteration's level lies in `[1, 100]` once shifted back by the change in baseline since the previous event. With an unchanged baseline it lies in `[1, 100]` |
| `Traces.SettlingNeverGrows` | auto_brightness.py:90-96 | over any run of loop iterations without signals, with baselines in `[1, 100]` and factors in `(0, 1]`, the offset keeps its sign and its magnitude never grows |
| `Traces.PressesCompound` | auto_brightness.py:74-82 | from a level in `[1, 100]`, `n` presses of one signal against an unchanged baseline scale the level `n` times by that signal's multiplier and clamp it only once, at the end |

## Left out

- `get_current_brightness` (auto_brightness.py:33-40) computes the ephemeris sun altitude and `ceil(100 · exp(2 sin θ − 2))` in floating point. The baseline `b` is an input instead. Its real range, the integers 2 to 100, is not modelled. Lemmas that need it require `b` in `[1, 100]`.
- The decay factor's computation from `datetime`/`timedelta` with `exp` and `ln` (auto_brightness.py:94) is floating point. The controller takes it as a function satisfying `IsHalfLifeDecay`. The factor is at most 1 only for a non-negative loop time. `datetime.now()` is a wall clock and can go backwards, so `LoopStep` does not assume a non-negative loop time. The decay lemmas take a factor in `(0, 1]`.
- All numbers are exact reals. Floating-point rounding is not modelled. For example, `b + (x - b) == x` holds here but not always in IEEE doubles.
- `set_brightness` (auto_brightness.py:43-45) is a `subprocess` call to `xbacklight`. It is I/O. The methods return the level they would pass to it.
- A failing `xbacklight` is left out. `check_call` (auto_brightness.py:45) then raises and nothing in `main` catches it, so the daemon stops. In the handler that happens after the offset is stored (line 81 before line 82); in the loop it happens before the decay (line 92 before lines 95-96). Every event of the model completes.
- `running_once` (auto_brightness.py:52-67, tools.py:18-33) takes an `fcntl` lock and writes the pid. It is OS I/O.
- The `sleep` wrappers (auto_brightness.py:23-30, tools.py:8-15) are timing plus a `TypeError` fallback.
- Signal registration (auto_brightness.py:85-86) is left out. So is a handler preempting the loop in the middle of an iteration. Handler and loop iteration are atomic events. The `KeyError` that the lookup table would raise for any other signal cannot happen, because only SIGUSR1 and SIGUSR2 are registered. `Signal` therefore has only those two values.
- The `print` diagnostics and the non-terminating `while True` are left out. A run is a finite sequence of events.
- `AutoBrightness.DecayNeverGrows`, `Traces.SettlingNeverGrows`: require baselines in `[1, 100]`. Without that bound, re-normalisation can flip the offset's sign. `get_current_brightness` always returns a value in that range, but the model does not include it.
