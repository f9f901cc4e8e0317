# InitTimer, modelled in Dafny

`jdk.vm.ci.common.InitTimer` times the steps of JVMCI's runtime
initialization. When the `jvmci.InitTimer` system property is true, each
`InitTimer.timer(name)` call opens a timer: it raises a process-wide nesting
counter, makes the calling thread the initializing thread when the counter was
0 (asserting otherwise that the caller is that thread), and prints
`START: ` followed by twice the old depth in blanks and the name. `close()`
lowers the counter, prints ` DONE: ` with the same kind of indentation, the
name and the elapsed milliseconds, and forgets the initializing thread once the
counter is back at 0. When the property is false both factories return null.

The model has four modules:

- `Wrappers` (wrappers.dfy): `Option`, standing in for a nullable reference.
- `JavaLang` (java_lang.dfy): the Java semantics the class relies on. This is
  32-bit `int` and 64-bit `long` wrap-around, `String.substring` with its
  out-of-bounds exception, and `Long.toString` with a parser that inverts it.
- `InitTimers` (init_timer.dfy): the printed lines (`Line`), the timer
  handle (`InitTimer`), the exceptions (`Failure`), and the static state as a
  value (`Globals`). The constructor, `close` and `timer` are pure step
  functions (`OpenStep`, `CloseStep`, `TimerStep`) whose contracts state
  what each step does. The class `Runtime` holds the same state in mutable
  fields; its methods update them statement by statement as the Java code
  does, and each is proved equal to its step function.
- `InitTimerUsage` (init_timer_usage.dfy): callers' `try (InitTimer t =
  InitTimer.timer(name)) { ... }` blocks, nested and run on one thread.
  Lemmas cover well-nested runs, the disabled facility, a timer nested too
  deep, and a nested timer opened from a foreign thread.

Inputs the class reads from its environment are parameters:

- `System.currentTimeMillis()` is `now`.
- `Thread.currentThread()` is `tid`.
- The `jvmci.InitTimer` property is `Runtime.enabled`.
- Whether Java assertions are enabled for this class is `Runtime.assertionsEnabled`.

`System.out` is the sequence `out` of `Line` values; `Render` gives
each line's text.

The model keeps these details of the code, some of which a reader might not
expect:

- The elapsed time is the raw `long` difference `end - start`. It is
  negative if the clock went backwards. Nothing makes it non-negative.
- The thread check is a Java `assert`. It fails only when assertions are on.
- The thread check is not the only exception. `SPACES` has 44 blanks, so
  `SPACES.substring(0, n * 2)` throws `StringIndexOutOfBoundsException` when
  a timer is opened inside 23 others, and also when the depth has gone negative.
  Because `n * 2` is 32-bit arithmetic, depths from `Integer.MIN_VALUE` to
  `Integer.MIN_VALUE + 22` also give a valid bound (`Indent`).
- An exception in the constructor leaves the counter raised. No timer is
  returned, so that increment is never undone. The enclosing blocks still
  call `close()`, and each call lowers the depth by one. A close whose
  indentation is then out of bounds throws and prints no ` DONE:` line.
  From then on the depth is one higher than the number of open timers (`TooDeepBlockLeaksDepth`, `ForeignThreadBlockFails`).

## Model

| member | source | states |
|---|---|---|
| JavaLang.Increment | JDK1.9/src/jdk.internal.vm.ci/jdk.vm.ci.common/src/jdk/vm/ci/common/InitTimer.java:37 | `getAndIncrement` leaves the depth one higher, wrapping from `Integer.MAX_VALUE` to `Integer.MIN_VALUE` |
| JavaLang.Decrement | JDK1.9/src/jdk.internal.vm.ci/jdk.vm.ci.common/src/jdk/vm/ci/common/InitTimer.java:52 | `decrementAndGet` returns the depth one lower, wrapping from `Integer.MIN_VALUE` to `Integer.MAX_VALUE` |
| JavaLang.IncrementDecrement | JDK1.9/src/jdk.internal.vm.ci/jdk.vm.ci.common/src/jdk/vm/ci/common/InitTimer.java:52 | lowering the depth undoes raising it, and the other way round, wrap-around included |
| JavaLang.LongSub | JDK1.9/src/jdk.internal.vm.ci/jdk.vm.ci.common/src/jdk/vm/ci/common/InitTimer.java:53 | `end - start` is the exact difference whenever it fits in a `long`, and otherwise differs from it by a multiple of 2^64 (wraps); it is never clamped |
| JavaLang.Substring | JDK1.9/src/jdk.internal.vm.ci/jdk.vm.ci.common/src/jdk/vm/ci/common/InitTimer.java:46 | `substring(begin, end)` succeeds exactly when `0 <= begin <= end <= length`, and then yields the characters in that range |
| JavaLang.LongToString | JDK1.9/src/jdk.internal.vm.ci/jdk.vm.ci.common/src/jdk/vm/ci/common/InitTimer.java:53 | the decimal text of the elapsed time is non-empty and starts with '-' exactly when the value is negative |
| JavaLang.LongToStringRoundTrip | JDK1.9/src/jdk.internal.vm.ci/jdk.vm.ci.common/src/jdk/vm/ci/common/InitTimer.java:53 | the decimal text printed for the elapsed time parses back to the same value |
| InitTimers.Indent | JDK1.9/src/jdk.internal.vm.ci/jdk.vm.ci.common/src/jdk/vm/ci/common/InitTimer.java:74 | `SPACES.substring(0, n * 2)` succeeds exactly for depths 0..22 and `Integer.MIN_VALUE`..`Integer.MIN_VALUE + 22`, and then yields exactly `2 * n` blanks (mod 2^32) |
| InitTimers.Render | JDK1.9/src/jdk.internal.vm.ci/jdk.vm.ci.common/src/jdk/vm/ci/common/InitTimer.java:40-53 | the printed texts: `INITIALIZING THREAD: ` then the thread's text; `START: ` then the indentation then the name; ` DONE: ` then the indentation, the name, ` [` and, last, ` ms]` (what stands between is the elapsed time, see `RenderedElapsed`) |
| InitTimers.RenderedElapsed | JDK1.9/src/jdk.internal.vm.ci/jdk.vm.ci.common/src/jdk/vm/ci/common/InitTimer.java:53 | a printed ` DONE:` line ends in " ms]", and the text between " [" and " ms]" is exactly `Long.toString` of the elapsed time, which reads back as that value |
| InitTimers.OpenStep | JDK1.9/src/jdk.internal.vm.ci/jdk.vm.ci.common/src/jdk/vm/ci/common/InitTimer.java:36-47 | the depth rises by one. At depth 0 the caller becomes the initializing thread, and `INITIALIZING THREAD:` precedes `START:`. Otherwise the owner is unchanged. The open fails exactly on a foreign thread with assertions on (`AssertionError`), or when the indentation is out of bounds (`StringIndexOutOfBoundsException` for bound `n * 2`); a failed open prints nothing. On success at depth n the output gains `START:` with 2n blanks, and the handle holds the name and the start time |
| InitTimers.CloseStep | JDK1.9/src/jdk.internal.vm.ci/jdk.vm.ci.common/src/jdk/vm/ci/common/InitTimer.java:50-57 | the depth falls by one. It fails exactly when the new depth's indentation is out of bounds, with `StringIndexOutOfBoundsException` for bound `n * 2`, and then nothing else changes. The owner is cleared exactly when the new depth is 0 and is otherwise untouched. At new depth n the output gains ` DONE:` with 2n blanks, the name and the raw elapsed time |
| InitTimers.TimerStep | JDK1.9/src/jdk.internal.vm.ci/jdk.vm.ci.common/src/jdk/vm/ci/common/InitTimer.java:59-61 | disabled, `timer(name)` returns null and leaves depth, owner and output as they were; enabled, it is exactly the constructor step `OpenStep`, with all of that step's promises |
| InitTimers.Runtime.constructor | JDK1.9/src/jdk.internal.vm.ci/jdk.vm.ci.common/src/jdk/vm/ci/common/InitTimer.java:71-79 | the class starts with depth 0, no initializing thread and no output; the enable flag is fixed from then on |
| InitTimers.Runtime.Open | JDK1.9/src/jdk.internal.vm.ci/jdk.vm.ci.common/src/jdk/vm/ci/common/InitTimer.java:36-47 | the private constructor, step by step, changes the fields exactly as `OpenStep` says and returns its result |
| InitTimers.Runtime.Close | JDK1.9/src/jdk.internal.vm.ci/jdk.vm.ci.common/src/jdk/vm/ci/common/InitTimer.java:50-57 | `close()`, step by step, changes the fields exactly as `CloseStep` says |
| InitTimers.Runtime.Timer | JDK1.9/src/jdk.internal.vm.ci/jdk.vm.ci.common/src/jdk/vm/ci/common/InitTimer.java:59-61 | `timer(name)` changes the fields exactly as `TimerStep` says; disabled, the state stays at its initial value |
| InitTimers.Runtime.TimerWithSuffix | JDK1.9/src/jdk.internal.vm.ci/jdk.vm.ci.common/src/jdk/vm/ci/common/InitTimer.java:63-65 | `timer(name, suffix)` behaves exactly as `timer(name + suffix)` |
| InitTimerUsage.OpenFits | JDK1.9/src/jdk.internal.vm.ci/jdk.vm.ci.common/src/jdk/vm/ci/common/InitTimer.java:37-46 | opening at depth d <= 22 on the owning thread (any thread at depth 0) succeeds, makes the depth d + 1 and the caller the owner, and prints the start lines of depth d |
| InitTimerUsage.CloseFits | JDK1.9/src/jdk.internal.vm.ci/jdk.vm.ci.common/src/jdk/vm/ci/common/InitTimer.java:51-56 | closing from depth d + 1 with d <= 22 succeeds, restores depth d and the owner of depth d (none at 0), and prints ` DONE:` with 2d blanks |
| InitTimerUsage.WellNestedBlock | JDK1.9/src/jdk.internal.vm.ci/jdk.vm.ci.common/src/jdk/vm/ci/common/InitTimer.java:36-57 | a timed block whose nesting fits in 23 levels runs without exception. It leaves depth and owner as they were. It prints exactly its reference lines: `START:` and ` DONE:` at the same indentation, with the nested blocks' lines between |
| InitTimerUsage.WellNestedForest | JDK1.9/src/jdk.internal.vm.ci/jdk.vm.ci.common/src/jdk/vm/ci/common/InitTimer.java:36-57 | the same for a sequence of sibling blocks: their reference lines in order, depth and owner unchanged |
| InitTimerUsage.WellNestedRunEndsIdle | JDK1.9/src/jdk.internal.vm.ci/jdk.vm.ci.common/src/jdk/vm/ci/common/InitTimer.java:52-56 | any well-nested run on one thread whose nesting fits in 23 levels and that starts with depth 0 and no owner ends with depth 0, no owner and no exception |
| InitTimerUsage.PairedIndentation | JDK1.9/src/jdk.internal.vm.ci/jdk.vm.ci.common/src/jdk/vm/ci/common/InitTimer.java:46-53 | the `START:` and ` DONE:` lines of one timer both carry 2d blanks, d being the number of timers open around it |
| InitTimerUsage.DisabledForest | JDK1.9/src/jdk.internal.vm.ci/jdk.vm.ci.common/src/jdk/vm/ci/common/InitTimer.java:59-65 | when disabled, any nesting of timed blocks prints nothing, never throws, and changes neither depth nor owner |
| InitTimerUsage.DisabledBlock | JDK1.9/src/jdk.internal.vm.ci/jdk.vm.ci.common/src/jdk/vm/ci/common/InitTimer.java:59-61 | when disabled, one timed block (and everything inside it) leaves the state exactly as it was |
| InitTimerUsage.TooDeepBlockLeaksDepth | JDK1.9/src/jdk.internal.vm.ci/jdk.vm.ci.common/src/jdk/vm/ci/common/InitTimer.java:46 | a timer opened inside 23 others throws `StringIndexOutOfBoundsException` for bound 46. The depth is left at 24 with no timer returned, so this increment is never undone and the depth stays one above the number of open timers |
| InitTimerUsage.ForeignThreadBlockFails | JDK1.9/src/jdk.internal.vm.ci/jdk.vm.ci.common/src/jdk/vm/ci/common/InitTimer.java:41-43 | with assertions on, a nested timer opened by a thread other than the initializing thread throws `AssertionError`, prints nothing and leaves the depth raised |
| InitTimerUsage.NestedScenario | JDK1.9/src/jdk.internal.vm.ci/jdk.vm.ci.common/src/jdk/vm/ci/common/InitTimer.java:36-57 | through the class: A opened, B opened, B closed, A closed prints the initializing thread, `START: A`, `START:   B`, ` DONE:   B`, ` DONE: A` with their elapsed times |

## Left out

- Real console output: `System.out.println` is modelled as appending a `Line` to `out`.
- `System.currentTimeMillis()` is replaced by a caller-supplied `now`. Any `long` is allowed, including a clock that goes backwards.
- How `Thread.toString()` prints a thread: `Render` takes that text as a function of the thread id.
- `AtomicInteger` atomicity and real multi-threading: the model is sequential. Interleavings of several threads are not modelled. Only calls from one thread at a time are.
- Reading the `jvmci.InitTimer` property and whether Java assertions are enabled for this class: both are fixed `Runtime` parameters.
- When disabled, `nesting` is null in the source. The model keeps it at 0, and `Runtime.Close` requires `enabled`, because no non-null timer can exist then.
- `timer(name, suffix)` takes `suffix` already converted to text. `String.valueOf` (including "null" for a null suffix) is not part of this model.
- `@SuppressFBWarnings` has no behaviour.
- A null `name`: Java string concatenation prints it as "null". The model takes the name as a non-null `string`.
- `InitTimerUsage.RunBlock`: when both a block's body and its `close` throw, the model propagates only the body's exception. Java also attaches the `close` exception to it as a suppressed exception, which is not modelled.
