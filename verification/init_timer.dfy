/**
 * The nested initialization timer: a process-wide nesting counter, the
 * thread that opened the outermost timer, and the lines written to standard
 * output. Opening a timer (the private constructor) and closing it are
 * given first as functions on a snapshot of that state, then as the
 * methods of a class whose fields the two operations update in place.
 *
 * The clock and `Thread.currentThread()` are parameters (`now`, `tid`);
 * the `jvmci.InitTimer` property and whether Java assertions are on are
 * fixed when the state is created.
 */
module InitTimers {
  import opened Wrappers
  import opened JavaLang

  /** Identity of a Java thread; `Thread.currentThread()` is passed in as one. */
  type Tid = int

  /** One line printed with `System.out.println`. */
  datatype Line =
    | InitializingThread(thread: Tid)
    | Start(indent: string, name: string)
    | Done(indent: string, name: string, elapsed: Int64)

  /**
   * The text of a line; how a thread prints itself is left to the caller.
   * Each text starts with its marker, and the indentation and the name
   * follow it unchanged.
   */
  function Render(line: Line, threadText: Tid -> string): (r: string)
    ensures line.InitializingThread? ==>
              |r| >= 21 && r[..21] == "INITIALIZING THREAD: " && r[21..] == threadText(line.thread)
    ensures line.Start? ==>
              var i := 7 + |line.indent|;
              |r| >= i && r[..7] == "START: " && r[7..i] == line.indent && r[i..] == line.name
    ensures line.Done? ==>
              var i := 7 + |line.indent|;
              var j := i + |line.name|;
              |r| >= j + 2 + 4 && r[..7] == " DONE: " && r[7..i] == line.indent && r[i..j] == line.name
              && r[j..j + 2] == " [" && r[|r| - 4..] == " ms]"
  {
    match line
    case InitializingThread(t) => "INITIALIZING THREAD: " + threadText(t)
    case Start(indent, name) =>
      var head := "START: " + indent;
      assert head[..7] == "START: " && head[7..] == indent;
      head + name
    case Done(indent, name, elapsed) =>
      var head := " DONE: " + indent;
      assert head[..7] == " DONE: " && head[7..] == indent;
      var named := head + name;
      assert named[..|head|] == head && named[|head|..] == name;
      var tail := " [" + LongToString(elapsed) + " ms]";
      assert tail[..2] == " [" && tail[|tail| - 4..] == " ms]";
      named + tail
  }

  /**
   * The text of a ` DONE:` line ends in " ms]", and what stands between
   * " [" and " ms]" reads back as the elapsed time.
   */
  lemma RenderedElapsed(indent: string, name: string, elapsed: Int64, threadText: Tid -> string)
    ensures var text := Render(Done(indent, name, elapsed), threadText);
            var from := |" DONE: " + indent + name + " ["|;
            from + 4 <= |text| && text[|text| - 4..] == " ms]"
            && text[from..|text| - 4] == LongToString(elapsed)
            && ParseLong(text[from..|text| - 4]) == Some(elapsed as int)
  {
    var digits := LongToString(elapsed);
    var text := Render(Done(indent, name, elapsed), threadText);
    var from := |" DONE: " + indent + name + " ["|;
    assert text == (" DONE: " + indent + name + " [") + digits + " ms]";
    assert text[from..|text| - 4] == digits;
    LongToStringRoundTrip(elapsed);
  }

  /** An open timer: its display name and its start time in milliseconds. */
  datatype InitTimer = InitTimer(name: string, start: Int64)

  /** What the constructor or `close` can throw. */
  datatype Failure =
    | AssertionError(current: Tid, initializingThread: Option<Tid>)
    | StringIndexOutOfBounds(end: Int32)

  /** Outcome of a factory call: null, a timer, or an exception. */
  datatype Acquired = NullTimer | Started(timer: InitTimer) | StartFailed(failure: Failure)

  /** Outcome of `close`. */
  datatype Closing = Closed | CloseFailed(failure: Failure)

  /** The static state: `nesting`, `initializingThread` and the output so far. */
  datatype Globals = Globals(nesting: Int32, initializingThread: Option<Tid>, out: seq<Line>)

  /** The state after an operation, with what the operation returned. */
  datatype Transition<R> = Transition(after: Globals, result: R)

  /** The static field `SPACES`: 44 blanks. */
  const SPACES: string := "                                            "

  /** `k` blanks. */
  function Spaces(k: nat): (s: string)
    ensures |s| == k && forall i :: 0 <= i < k ==> s[i] == ' '
  {
    seq(k, _ => ' ')
  }

  /**
   * `SPACES.substring(0, n * 2)` with `n * 2` in 32-bit arithmetic: None
   * when it throws. Besides 0..22, the depths just above `Integer.MIN_VALUE`
   * also pass, because `n * 2` wraps to a small non-negative number there.
   */
  function Indent(n: Int32): (r: Option<string>)
    ensures r.Some? <==> 0 <= n <= 22 || INT_MIN <= n <= INT_MIN + 22
    ensures 0 <= n <= 22 ==> r == Some(Spaces(2 * n))
    ensures INT_MIN <= n <= INT_MIN + 22 ==> r == Some(Spaces(2 * (n - INT_MIN)))
  {
    assert |SPACES| == 44 && forall i :: 0 <= i < 44 ==> SPACES[i] == ' ';
    var end := IntMul(n, 2);
    assert end == if n < INT_MIN / 2 then 2 * n + 0x1_0000_0000
                 else if n <= INT_MAX / 2 then 2 * n
                 else 2 * n - 0x1_0000_0000;
    var r := Substring(SPACES, 0, end);
    assert r.Some? ==> r.value == Spaces(end);
    r
  }

  /**
   * The private constructor `InitTimer(name)`: bump the depth, claim the
   * owner at depth 0 or check it otherwise, and print the indented
   * `START:` line. An exception leaves the depth incremented.
   */
  function OpenStep(g: Globals, assertionsEnabled: bool, tid: Tid, name: string, now: Int64): (r: Transition<Acquired>)
    ensures r.after.nesting == Increment(g.nesting)
    ensures !r.result.NullTimer?
    ensures r.result.Started? ==> r.result.timer == InitTimer(name, now)
    ensures g.nesting == 0 ==> r.after.initializingThread == Some(tid)
    ensures g.nesting != 0 ==> r.after.initializingThread == g.initializingThread
    ensures r.result.StartFailed? <==>
              (g.nesting != 0 && assertionsEnabled && g.initializingThread != Some(tid)) || Indent(g.nesting).None?
    ensures r.result.StartFailed? ==> r.after.out == g.out
    ensures r.result.StartFailed? && g.nesting != 0 && assertionsEnabled && g.initializingThread != Some(tid) ==>
              r.result.failure == AssertionError(tid, g.initializingThread)
    ensures r.result.StartFailed? && !(g.nesting != 0 && assertionsEnabled && g.initializingThread != Some(tid)) ==>
              r.result.failure == StringIndexOutOfBounds(IntMul(g.nesting, 2))
    ensures r.result.Started? ==>
              Indent(g.nesting).Some?
              && r.after.out == g.out + (if g.nesting == 0 then [InitializingThread(tid)] else [])
                                      + [Start(Indent(g.nesting).value, name)]
    ensures 0 <= g.nesting <= 22 && r.result.Started? ==>
              r.after.out == g.out + (if g.nesting == 0 then [InitializingThread(tid)] else [])
                                   + [Start(Spaces(2 * g.nesting), name)]
  {
    var n := g.nesting;
    var g1 := g.(nesting := Increment(n));
    if n != 0 && assertionsEnabled && g.initializingThread != Some(tid) then
      Transition(g1, StartFailed(AssertionError(tid, g.initializingThread)))
    else
      var g2 := if n == 0 then g1.(initializingThread := Some(tid), out := g1.out + [InitializingThread(tid)]) else g1;
      match Indent(n)
      case None => Transition(g2, StartFailed(StringIndexOutOfBounds(IntMul(n, 2))))
      case Some(indent) => Transition(g2.(out := g2.out + [Start(indent, name)]), Started(InitTimer(name, now)))
  }

  /**
   * `close()`: lower the depth, print the indented ` DONE:` line with the
   * raw elapsed time, and release the owner when the depth is back at 0.
   */
  function CloseStep(g: Globals, t: InitTimer, now: Int64): (r: Transition<Closing>)
    ensures r.after.nesting == Decrement(g.nesting)
    ensures r.result.CloseFailed? <==> Indent(Decrement(g.nesting)).None?
    ensures r.result.CloseFailed? ==> r.after == g.(nesting := Decrement(g.nesting))
    ensures r.result.CloseFailed? ==> r.result.failure == StringIndexOutOfBounds(IntMul(Decrement(g.nesting), 2))
    ensures r.after.initializingThread == if r.after.nesting == 0 then None else g.initializingThread
    ensures r.result.Closed? ==>
              Indent(r.after.nesting).Some?
              && r.after.out == g.out + [Done(Indent(r.after.nesting).value, t.name, LongSub(now, t.start))]
    ensures 0 <= r.after.nesting <= 22 ==>
              r.after.out == g.out + [Done(Spaces(2 * r.after.nesting), t.name, LongSub(now, t.start))]
  {
    var n := Decrement(g.nesting);
    var g1 := g.(nesting := n);
    match Indent(n)
    case None => Transition(g1, CloseFailed(StringIndexOutOfBounds(IntMul(n, 2))))
    case Some(indent) =>
      var g2 := g1.(out := g1.out + [Done(indent, t.name, LongSub(now, t.start))]);
      Transition(if n == 0 then g2.(initializingThread := None) else g2, Closed)
  }

  /** `InitTimer.timer(name)`: null, touching nothing, when the facility is disabled. */
  function TimerStep(enabled: bool, assertionsEnabled: bool, g: Globals, tid: Tid, name: string, now: Int64): (r: Transition<Acquired>)
    ensures !enabled ==> r == Transition(g, NullTimer)
    ensures enabled ==> !r.result.NullTimer? && r.after.nesting == Increment(g.nesting)
    ensures enabled ==> r == OpenStep(g, assertionsEnabled, tid, name, now)
  {
    if enabled then OpenStep(g, assertionsEnabled, tid, name, now) else Transition(g, NullTimer)
  }

  /** The static state of the class together with the two flags read at class initialization. */
  class Runtime {
    /** `ENABLED`, from the `jvmci.InitTimer` system property */
    const enabled: bool
    /** whether Java assertions are enabled for this class */
    const assertionsEnabled: bool
    var nesting: Int32
    var initializingThread: Option<Tid>
    var out: seq<Line>

    function State(): (g: Globals)
      reads this
    {
      Globals(nesting, initializingThread, out)
    }

    /** Disabled, the state never leaves its initial value. */
    ghost predicate Valid()
      reads this
    {
      !enabled ==> State() == Globals(0, None, [])
    }

    constructor (enabled: bool, assertionsEnabled: bool)
      ensures this.enabled == enabled && this.assertionsEnabled == assertionsEnabled
      ensures Valid() && State() == Globals(0, None, [])
    {
      this.enabled := enabled;
      this.assertionsEnabled := assertionsEnabled;
      nesting := 0;
      initializingThread := None;
      out := [];
    }

    /** The private constructor, run by thread `tid` at time `now`. */
    method Open(tid: Tid, name: string, now: Int64) returns (r: Acquired)
      requires enabled
      modifies this
      ensures Transition(State(), r) == OpenStep(old(State()), assertionsEnabled, tid, name, now)
    {
      var n := nesting;
      nesting := Increment(n);
      if n == 0 {
        initializingThread := Some(tid);
        out := out + [InitializingThread(tid)];
      } else if assertionsEnabled && initializingThread != Some(tid) {
        return StartFailed(AssertionError(tid, initializingThread));
      }
      var start := now;
      var indent := Indent(n);
      if indent.None? {
        return StartFailed(StringIndexOutOfBounds(IntMul(n, 2)));
      }
      out := out + [Start(indent.value, name)];
      r := Started(InitTimer(name, start));
    }

    /** `t.close()` at time `now`; a non-null timer exists only when enabled. */
    method Close(t: InitTimer, now: Int64) returns (r: Closing)
      requires enabled
      modifies this
      ensures Transition(State(), r) == CloseStep(old(State()), t, now)
    {
      var end := now;
      var n := Decrement(nesting);
      nesting := n;
      var indent := Indent(n);
      if indent.None? {
        return CloseFailed(StringIndexOutOfBounds(IntMul(n, 2)));
      }
      out := out + [Done(indent.value, t.name, LongSub(end, t.start))];
      if n == 0 {
        initializingThread := None;
      }
      r := Closed;
    }

    /** `InitTimer.timer(name)` */
    method Timer(tid: Tid, name: string, now: Int64) returns (r: Acquired)
      requires Valid()
      modifies this
      ensures Valid()
      ensures Transition(State(), r) == TimerStep(enabled, assertionsEnabled, old(State()), tid, name, now)
    {
      if enabled {
        r := Open(tid, name, now);
      } else {
        r := NullTimer;
      }
    }

    /** `InitTimer.timer(name, suffix)`: the same as `timer(name + suffix)`. */
    method TimerWithSuffix(tid: Tid, name: string, suffix: string, now: Int64) returns (r: Acquired)
      requires Valid()
      modifies this
      ensures Valid()
      ensures Transition(State(), r) == TimerStep(enabled, assertionsEnabled, old(State()), tid, name + suffix, now)
    {
      if enabled {
        r := Open(tid, name + suffix, now);
      } else {
        r := NullTimer;
      }
    }
  }
}
