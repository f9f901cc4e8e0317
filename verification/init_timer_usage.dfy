/**
 * How callers use the timer: `try (InitTimer t = InitTimer.timer(name)) { ... }`
 * blocks, nested inside one another and run by one thread. A block whose
 * factory call returns null runs its body and closes nothing; one whose
 * factory call throws runs nothing; otherwise `close` runs once after the
 * body, whether or not the body threw.
 */
module InitTimerUsage {
  import opened Wrappers
  import opened JavaLang
  import opened InitTimers

  /** A timed block: opened at `openAt`, closed at `closeAt`, with timed blocks nested in its body. */
  datatype Block = Block(name: string, openAt: Int64, body: seq<Block>, closeAt: Int64)

  /** Runs one block on thread `tid`; the result is the exception that escapes it, if any. */
  function RunBlock(enabled: bool, assertionsEnabled: bool, g: Globals, tid: Tid, b: Block): (r: Transition<Option<Failure>>)
    decreases b
  {
    var opening := TimerStep(enabled, assertionsEnabled, g, tid, b.name, b.openAt);
    match opening.result
    case NullTimer => RunForest(enabled, assertionsEnabled, opening.after, tid, b.body)
    case StartFailed(f) => Transition(opening.after, Some(f))
    case Started(t) =>
      var inner := RunForest(enabled, assertionsEnabled, opening.after, tid, b.body);
      var closed := CloseStep(inner.after, t, b.closeAt);
      // an exception from the body wins; one from close is only suppressed
      Transition(closed.after,
                 if inner.result.Some? then inner.result
                 else if closed.result.CloseFailed? then Some(closed.result.failure)
                 else None)
  }

  /** Runs blocks one after another, stopping at the first exception. */
  function RunForest(enabled: bool, assertionsEnabled: bool, g: Globals, tid: Tid, bs: seq<Block>): (r: Transition<Option<Failure>>)
    decreases bs
  {
    if bs == [] then Transition(g, None)
    else
      var first := RunBlock(enabled, assertionsEnabled, g, tid, bs[0]);
      if first.result.Some? then first
      else RunForest(enabled, assertionsEnabled, first.after, tid, bs[1..])
  }

  /** How many timers a block keeps open at its deepest point. */
  function BlockHeight(b: Block): (h: nat)
    decreases b
  {
    1 + ForestHeight(b.body)
  }

  function ForestHeight(bs: seq<Block>): (h: nat)
    decreases bs
  {
    if bs == [] then 0
    else
      var h := BlockHeight(bs[0]);
      var rest := ForestHeight(bs[1..]);
      if h < rest then rest else h
  }

  /** What opening at depth `d` prints: the initializing-thread line at depth 0, then `START:`. */
  function StartLines(name: string, d: nat, tid: Tid): (r: seq<Line>) {
    (if d == 0 then [InitializingThread(tid)] else []) + [Start(Spaces(2 * d), name)]
  }

  /**
   * Reference output of a block opened at depth `d`: its `START:` and
   * ` DONE:` lines both indented by `2 * d`, its body's lines between them
   * at depth `d + 1`, and the initializing-thread line first at depth 0.
   */
  function BlockLines(b: Block, d: nat, tid: Tid): (r: seq<Line>)
    decreases b
  {
    StartLines(b.name, d, tid)
    + ForestLines(b.body, d + 1, tid)
    + [Done(Spaces(2 * d), b.name, LongSub(b.closeAt, b.openAt))]
  }

  function ForestLines(bs: seq<Block>, d: nat, tid: Tid): (r: seq<Line>)
    decreases bs
  {
    if bs == [] then [] else BlockLines(bs[0], d, tid) + ForestLines(bs[1..], d, tid)
  }

  /** Who owns the timers at depth `d`: nobody at 0, the running thread otherwise. */
  function OwnerAt(d: nat, tid: Tid): (owner: Option<Tid>) {
    if d == 0 then None else Some(tid)
  }

  /** Opening at a depth that fits, on the owning thread (or at depth 0), succeeds. */
  lemma OpenFits(assertionsEnabled: bool, g: Globals, tid: Tid, name: string, now: Int64, d: nat)
    requires g.nesting == d <= 22 && g.initializingThread == OwnerAt(d, tid)
    ensures OpenStep(g, assertionsEnabled, tid, name, now)
            == Transition(Globals(d + 1, Some(tid), g.out + StartLines(name, d, tid)), Started(InitTimer(name, now)))
  {
  }

  /** Closing back to a depth that fits prints the ` DONE:` line and restores the owner of that depth. */
  lemma CloseFits(g: Globals, tid: Tid, t: InitTimer, now: Int64, d: nat)
    requires g.nesting == d + 1 && d <= 22 && g.initializingThread == Some(tid)
    ensures CloseStep(g, t, now)
            == Transition(Globals(d, OwnerAt(d, tid), g.out + [Done(Spaces(2 * d), t.name, LongSub(now, t.start))]), Closed)
  {
  }

  /**
   * A block that fits within the 44 blanks of `SPACES` runs without an
   * exception, leaves depth and owner as it found them, and prints exactly
   * its reference lines.
   */
  lemma {:induction false} WellNestedBlock(assertionsEnabled: bool, g: Globals, tid: Tid, b: Block, d: nat)
    requires g.nesting == d && d + BlockHeight(b) <= 23
    requires g.initializingThread == OwnerAt(d, tid)
    ensures RunBlock(true, assertionsEnabled, g, tid, b) == Transition(g.(out := g.out + BlockLines(b, d, tid)), None)
    decreases b
  {
    var t := InitTimer(b.name, b.openAt);
    OpenFits(assertionsEnabled, g, tid, b.name, b.openAt, d);
    var g1 := Globals(d + 1, Some(tid), g.out + StartLines(b.name, d, tid));
    WellNestedForest(assertionsEnabled, g1, tid, b.body, d + 1);
    var g2 := g1.(out := g1.out + ForestLines(b.body, d + 1, tid));
    CloseFits(g2, tid, t, b.closeAt, d);
    assert g2.out + [Done(Spaces(2 * d), b.name, LongSub(b.closeAt, b.openAt))] == g.out + BlockLines(b, d, tid);
  }

  lemma {:induction false} WellNestedForest(assertionsEnabled: bool, g: Globals, tid: Tid, bs: seq<Block>, d: nat)
    requires g.nesting == d && d + ForestHeight(bs) <= 23
    requires g.initializingThread == OwnerAt(d, tid)
    ensures RunForest(true, assertionsEnabled, g, tid, bs) == Transition(g.(out := g.out + ForestLines(bs, d, tid)), None)
    decreases bs
  {
    if bs != [] {
      WellNestedBlock(assertionsEnabled, g, tid, bs[0], d);
      var g1 := g.(out := g.out + BlockLines(bs[0], d, tid));
      WellNestedForest(assertionsEnabled, g1, tid, bs[1..], d);
      assert g1.out + ForestLines(bs[1..], d, tid) == g.out + ForestLines(bs, d, tid);
    }
  }

  /**
   * Any well-nested run on one thread that starts idle ends idle: depth 0
   * and no initializing thread, whatever the blocks were.
   */
  lemma WellNestedRunEndsIdle(assertionsEnabled: bool, tid: Tid, bs: seq<Block>, out: seq<Line>)
    requires ForestHeight(bs) <= 23
    ensures RunForest(true, assertionsEnabled, Globals(0, None, out), tid, bs).after.nesting == 0
    ensures RunForest(true, assertionsEnabled, Globals(0, None, out), tid, bs).after.initializingThread == None
    ensures RunForest(true, assertionsEnabled, Globals(0, None, out), tid, bs).result == None
  {
    WellNestedForest(assertionsEnabled, Globals(0, None, out), tid, bs, 0);
  }

  /**
   * The `START:` and ` DONE:` lines of one block carry the same
   * indentation, twice the number of timers open around it.
   */
  lemma PairedIndentation(assertionsEnabled: bool, g: Globals, tid: Tid, b: Block, d: nat)
    requires g.nesting == d && d + BlockHeight(b) <= 23
    requires g.initializingThread == OwnerAt(d, tid)
    ensures var out := RunBlock(true, assertionsEnabled, g, tid, b).after.out;
            var first := |g.out| + (if d == 0 then 1 else 0);
            first < |out| - 1
            && out[first] == Start(Spaces(2 * d), b.name)
            && out[|out| - 1] == Done(Spaces(2 * d), b.name, LongSub(b.closeAt, b.openAt))
  {
    WellNestedBlock(assertionsEnabled, g, tid, b, d);
  }

  /** Disabled, no block prints anything or changes the depth or the owner. */
  lemma {:induction false} DisabledForest(assertionsEnabled: bool, g: Globals, tid: Tid, bs: seq<Block>)
    ensures RunForest(false, assertionsEnabled, g, tid, bs) == Transition(g, None)
    decreases bs
  {
    if bs != [] {
      DisabledBlock(assertionsEnabled, g, tid, bs[0]);
      DisabledForest(assertionsEnabled, g, tid, bs[1..]);
    }
  }

  lemma {:induction false} DisabledBlock(assertionsEnabled: bool, g: Globals, tid: Tid, b: Block)
    ensures RunBlock(false, assertionsEnabled, g, tid, b) == Transition(g, None)
    decreases b
  {
    DisabledForest(assertionsEnabled, g, tid, b.body);
  }

  /**
   * A 24th nested timer cannot print its indentation: the constructor
   * throws after raising the depth, the timer is never returned and so
   * never closed, and the depth stays one too high.
   */
  lemma TooDeepBlockLeaksDepth(assertionsEnabled: bool, g: Globals, tid: Tid, b: Block)
    requires g.nesting == 23 && g.initializingThread == Some(tid)
    ensures RunBlock(true, assertionsEnabled, g, tid, b)
            == Transition(g.(nesting := 24), Some(StringIndexOutOfBounds(46)))
  {
  }

  /**
   * A thread other than the owner cannot open a nested timer while
   * assertions are on; the depth is still raised and stays raised.
   */
  lemma ForeignThreadBlockFails(g: Globals, tid: Tid, b: Block)
    requires g.nesting != 0 && g.initializingThread != Some(tid)
    ensures RunBlock(true, true, g, tid, b)
            == Transition(g.(nesting := Increment(g.nesting)), Some(AssertionError(tid, g.initializingThread)))
  {
  }

  /** The two-level example run through the class: A opened, B inside it, B closed, A closed. */
  method NestedScenario(tid: Tid, openA: Int64, openB: Int64, closeB: Int64, closeA: Int64) returns (lines: seq<Line>)
    ensures lines == [InitializingThread(tid), Start("", "A"), Start("  ", "B"),
                      Done("  ", "B", LongSub(closeB, openB)), Done("", "A", LongSub(closeA, openA))]
  {
    assert Spaces(0) == "" && Spaces(2) == "  ";
    var rt := new Runtime(true, true);
    var a := rt.Timer(tid, "A", openA);
    var b := rt.Timer(tid, "B", openB);
    assert b == Started(InitTimer("B", openB));
    var closedB := rt.Close(b.timer, closeB);
    var closedA := rt.Close(a.timer, closeA);
    assert rt.State() == Globals(0, None, rt.out);
    lines := rt.out;
  }
}
