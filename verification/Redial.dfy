/** The order gateway's redial machine: status callbacks, the posted redial, its timer, the failure
    counter, and the building of a client, as atomic steps. A client reports from the moment it is
    being built, which is before it is stored. */
module Redial {
  datatype Gateway = Gateway(
    running: bool, connected: bool,
    pending: bool,              // reconnect_pending_
    posted: nat,                // schedule_reconnect calls posted and not yet run
    timers: seq<int>,           // delays of the timers now waiting, in seconds
    resets: nat,                // posted resets of the failure counter
    failures: nat,              // reconnect_cnt_
    constructing: bool,         // the constructor, off the io thread, has yet to store its client
    redialling: bool,           // the io thread is inside create_client
    hasClient: bool)            // client_ is not null

  datatype Step =
    | Opened
    | Dropped                   // closed or failed, and not dialling any more
    | RunSchedule
    | RunReset
    | TimerFires(cancelled: bool)
    | StoreFirst                // the constructor stores its client
    | StoreRedialled            // the io thread stores its own
    | StopRunning

  ghost predicate Enabled(g: Gateway, step: Step) {
    match step
    case Opened => g.hasClient || g.constructing || g.redialling
    case Dropped => g.hasClient || g.constructing || g.redialling
    case RunSchedule => g.posted > 0 && !g.redialling
    case RunReset => g.resets > 0 && !g.redialling
    case TimerFires(_) => |g.timers| > 0 && !g.redialling
    case StoreFirst => g.constructing
    case StoreRedialled => g.redialling
    case StopRunning => true
  }

  function Min(a: int, b: int): int { if a <= b then a else b }

  function Shift(n: nat): int { if n == 0 then 1 else 2 * Shift(n - 1) }

  /** The capped exponential backoff. */
  function Delay(failures: nat): int { Min(Shift(Min(failures, 5)), 30) }

  ghost function Next(g: Gateway, step: Step): Gateway
    requires Enabled(g, step)
  {
    match step
    case Opened => g.(connected := true, resets := g.resets + 1)
    case Dropped =>
      var down := g.(connected := false);
      if !g.running || g.pending then down else down.(pending := true, posted := g.posted + 1)
    case RunSchedule =>
      g.(posted := g.posted - 1, hasClient := false, connected := false,
         timers := g.timers + [Delay(g.failures)], failures := g.failures + 1)
    case RunReset => g.(resets := g.resets - 1, failures := 0)
    case TimerFires(cancelled) =>
      g.(timers := g.timers[1..], pending := false, redialling := !cancelled && g.running)
    case StoreFirst => g.(constructing := false, hasClient := true)
    case StoreRedialled => g.(redialling := false, hasClient := true)
    case StopRunning => g.(running := false)
  }

  ghost predicate Initial(g: Gateway) {
    g == Gateway(true, false, false, 0, [], 0, 0, true, false, false)
  }

  /** The flag stands for exactly one redial, posted or waiting on its timer, and no timer waits
      while a redial is being dialled. */
  ghost predicate OneRedial(g: Gateway) {
    && g.posted + |g.timers| == (if g.pending then 1 else 0)
    && (g.redialling ==> |g.timers| == 0)
    && forall i :: 0 <= i < |g.timers| ==> 1 <= g.timers[i] <= 30
  }

  /** While the redial waits, no client is stored. */
  ghost predicate ClearedWhileWaiting(g: Gateway) {
    |g.timers| > 0 ==> !g.hasClient
  }

  ghost predicate Runs(g: Gateway, steps: seq<Step>)
    decreases |steps|
  {
    |steps| == 0 || (Enabled(g, steps[0]) && Runs(Next(g, steps[0]), steps[1..]))
  }

  ghost function After(g: Gateway, steps: seq<Step>): Gateway
    requires Runs(g, steps)
    decreases |steps|
  {
    if |steps| == 0 then g else After(Next(g, steps[0]), steps[1..])
  }

  lemma {:induction false} ShiftGrows(n: nat)
    ensures Shift(n) >= 1
  {
    if n > 0 {
      ShiftGrows(n - 1);
    }
  }

  /** The delays are 1, 2, 4, 8 and 16 seconds, and 30 from then on. */
  lemma DelayValues(failures: nat)
    ensures 1 <= Delay(failures) <= 30
    ensures failures < 5 ==> Delay(failures) == Shift(failures)
    ensures failures >= 5 ==> Delay(failures) == 30
  {
    ShiftGrows(Min(failures, 5));
    assert Shift(5) == 2 * Shift(4) == 4 * Shift(3) == 8 * Shift(2) == 16 * Shift(1) == 32;
  }

  lemma StepKeepsOneRedial(g: Gateway, step: Step)
    requires OneRedial(g) && Enabled(g, step)
    ensures OneRedial(Next(g, step))
  {
    DelayValues(g.failures);
  }

  lemma {:induction false} RunKeepsOneRedial(g: Gateway, steps: seq<Step>)
    requires OneRedial(g) && Runs(g, steps)
    ensures OneRedial(After(g, steps))
    decreases |steps|
  {
    if |steps| > 0 {
      StepKeepsOneRedial(g, steps[0]);
      RunKeepsOneRedial(Next(g, steps[0]), steps[1..]);
    }
  }

  /** In every state of every run, a pending flag stands for exactly one redial, posted or waiting
      1 to 30 seconds, even when the first dial fails before its client is stored. */
  lemma OneRedialAlways(g: Gateway, steps: seq<Step>)
    requires Initial(g) && Runs(g, steps)
    ensures OneRedial(After(g, steps))
  {
    RunKeepsOneRedial(g, steps);
  }

  /** One step leaves a stored client beside a waiting redial exactly when it is the constructor
      storing its client after that client's failure was already acted on. */
  lemma StepKeepsClearedIff(g: Gateway, step: Step)
    requires OneRedial(g) && ClearedWhileWaiting(g) && Enabled(g, step)
    ensures ClearedWhileWaiting(Next(g, step)) <==> !(step.StoreFirst? && |g.timers| > 0)
  {
  }

  /** The constructor stores its client with no redial waiting, whenever it does. */
  ghost predicate StoredInTime(g: Gateway, steps: seq<Step>)
    requires Runs(g, steps)
    decreases |steps|
  {
    |steps| == 0 || ((steps[0].StoreFirst? ==> |g.timers| == 0) && StoredInTime(Next(g, steps[0]), steps[1..]))
  }

  lemma {:induction false} ClearedOnRun(g: Gateway, steps: seq<Step>)
    requires OneRedial(g) && ClearedWhileWaiting(g) && Runs(g, steps) && StoredInTime(g, steps)
    ensures ClearedWhileWaiting(After(g, steps))
    decreases |steps|
  {
    if |steps| > 0 {
      StepKeepsOneRedial(g, steps[0]);
      StepKeepsClearedIff(g, steps[0]);
      ClearedOnRun(Next(g, steps[0]), steps[1..]);
    }
  }

  lemma ClearedAlways(g: Gateway, steps: seq<Step>)
    requires Initial(g) && Runs(g, steps) && StoredInTime(g, steps)
    ensures ClearedWhileWaiting(After(g, steps))
  {
    ClearedOnRun(g, steps);
  }

  /** The lock is taken only to store the client, so the first dial's failure can be acted on
      before; the failed client is then stored and stays until the redial replaces it. */
  lemma FirstDialRace(g: Gateway)
    requires Initial(g)
    ensures var steps := [Dropped, RunSchedule, StoreFirst];
      Runs(g, steps) && After(g, steps).hasClient && After(g, steps).timers == [1]
  {
    var g1 := Next(g, Dropped);
    var g2 := Next(g1, RunSchedule);
    var g3 := Next(g2, StoreFirst);
    assert Delay(0) == 1;
    assert g3.hasClient && g3.timers == [1];
    RunOneMore(g2, StoreFirst, []);
    RunOneMore(g1, RunSchedule, [StoreFirst]);
    RunOneMore(g, Dropped, [RunSchedule, StoreFirst]);
    assert [StoreFirst] + [] == [StoreFirst];
    assert [RunSchedule] + [StoreFirst] == [RunSchedule, StoreFirst];
    assert [Dropped] + [RunSchedule, StoreFirst] == [Dropped, RunSchedule, StoreFirst];
  }

  lemma RunOneMore(g: Gateway, step: Step, steps: seq<Step>)
    requires Enabled(g, step) && Runs(Next(g, step), steps)
    ensures Runs(g, [step] + steps) && After(g, [step] + steps) == After(Next(g, step), steps)
  {
    assert ([step] + steps)[1..] == steps;
  }

  // ---- the delay ----

  lemma {:induction false} RunLast(g: Gateway, steps: seq<Step>)
    requires |steps| > 0 && Runs(g, steps)
    ensures var n := |steps| - 1;
      Runs(g, steps[..n]) && Enabled(After(g, steps[..n]), steps[n]) && After(g, steps) == Next(After(g, steps[..n]), steps[n])
    decreases |steps|
  {
    if |steps| > 1 {
      RunLast(Next(g, steps[0]), steps[1..]);
      assert steps[1..][..|steps| - 2] == steps[..|steps| - 1][1..];
    }
  }

  /** The redials scheduled since the counter was last reset. */
  function Consecutive(steps: seq<Step>): nat {
    if |steps| == 0 then 0
    else
      var before := Consecutive(steps[..|steps| - 1]);
      match steps[|steps| - 1]
      case RunSchedule => before + 1
      case RunReset => 0
      case _ => before
  }

  function Count(steps: seq<Step>, step: Step): nat {
    if |steps| == 0 then 0 else Count(steps[..|steps| - 1], step) + if steps[|steps| - 1] == step then 1 else 0
  }

  /** Every successful open posts one reset; the counter counts the redials since the last reset. */
  lemma {:induction false} FailuresCounted(g: Gateway, steps: seq<Step>)
    requires Initial(g) && Runs(g, steps)
    ensures After(g, steps).failures == Consecutive(steps)
    ensures After(g, steps).resets + Count(steps, RunReset) == Count(steps, Opened)
  {
    if |steps| > 0 {
      RunLast(g, steps);
      FailuresCounted(g, steps[..|steps| - 1]);
    }
  }

  /** The n-th redial in a row waits 1, 2, 4, 8, 16 and then 30 seconds; the first one after a reset
      waits one second again. */
  lemma RedialWaits(g: Gateway, steps: seq<Step>)
    requires Initial(g) && Runs(g, steps) && |steps| > 0 && steps[|steps| - 1] == RunSchedule
    ensures var before := steps[..|steps| - 1];
      After(g, steps).timers == [Delay(Consecutive(before))]
  {
    RunLast(g, steps);
    FailuresCounted(g, steps[..|steps| - 1]);
    OneRedialAlways(g, steps);
  }

  // ---- stopping ----

  /** A redial is dialled exactly when its timer runs out, was not cancelled, and the gateway still
      runs. */
  lemma DialsIff(g: Gateway, step: Step)
    requires Enabled(g, step) && !g.redialling
    ensures Next(g, step).redialling <==> step == TimerFires(false) && g.running
  {
  }

  /** Once the gateway is told to stop, no redial is added to those under way, and none of them dials
      any more. */
  lemma {:induction false} NoneAfterStop(g: Gateway, steps: seq<Step>)
    requires !g.running && Runs(g, steps)
    ensures var g' := After(g, steps);
      !g'.running && g'.posted + |g'.timers| <= g.posted + |g.timers| && (g'.redialling ==> g.redialling)
    decreases |steps|
  {
    if |steps| > 0 {
      NoneAfterStop(Next(g, steps[0]), steps[1..]);
    }
  }
}
