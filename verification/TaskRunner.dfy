/** SerialTaskRunner: posters, one worker and the destructor, as interleaved atomic steps. The queue
    keeps each poster's order. */
module TaskRunner {
  type Task = nat

  datatype Worker = Waiting | Running | Finishing | Checking | Exited

  datatype Ran = Ran(poster: nat, task: Task)

  datatype Runner = Runner(
    maxQueued: nat,
    outstanding: int,                    // the atomic counter
    running: bool,                       // the flag the destructor lowers
    destroying: bool,
    worker: Worker,
    accepted: seq<seq<Task>>,            // per poster, the tasks post() let through
    claimed: map<nat, Task>,             // posters between the counter and the queue
    refusing: set<nat>,                  // posters about to take their increment back
    queued: seq<seq<Task>>,
    enqueued: seq<Ran>,                  // every task put in the queue, in the order the posts got there
    ran: seq<Ran>)                       // tasks started, in order; all but one in progress are finished

  datatype Step =
    | Claim(poster: nat, task: Task)
    | Enqueue(poster: nat)
    | Refuse(poster: nat)
    | Take(poster: nat)
    | Finish
    | Release
    | TimeOut
    | Check
    | Destroy
    | Stop

  ghost predicate AllEmpty(queued: seq<seq<Task>>) {
    forall i :: 0 <= i < |queued| ==> queued[i] == []
  }

  /** No post is under way when the destructor begins, and none comes after. */
  ghost predicate Enabled(r: Runner, step: Step) {
    match step
    case Claim(i, t) => !r.destroying && i < |r.accepted| && i !in r.claimed && i !in r.refusing
    case Enqueue(i) => i in r.claimed && i < |r.queued|
    case Refuse(i) => i in r.refusing
    case Take(i) => r.worker == Waiting && i < |r.queued| && r.queued[i] != []
    case Finish => r.worker == Running
    case Release => r.worker == Finishing
    case TimeOut => r.worker == Waiting && AllEmpty(r.queued)
    case Check => r.worker == Checking
    case Destroy => !r.destroying && r.claimed == map[] && r.refusing == {}
    case Stop => r.destroying && r.outstanding <= 0
  }

  ghost function Next(r: Runner, step: Step): Runner
    requires Enabled(r, step)
  {
    match step
    case Claim(i, t) =>
      // fetch_add, then the comparison with what it returned
      if r.outstanding < r.maxQueued then
        r.(outstanding := r.outstanding + 1, claimed := r.claimed[i := t], accepted := r.accepted[i := r.accepted[i] + [t]])
      else r.(outstanding := r.outstanding + 1, refusing := r.refusing + {i})
    case Enqueue(i) => 
      r.(queued := r.queued[i := r.queued[i] + [r.claimed[i]]], claimed := r.claimed - {i},
         enqueued := r.enqueued + [Ran(i, r.claimed[i])])
    case Refuse(i) => r.(outstanding := r.outstanding - 1, refusing := r.refusing - {i})
    case Take(i) => r.(worker := Running, ran := r.ran + [Ran(i, r.queued[i][0])], queued := r.queued[i := r.queued[i][1..]])
    case Finish => r.(worker := Finishing)
    case Release => r.(worker := Waiting, outstanding := r.outstanding - 1)
    case TimeOut => r.(worker := Checking)
    case Check => r.(worker := if r.running then Waiting else Exited)
    case Destroy => r.(destroying := true)
    case Stop => r.(running := false)
  }

  ghost predicate Initial(r: Runner) {
    && r.maxQueued > 0 && r.outstanding == 0 && r.running && !r.destroying && r.worker == Waiting
    && |r.queued| == |r.accepted| && AllEmpty(r.queued) && AllEmpty(r.accepted)
    && r.claimed == map[] && r.refusing == {} && r.enqueued == [] && r.ran == []
  }

  // ---- what holds in every reachable state ----

  function Total(queued: seq<seq<Task>>): nat {
    if |queued| == 0 then 0 else Total(queued[..|queued| - 1]) + |queued[|queued| - 1]|
  }

  /** One poster's tasks among those started. */
  function Share(ran: seq<Ran>, poster: nat): seq<Task> {
    if |ran| == 0 then []
    else Share(ran[..|ran| - 1], poster) + if ran[|ran| - 1].poster == poster then [ran[|ran| - 1].task] else []
  }

  function InHand(r: Runner): nat { if r.worker == Running || r.worker == Finishing then 1 else 0 }

  /** Accepted tasks that have not finished. */
  function Unfinished(r: Runner): nat { |r.claimed| + Total(r.queued) + InHand(r) }

  function ClaimedBy(r: Runner, poster: nat): seq<Task> {
    if poster in r.claimed then [r.claimed[poster]] else []
  }

  /** The counter counts the unfinished tasks and the refusals under way. */
  ghost predicate Counted(r: Runner) {
    r.outstanding == Unfinished(r) + |r.refusing| && Unfinished(r) <= r.maxQueued
  }

  /** Each poster's tasks are started in the order it posted them. */
  ghost predicate Ordered(r: Runner) {
    && |r.queued| == |r.accepted|
    && (forall i :: i in r.claimed ==> i < |r.accepted|)
    && forall i :: 0 <= i < |r.accepted| ==> Share(r.ran, i) + r.queued[i] + ClaimedBy(r, i) == r.accepted[i]
  }

  ghost predicate StopsLast(r: Runner) {
    && (r.destroying ==> r.claimed == map[] && r.refusing == {})
    && (!r.running ==> r.destroying && Unfinished(r) == 0)
    && (r.worker == Exited ==> !r.running)
  }

  ghost predicate Inv(r: Runner) {
    Counted(r) && Ordered(r) && StopsLast(r)
  }

  lemma {:induction false} TotalEmpty(queued: seq<seq<Task>>)
    ensures Total(queued) == 0 <==> AllEmpty(queued)
  {
    if |queued| > 0 {
      TotalEmpty(queued[..|queued| - 1]);
      assert queued == queued[..|queued| - 1] + [queued[|queued| - 1]];
    }
  }

  lemma {:induction false} TotalUpdate(queued: seq<seq<Task>>, i: nat, q: seq<Task>)
    requires i < |queued|
    ensures Total(queued[i := q]) == Total(queued) - |queued[i]| + |q|
  {
    var n := |queued| - 1;
    if i < n {
      TotalUpdate(queued[..n], i, q);
      assert queued[i := q][..n] == queued[..n][i := q];
    } else {
      assert queued[i := q][..n] == queued[..n];
    }
  }

  lemma InitialInv(r: Runner)
    requires Initial(r)
    ensures Inv(r)
  {
    TotalEmpty(r.queued);
  }

  lemma ClaimCounted(r: Runner, i: nat, t: Task)
    requires Counted(r) && Enabled(r, Claim(i, t))
    ensures Counted(Next(r, Claim(i, t)))
  {
    hide Total;
    if r.outstanding < r.maxQueued {
      ClaimsGrow(r.claimed, i, t);
    } else {
      assert |r.refusing + {i}| == |r.refusing| + 1;
    }
  }

  lemma ClaimsGrow(claimed: map<nat, Task>, i: nat, t: Task)
    requires i !in claimed
    ensures |claimed[i := t]| == |claimed| + 1
  {
    assert claimed[i := t].Keys == claimed.Keys + {i};
  }

  lemma EnqueueCounted(r: Runner, i: nat)
    requires Counted(r) && Enabled(r, Enqueue(i))
    ensures Counted(Next(r, Enqueue(i)))
  {
    hide Total;
    TotalUpdate(r.queued, i, r.queued[i] + [r.claimed[i]]);
    assert r.claimed.Keys == (r.claimed - {i}).Keys + {i};
    assert |r.claimed| == |r.claimed - {i}| + 1;
  }

  lemma TakeCounted(r: Runner, i: nat)
    requires Counted(r) && Enabled(r, Take(i))
    ensures Counted(Next(r, Take(i)))
  {
    hide Total;
    TotalUpdate(r.queued, i, r.queued[i][1..]);
  }

  lemma CountedKept(r: Runner, step: Step)
    requires Counted(r) && Enabled(r, step)
    ensures Counted(Next(r, step))
  {
    hide Total;
    match step
    case Claim(i, t) => ClaimCounted(r, i, t);
    case Enqueue(i) => EnqueueCounted(r, i);
    case Take(i) => TakeCounted(r, i);
    case _ =>
  }

  lemma ShareAppend(ran: seq<Ran>, t: Ran, poster: nat)
    ensures Share(ran + [t], poster) == Share(ran, poster) + if t.poster == poster then [t.task] else []
  {
    assert (ran + [t])[..|ran|] == ran;
  }

  lemma TakeOrdered(r: Runner, i: nat)
    requires Ordered(r) && Enabled(r, Take(i))
    ensures Ordered(Next(r, Take(i)))
  {
    hide Share;
    var r' := Next(r, Take(i));
    assert r'.claimed == r.claimed;
    forall j | 0 <= j < |r'.accepted|
      ensures Share(r'.ran, j) + r'.queued[j] + ClaimedBy(r', j) == r'.accepted[j]
    {
      ShareAppend(r.ran, Ran(i, r.queued[i][0]), j);
      MoveHead(Share(r.ran, i), r.queued[i], ClaimedBy(r, i));
    }
  }

  lemma MoveHead(a: seq<Task>, q: seq<Task>, c: seq<Task>)
    ensures |q| > 0 ==> a + [q[0]] + q[1..] + c == a + q + c
  {
  }

  lemma ClaimOrdered(r: Runner, i: nat, t: Task)
    requires Ordered(r) && Enabled(r, Claim(i, t))
    ensures Ordered(Next(r, Claim(i, t)))
  {
    hide Share;
    var r' := Next(r, Claim(i, t));
    forall j | 0 <= j < |r'.accepted|
      ensures Share(r'.ran, j) + r'.queued[j] + ClaimedBy(r', j) == r'.accepted[j]
    {
      assert Share(r.ran, j) + r.queued[j] + ClaimedBy(r, j) == r.accepted[j];
      assert Share(r.ran, i) + r.queued[i] + [] + [t] == Share(r.ran, i) + r.queued[i] + [t];
    }
  }

  lemma EnqueueOrdered(r: Runner, i: nat)
    requires Ordered(r) && Enabled(r, Enqueue(i))
    ensures Ordered(Next(r, Enqueue(i)))
  {
    hide Share;
    var r' := Next(r, Enqueue(i));
    forall j | 0 <= j < |r'.accepted|
      ensures Share(r'.ran, j) + r'.queued[j] + ClaimedBy(r', j) == r'.accepted[j]
    {
      assert Share(r.ran, j) + r.queued[j] + ClaimedBy(r, j) == r.accepted[j];
      MoveTail(Share(r.ran, i), r.queued[i], r.claimed[i]);
    }
  }

  lemma MoveTail(a: seq<Task>, q: seq<Task>, t: Task)
    ensures a + (q + [t]) + [] == a + q + [t]
  {
  }

  lemma OrderedKept(r: Runner, step: Step)
    requires Ordered(r) && Enabled(r, step)
    ensures Ordered(Next(r, step))
  {
    match step
    case Claim(i, t) => ClaimOrdered(r, i, t);
    case Enqueue(i) => EnqueueOrdered(r, i);
    case Take(i) => TakeOrdered(r, i);
    case _ =>
  }

  lemma StopsLastKept(r: Runner, step: Step)
    requires Counted(r) && StopsLast(r) && Enabled(r, step)
    ensures StopsLast(Next(r, step))
  {
    TotalEmpty(r.queued);
  }

  lemma StepKeepsInv(r: Runner, step: Step)
    requires Inv(r) && Enabled(r, step)
    ensures Inv(Next(r, step))
  {
    hide Counted, Ordered, StopsLast, Enabled, Next;
    CountedKept(r, step);
    OrderedKept(r, step);
    StopsLastKept(r, step);
  }

  ghost predicate Runs(r: Runner, steps: seq<Step>)
    decreases |steps|
  {
    |steps| == 0 || (Enabled(r, steps[0]) && Runs(Next(r, steps[0]), steps[1..]))
  }

  ghost function After(r: Runner, steps: seq<Step>): Runner
    requires Runs(r, steps)
    decreases |steps|
  {
    if |steps| == 0 then r else After(Next(r, steps[0]), steps[1..])
  }

  lemma {:induction false} RunKeepsInv(r: Runner, steps: seq<Step>)
    requires Inv(r) && Runs(r, steps)
    ensures Inv(After(r, steps))
    decreases |steps|
  {
    hide Inv, Next;
    if |steps| > 0 {
      StepKeepsInv(r, steps[0]);
      RunKeepsInv(Next(r, steps[0]), steps[1..]);
    }
  }

  /** Never more than the configured number of accepted tasks are unfinished. */
  lemma BacklogBounded(r0: Runner, steps: seq<Step>)
    requires Initial(r0) && Runs(r0, steps)
    ensures Unfinished(After(r0, steps)) <= After(r0, steps).maxQueued
  {
    hide Initial, Runs, After, Ordered, StopsLast, Unfinished;
    InitialInv(r0);
    RunKeepsInv(r0, steps);
  }

  /** A poster's tasks are started in the order it posted them, with none skipped. */
  lemma RunsInOrder(r0: Runner, steps: seq<Step>, poster: nat)
    requires Initial(r0) && Runs(r0, steps) && poster < |After(r0, steps).accepted|
    ensures Share(After(r0, steps).ran, poster) <= After(r0, steps).accepted[poster]
  {
    hide Initial, Runs, After, Counted, StopsLast;
    InitialInv(r0);
    RunKeepsInv(r0, steps);
  }

  /** The worker exits only when every accepted task has been started and none is in progress. */
  lemma ExitsWhenAllDone(r0: Runner, steps: seq<Step>, poster: nat)
    requires Initial(r0) && Runs(r0, steps) && After(r0, steps).worker == Exited && poster < |After(r0, steps).accepted|
    ensures var r := After(r0, steps);
      Unfinished(r) == 0 && InHand(r) == 0 && Share(r.ran, poster) == r.accepted[poster]
  {
    hide Initial, Runs, After;
    InitialInv(r0);
    RunKeepsInv(r0, steps);
    var r := After(r0, steps);
    TotalEmpty(r.queued);
    assert r.claimed == map[];
  }

  // ---- one order over all posters ----

  /** The tasks put in the queue and not yet started, as they were put there. */
  function Pending(r: Runner): seq<Ran>
    requires |r.ran| <= |r.enqueued|
  {
    r.enqueued[|r.ran|..]
  }

  /** So far tasks were started in the order they were enqueued, whoever posted them. */
  ghost predicate InLine(r: Runner) {
    && r.ran <= r.enqueued
    && |Pending(r)| == Total(r.queued)
    && (forall k :: 0 <= k < |Pending(r)| ==> Pending(r)[k].poster < |r.queued|)
    && forall i :: 0 <= i < |r.queued| ==> Share(Pending(r), i) == r.queued[i]
  }

  lemma {:induction false} ShareFirst(ran: seq<Ran>, i: nat)
    requires |ran| > 0
    ensures Share(ran, i) == (if ran[0].poster == i then [ran[0].task] else []) + Share(ran[1..], i)
  {
    if |ran| > 1 {
      var n := |ran| - 1;
      ShareFirst(ran[..n], i);
      assert ran[1..][..n - 1] == ran[..n][1..];
    }
  }

  /** The worker takes from the poster that is first in line. */
  lemma TakeInLine(r: Runner, i: nat)
    requires InLine(r) && Enabled(r, Take(i)) && (|r.queued| <= 1 || Total(r.queued) <= 1)
    ensures InLine(Next(r, Take(i)))
  {
    hide Share, Total;
    var line := Pending(r);
    var r' := Next(r, Take(i));
    TotalUpdate(r.queued, i, r.queued[i][1..]);
    TotalEmpty(r.queued);
    assert |line| > 0;
    ShareFirst(line, i);
    SingleShare(line[1..], i);
    assert line[0] == Ran(i, r.queued[i][0]);
    assert Pending(r') == line[1..];
    forall j | 0 <= j < |r'.queued|
      ensures Share(Pending(r'), j) == r'.queued[j]
    {
      ShareFirst(line, j);
    }
  }

  lemma SingleShare(ran: seq<Ran>, i: nat)
    ensures |ran| == 0 ==> Share(ran, i) == []
  {
  }

  lemma EnqueueInLine(r: Runner, i: nat)
    requires InLine(r) && Enabled(r, Enqueue(i))
    ensures InLine(Next(r, Enqueue(i)))
  {
    hide Share, Total;
    var r' := Next(r, Enqueue(i));
    TotalUpdate(r.queued, i, r.queued[i] + [r.claimed[i]]);
    assert Pending(r') == Pending(r) + [Ran(i, r.claimed[i])];
    forall j | 0 <= j < |r'.queued|
      ensures Share(Pending(r'), j) == r'.queued[j]
    {
      ShareAppend(Pending(r), Ran(i, r.claimed[i]), j);
    }
  }

  ghost predicate OneAtATime(r: Runner) {
    |r.accepted| <= 1 || r.maxQueued <= 1
  }

  lemma InLineKept(r: Runner, step: Step)
    requires Inv(r) && InLine(r) && OneAtATime(r) && Enabled(r, step)
    ensures InLine(Next(r, step)) && OneAtATime(Next(r, step))
  {
    hide Share, Total, StopsLast;
    match step
    case Enqueue(i) => EnqueueInLine(r, i);
    case Take(i) => TakeInLine(r, i);
    case _ => assert Pending(Next(r, step)) == Pending(r);
  }

  lemma {:induction false} RunStaysInLine(r: Runner, steps: seq<Step>)
    requires Inv(r) && InLine(r) && OneAtATime(r) && Runs(r, steps)
    ensures InLine(After(r, steps))
    decreases |steps|
  {
    hide Inv, InLine, OneAtATime, Next;
    if |steps| > 0 {
      StepKeepsInv(r, steps[0]);
      InLineKept(r, steps[0]);
      RunStaysInLine(Next(r, steps[0]), steps[1..]);
    }
  }

  lemma InitialInLine(r: Runner)
    requires Initial(r)
    ensures InLine(r)
  {
    TotalEmpty(r.queued);
  }

  /** Two posters, one after the other; the worker starts the second one's task first. */
  function Overtaking(): seq<Step> {
    [Claim(0, 10), Enqueue(0), Claim(1, 20), Enqueue(1), Take(1)]
  }

  lemma LaterTaskStartsFirst(r0: Runner)
    requires Initial(r0) && |r0.accepted| >= 2 && r0.maxQueued >= 2
    ensures Runs(r0, Overtaking())
    ensures var r := After(r0, Overtaking()); r.enqueued == [Ran(0, 10), Ran(1, 20)] && r.ran == [Ran(1, 20)]
  {
    var r1 := Next(r0, Claim(0, 10));
    var r2 := Next(r1, Enqueue(0));
    var r3 := Next(r2, Claim(1, 20));
    var r4 := Next(r3, Enqueue(1));
    var r5 := Next(r4, Take(1));
    assert r5.enqueued == [Ran(0, 10), Ran(1, 20)] && r5.ran == [Ran(1, 20)];
    hide Next, Enabled;
    assert Runs(r5, []) && After(r5, []) == r5;
    RunOneMore(r4, Take(1), []);
    RunOneMore(r3, Enqueue(1), [Take(1)]);
    RunOneMore(r2, Claim(1, 20), [Enqueue(1), Take(1)]);
    RunOneMore(r1, Enqueue(0), [Claim(1, 20), Enqueue(1), Take(1)]);
    RunOneMore(r0, Claim(0, 10), [Enqueue(0), Claim(1, 20), Enqueue(1), Take(1)]);
    assert [Claim(0, 10)] + [Enqueue(0), Claim(1, 20), Enqueue(1), Take(1)] == Overtaking();
    assert [Enqueue(0)] + [Claim(1, 20), Enqueue(1), Take(1)] == [Enqueue(0), Claim(1, 20), Enqueue(1), Take(1)];
    assert [Claim(1, 20)] + [Enqueue(1), Take(1)] == [Claim(1, 20), Enqueue(1), Take(1)];
    assert [Enqueue(1)] + [Take(1)] == [Enqueue(1), Take(1)];
    assert [Take(1)] + [] == [Take(1)];
  }

  lemma RunOneMore(r: Runner, step: Step, steps: seq<Step>)
    requires Enabled(r, step) && Runs(Next(r, step), steps)
    ensures Runs(r, [step] + steps) && After(r, [step] + steps) == After(Next(r, step), steps)
  {
    assert ([step] + steps)[1..] == steps;
  }

  ghost predicate AlwaysInOrder(r0: Runner) {
    forall steps :: Runs(r0, steps) ==> After(r0, steps).ran <= After(r0, steps).enqueued
  }

  /** Tasks start in the order they were enqueued on every run, exactly when there is one poster
      or room for one task. */
  lemma StartsInOrderIff(r0: Runner)
    requires Initial(r0)
    ensures AlwaysInOrder(r0) <==> |r0.accepted| <= 1 || r0.maxQueued <= 1
  {
    hide Initial, Runs, After;
    if OneAtATime(r0) {
      forall steps | Runs(r0, steps)
        ensures After(r0, steps).ran <= After(r0, steps).enqueued
      {
        InitialInv(r0);
        InitialInLine(r0);
        RunStaysInLine(r0, steps);
      }
    } else {
      LaterTaskStartsFirst(r0);
      var r := After(r0, Overtaking());
      assert r.ran[0] != r.enqueued[0];
    }
  }
}
