/** A session's outgoing path while its link is up: several threads call send_message, one executor
    runs the posted handlers and write completions, and the receiver reads the bytes in chunks.
    Every interleaving of the steps below is a run. */
module SessionWriter {
  import opened Optional
  import opened Framing

  /** Where the executor is inside do_write, if anywhere. */
  datatype Executor = Free | Dequeuing | Storing

  datatype Taken = Taken(sender: nat, message: string)

  datatype Writer = Writer(
    // per sender: everything it enqueued, in order, and the part still in the queue
    sent: seq<seq<string>>, queued: seq<seq<string>>,
    midCall: set<nat>,             // senders that enqueued but have not posted yet
    posts: nat,                    // posted handlers not yet run
    writing: bool,                 // the writing_ flag
    executor: Executor,
    inFlight: Option<string>,      // the bytes of the current write not on the wire yet
    wire: string,                  // bytes on their way
    reader: Reader,
    received: string,              // all bytes the receiver has read
    taken: seq<Taken>)             // messages dequeued, in order

  datatype Step =
    | Enqueue(sender: nat, message: string)
    | Post(sender: nat)
    | RunPost
    | Dequeue(sender: nat)
    | FindEmpty
    | StoreFlag
    | Transmit(count: nat)
    | CompleteWrite
    | Receive(count: nat)

  ghost predicate Enabled(w: Writer, step: Step) {
    match step
    case Enqueue(i, m) => i < |w.sent| == |w.queued| && i !in w.midCall && IsMessage(m)
    case Post(i) => i in w.midCall
    case RunPost => w.executor == Free && w.posts > 0
    case Dequeue(i) => w.executor == Dequeuing && i < |w.queued| && |w.queued[i]| > 0
    case FindEmpty => w.executor == Dequeuing && forall i :: 0 <= i < |w.queued| ==> w.queued[i] == []
    case StoreFlag => w.executor == Storing
    case Transmit(n) => w.inFlight.Some? && 0 < n <= |w.inFlight.value|
    case CompleteWrite => w.executor == Free && w.inFlight == Some("")
    case Receive(n) => 0 < n <= |w.wire|
  }

  ghost function Next(w: Writer, step: Step): Writer
    requires Enabled(w, step)
  {
    match step
    case Enqueue(i, m) =>
      w.(sent := w.sent[i := w.sent[i] + [m]], queued := w.queued[i := w.queued[i] + [m]], midCall := w.midCall + {i})
    case Post(i) => w.(midCall := w.midCall - {i}, posts := w.posts + 1)
    // the handler's compare-exchange: it starts writing only if nobody is
    case RunPost => w.(posts := w.posts - 1, writing := true, executor := if w.writing then Free else Dequeuing)
    case Dequeue(i) =>
      w.(queued := w.queued[i := w.queued[i][1..]], taken := w.taken + [Taken(i, w.queued[i][0])],
         inFlight := Some(w.queued[i][0] + [NEWLINE]), executor := Free)
    case FindEmpty => w.(executor := Storing)
    case StoreFlag => w.(writing := false, executor := Free)
    case Transmit(n) => w.(wire := w.wire + w.inFlight.value[..n], inFlight := Some(w.inFlight.value[n..]))
    case CompleteWrite => w.(inFlight := None, executor := Dequeuing)
    case Receive(n) => w.(wire := w.wire[n..], received := w.received + w.wire[..n], reader := Fed(w.reader, w.wire[..n]))
  }

  ghost predicate Initial(w: Writer) {
    && |w.sent| == |w.queued| && (forall i :: 0 <= i < |w.sent| ==> w.sent[i] == [] && w.queued[i] == [])
    && w.midCall == {} && w.posts == 0 && !w.writing && w.executor == Free && w.inFlight == None
    && w.wire == "" && w.reader == Reader("", []) && w.received == "" && w.taken == []
  }

  function Messages(taken: seq<Taken>): seq<string> {
    seq(|taken|, i requires 0 <= i < |taken| => taken[i].message)
  }

  /** One sender's share of the dequeued messages. */
  function Share(taken: seq<Taken>, sender: nat): seq<string> {
    if |taken| == 0 then []
    else
      var last := taken[|taken| - 1];
      Share(taken[..|taken| - 1], sender) + if last.sender == sender then [last.message] else []
  }

  // ---- what holds in every reachable state ----

  /** The flag is set exactly while a write is in flight or do_write is running. */
  ghost predicate FlagOk(w: Writer) {
    && (w.writing <==> w.inFlight.Some? || w.executor != Free)
    && !(w.inFlight.Some? && w.executor != Free)
  }

  /** A queued message has somebody coming for it: a write that will chain to it, do_write about
      to dequeue, a handler posted, or a sender about to post one. */
  ghost predicate NobodyStranded(w: Writer) {
    forall i :: 0 <= i < |w.queued| && w.queued[i] != [] ==>
      w.inFlight.Some? || w.executor == Dequeuing || w.posts > 0 || w.midCall != {}
  }

  /** Per sender, what was dequeued and what is queued are exactly what was sent, in order. */
  ghost predicate Conserved(w: Writer) {
    && |w.sent| == |w.queued|
    && (forall i :: 0 <= i < |w.sent| ==> Share(w.taken, i) + w.queued[i] == w.sent[i])
    && (forall i, j :: 0 <= i < |w.queued| && 0 <= j < |w.queued[i]| ==> IsMessage(w.queued[i][j]))
    && (forall k :: 0 <= k < |w.taken| ==> w.taken[k].sender < |w.sent|)
    && AreMessages(Messages(w.taken))
  }

  /** The bytes received, on the wire and still to be written are those of the dequeued messages. */
  ghost predicate BytesOk(w: Writer) {
    && w.received + w.wire + (if w.inFlight.Some? then w.inFlight.value else "") == Framed(Messages(w.taken))
    && w.reader == Received(w.received)
  }

  ghost predicate Inv(w: Writer) {
    FlagOk(w) && NobodyStranded(w) && Conserved(w) && BytesOk(w)
  }

  lemma InitialInv(w: Writer)
    requires Initial(w)
    ensures Inv(w)
  {
  }

  lemma FlagKept(w: Writer, step: Step)
    requires FlagOk(w) && Enabled(w, step)
    ensures FlagOk(Next(w, step))
  {
  }

  lemma StrandedKept(w: Writer, step: Step)
    requires FlagOk(w) && NobodyStranded(w) && Enabled(w, step)
    ensures NobodyStranded(Next(w, step))
  {
  }

  lemma ShareAppend(taken: seq<Taken>, t: Taken, sender: nat)
    ensures Share(taken + [t], sender) == Share(taken, sender) + if t.sender == sender then [t.message] else []
  {
    assert (taken + [t])[..|taken|] == taken;
  }

  lemma MessagesAppend(taken: seq<Taken>, t: Taken)
    ensures Messages(taken + [t]) == Messages(taken) + [t.message]
  {
  }

  lemma DequeueConserves(w: Writer, i: nat)
    requires Conserved(w) && Enabled(w, Dequeue(i))
    ensures Conserved(Next(w, Dequeue(i)))
  {
    var w' := Next(w, Dequeue(i));
    var t := Taken(i, w.queued[i][0]);
    MessagesAppend(w.taken, t);
    forall j | 0 <= j < |w'.sent|
      ensures Share(w'.taken, j) + w'.queued[j] == w'.sent[j]
    {
      ShareAppend(w.taken, t, j);
      assert w.queued[i] == [w.queued[i][0]] + w.queued[i][1..];
    }
  }

  lemma ConservedKept(w: Writer, step: Step)
    requires Conserved(w) && Enabled(w, step)
    ensures Conserved(Next(w, step))
  {
    match step
    case Enqueue(i, m) =>
      assert Share(w.taken, i) + (w.queued[i] + [m]) == w.sent[i] + [m];
    case Dequeue(i) => DequeueConserves(w, i);
    case _ =>
  }

  lemma BytesKept(w: Writer, step: Step)
    requires FlagOk(w) && BytesOk(w) && Enabled(w, step)
    ensures BytesOk(Next(w, step))
  {
    match step
    case Dequeue(i) =>
      var t := Taken(i, w.queued[i][0]);
      MessagesAppend(w.taken, t);
      assert Messages(w.taken + [t])[..|w.taken|] == Messages(w.taken);
    case Transmit(n) => TransmitBytes(w.received, w.wire, w.inFlight.value, n);
    case Receive(n) =>
      FedExtends(w.received, w.wire[..n]);
      assert w.received + w.wire[..n] + w.wire[n..] == w.received + w.wire;
    case _ =>
  }

  lemma TransmitBytes(received: string, wire: string, left: string, n: nat)
    requires n <= |left|
    ensures received + (wire + left[..n]) + left[n..] == received + wire + left
  {
  }

  lemma StepKeepsInv(w: Writer, step: Step)
    requires Inv(w) && Enabled(w, step)
    ensures Inv(Next(w, step))
  {
    hide FlagOk, NobodyStranded, Conserved, BytesOk, Enabled, Next;
    FlagKept(w, step);
    StrandedKept(w, step);
    ConservedKept(w, step);
    BytesKept(w, step);
  }

  ghost predicate Runs(w: Writer, steps: seq<Step>)
    decreases |steps|
  {
    |steps| == 0 || (Enabled(w, steps[0]) && Runs(Next(w, steps[0]), steps[1..]))
  }

  ghost function After(w: Writer, steps: seq<Step>): Writer
    requires Runs(w, steps)
    decreases |steps|
  {
    if |steps| == 0 then w else After(Next(w, steps[0]), steps[1..])
  }

  lemma {:induction false} RunKeepsInv(w: Writer, steps: seq<Step>)
    requires Inv(w) && Runs(w, steps)
    ensures Inv(After(w, steps))
    decreases |steps|
  {
    hide Inv, Next;
    if |steps| > 0 {
      StepKeepsInv(w, steps[0]);
      RunKeepsInv(Next(w, steps[0]), steps[1..]);
    }
  }

  // ---- delivery ----

  /** At any time the receiver has handled the first of the dequeued messages, in the order they
      were dequeued, each once; and of each sender's messages the dequeued ones are the first. */
  lemma DeliveredInOrder(w0: Writer, steps: seq<Step>)
    requires Initial(w0) && Runs(w0, steps)
    ensures var w := After(w0, steps);
      && w.reader.handled <= Messages(w.taken)
      && forall i :: 0 <= i < |w.sent| ==> Share(w.taken, i) <= w.sent[i]
  {
    hide Initial, Next, Enabled, Runs, After;
    InitialInv(w0);
    RunKeepsInv(w0, steps);
    var w := After(w0, steps);
    PrefixHandled(Messages(w.taken), w.received, w.wire + if w.inFlight.Some? then w.inFlight.value else "");
  }

  /** No step but a new message being sent is possible. */
  ghost predicate Quiet(w: Writer) {
    forall step :: Enabled(w, step) ==> step.Enqueue?
  }

  /** Every message sent has been handled: each sender's in the order it sent them, each once. */
  ghost predicate Delivered(w: Writer) {
    && w.reader == Reader("", Messages(w.taken))
    && forall i :: 0 <= i < |w.sent| ==> Share(w.taken, i) == w.sent[i]
  }

  lemma QuietMeansDelivered(w: Writer)
    requires Inv(w) && Quiet(w)
    ensures Delivered(w)
  {
    QuietMeansEmpty(w);
    PrefixHandled(Messages(w.taken), w.received, "");
    assert w.received + "" == w.received;
  }

  lemma QuietMeansEmpty(w: Writer)
    requires Inv(w) && Quiet(w)
    ensures w.wire == "" && w.inFlight == None && (forall i :: 0 <= i < |w.queued| ==> w.queued[i] == [])
    ensures w.received == Framed(Messages(w.taken))
  {
    assert !Enabled(w, Receive(1));
    assert !Enabled(w, StoreFlag) && !Enabled(w, FindEmpty) && !Enabled(w, RunPost) && !Enabled(w, CompleteWrite);
    assert !Enabled(w, Transmit(1));
    assert forall i :: !Enabled(w, Post(i)) && !Enabled(w, Dequeue(i));
    assert w.midCall == {} by {
      assert forall i :: Enabled(w, Post(i)) <==> i in w.midCall;
    }
    if w.executor == Dequeuing {
      DequeuingCanStep(w);
    }
    assert w.received + "" + "" == w.received;
  }

  lemma DequeuingCanStep(w: Writer)
    requires w.executor == Dequeuing
    ensures Enabled(w, FindEmpty) || exists i :: Enabled(w, Dequeue(i))
  {
    if !Enabled(w, FindEmpty) {
      var i :| 0 <= i < |w.queued| && w.queued[i] != [];
      assert Enabled(w, Dequeue(i));
    }
  }

  // ---- coming to rest ----

  function Weight(queue: seq<string>): nat {
    if |queue| == 0 then 0 else 2 * |queue[0]| + 4 + Weight(queue[1..])
  }

  function Backlog(queued: seq<seq<string>>): nat {
    if |queued| == 0 then 0 else Backlog(queued[..|queued| - 1]) + Weight(queued[|queued| - 1])
  }

  lemma {:induction false} BacklogUpdate(queued: seq<seq<string>>, i: nat, queue: seq<string>)
    requires i < |queued|
    ensures Backlog(queued[i := queue]) == Backlog(queued) - Weight(queued[i]) + Weight(queue)
  {
    var n := |queued| - 1;
    if i < n {
      BacklogUpdate(queued[..n], i, queue);
      assert queued[i := queue][..n] == queued[..n][i := queue];
    } else {
      assert queued[i := queue][..n] == queued[..n];
    }
  }

  /** What is left to do: more than the number of steps it takes to do it. */
  function Measure(w: Writer): nat {
    Backlog(w.queued) + (if w.inFlight.Some? then 2 * |w.inFlight.value| + 3 else 0)
    + (match w.executor case Free => 0 case Storing => 1 case Dequeuing => 2)
    + 3 * w.posts + 4 * |w.midCall| + |w.wire|
  }

  lemma MeasureFalls(w: Writer, step: Step)
    requires Enabled(w, step) && !step.Enqueue?
    ensures Measure(Next(w, step)) < Measure(w)
  {
    hide Backlog;
    match step
    case Post(i) => assert w.midCall == (w.midCall - {i}) + {i};
    case Dequeue(i) => BacklogUpdate(w.queued, i, w.queued[i][1..]);
    case _ =>
  }

  ghost predicate NoNewSends(steps: seq<Step>) {
    forall k :: 0 <= k < |steps| ==> !steps[k].Enqueue?
  }

  lemma {:induction false} FinitelyManySteps(w: Writer, steps: seq<Step>)
    requires Runs(w, steps) && NoNewSends(steps)
    ensures |steps| + Measure(After(w, steps)) <= Measure(w) && After(w, steps).sent == w.sent
    decreases |steps|
  {
    hide Measure;
    if |steps| > 0 {
      MeasureFalls(w, steps[0]);
      FinitelyManySteps(Next(w, steps[0]), steps[1..]);
    }
  }

  /** From any state, rest is within reach. */
  lemma {:induction false} ComesToRest(w: Writer) returns (steps: seq<Step>)
    ensures Runs(w, steps) && NoNewSends(steps) && Quiet(After(w, steps))
    decreases Measure(w)
  {
    hide Measure, Next, Enabled;
    if Quiet(w) {
      steps := [];
    } else {
      var step :| Enabled(w, step) && !step.Enqueue?;
      MeasureFalls(w, step);
      var rest := ComesToRest(Next(w, step));
      steps := [step] + rest;
      assert steps[1..] == rest;
    }
  }

  /** Once nobody sends any more, only boundedly many steps are left, every one of which can be
      taken until every message sent has been handled: no run stops short of that. */
  lemma NothingLost(w0: Writer, steps: seq<Step>, more: seq<Step>)
    requires Initial(w0) && Runs(w0, steps) && Runs(After(w0, steps), more) && NoNewSends(more)
    ensures var sent, w := After(w0, steps), After(After(w0, steps), more);
      && |more| <= Measure(sent) && w.sent == sent.sent
      && ((exists step :: Enabled(w, step) && !step.Enqueue?) || Delivered(w))
  {
    hide Initial, Runs, After, Measure, Inv, Delivered, Enabled;
    InitialInv(w0);
    RunKeepsInv(w0, steps);
    RunKeepsInv(After(w0, steps), more);
    FinitelyManySteps(After(w0, steps), more);
    var w := After(After(w0, steps), more);
    if Quiet(w) {
      QuietMeansDelivered(w);
    }
  }
}
