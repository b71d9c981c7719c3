/** The per-sender dispatcher. */
module Dispatch {
  // One bounded channel and one serial worker goroutine per active sender, all sharing
  // one mutex and one wait group. A channel and the goroutine that drains it are created
  // together and never separated, so the pair is one Lane. Every step below is one atomic
  // action of the program: a critical section under the mutex, one channel operation, the
  // end of one message, a timer, or one wait-group operation. A run is any sequence of
  // such steps.

  datatype Inbound = Inbound(sender: string, body: string)

  datatype Phase =
    | Selecting               // blocked in select on the channel and the idle timer
    | Handling(msg: Inbound)  // processing a received message
    | TimedOut                // the idle timer won the select; the mutex is not yet taken
    | Exiting                 // left the loop; the deferred wg.Done has not run yet
    | Gone

  datatype Lane = Lane(sender: string, buffer: seq<Inbound>, sealed: bool, phase: Phase)

  datatype Closer = Open | Waiting | Released | Cancelled

  /** `accepted` and `handled` record, per sender, what was put on the sender's
      channel and what has been fully processed. `panicked` is a send on a closed
      channel or a second close of one. */
  datatype Hub = Hub(
    closed: bool,
    queues: map<string, nat>,
    lanes: seq<Lane>,
    wg: int,
    closer: Closer,
    accepted: map<string, seq<Inbound>>,
    handled: map<string, seq<Inbound>>,
    panicked: bool)

  datatype Step =
    | Enqueue(msg: Inbound)
    | Receive(lane: nat)
    | SeesClosed(lane: nat)
    | Finish(lane: nat)
    | TimerFires(lane: nat)
    | TimeoutCheck(lane: nat)
    | Done(lane: nat)
    | Close
    | WaitReturns
    | Cancel

  const QUEUE_CAP: nat := 16

  const EMPTY: Hub := Hub(false, map[], [], 0, Open, map[], map[], false)

  function Of(log: map<string, seq<Inbound>>, s: string): seq<Inbound> {
    if s in log then log[s] else []
  }

  /** A worker that has not yet left its loop. */
  predicate Live(p: Phase) {
    !p.Exiting? && !p.Gone?
  }

  predicate Indexed(h: Hub) {
    forall s :: s in h.queues ==> h.queues[s] < |h.lanes|
  }

  predicate Enabled(h: Hub, step: Step) {
    match step
    case Enqueue(_) => true
    case Receive(i) => i < |h.lanes| && h.lanes[i].phase.Selecting? && h.lanes[i].buffer != []
    case SeesClosed(i) => i < |h.lanes| && h.lanes[i].phase.Selecting? && h.lanes[i].sealed && h.lanes[i].buffer == []
    case Finish(i) => i < |h.lanes| && h.lanes[i].phase.Handling?
    case TimerFires(i) => i < |h.lanes| && h.lanes[i].phase.Selecting?
    case TimeoutCheck(i) => i < |h.lanes| && h.lanes[i].phase.TimedOut?
    case Done(i) => i < |h.lanes| && h.lanes[i].phase.Exiting?
    case Close => true
    case WaitReturns => h.closer.Waiting? && h.wg == 0
    case Cancel => h.closer.Released?
  }

  /** The channel for a sender, made together with its worker when there is none. */
  function WithLane(h: Hub, s: string): (r: Hub)
    requires Indexed(h)
    ensures Indexed(r) && s in r.queues
  {
    if s in h.queues then h
    else h.(queues := h.queues[s := |h.lanes|],
            lanes := h.lanes + [Lane(s, [], false, Selecting)],
            wg := h.wg + 1)
  }

  function Offer(h: Hub, msg: Inbound): (r: Hub)
    requires Indexed(h) && msg.sender in h.queues
    ensures Indexed(r)
  {
    var i := h.queues[msg.sender];
    var l := h.lanes[i];
    if l.sealed then h.(panicked := true)
    else if |l.buffer| < QUEUE_CAP then
      h.(lanes := h.lanes[i := l.(buffer := l.buffer + [msg])],
         accepted := h.accepted[msg.sender := Of(h.accepted, msg.sender) + [msg]])
    else h
  }

  function SetPhase(h: Hub, i: nat, p: Phase): (r: Hub)
    requires Indexed(h) && i < |h.lanes|
    ensures Indexed(r)
  {
    h.(lanes := h.lanes[i := h.lanes[i].(phase := p)])
  }

  /** Closes every channel that is still in the map. */
  function Seal(h: Hub): (ls: seq<Lane>)
    ensures |ls| == |h.lanes|
  {
    seq(|h.lanes|, i requires 0 <= i < |h.lanes| =>
      var l := h.lanes[i];
      if l.sender in h.queues && h.queues[l.sender] == i then l.(sealed := true) else l)
  }

  /** One step; a step that is not enabled changes nothing. */
  function Apply(h: Hub, step: Step): (r: Hub)
    requires Indexed(h)
    ensures Indexed(r)
  {
    if !Enabled(h, step) then h else
    match step
    case Enqueue(msg) => if h.closed then h else Offer(WithLane(h, msg.sender), msg)
    case Receive(i) =>
      var l := h.lanes[i];
      h.(lanes := h.lanes[i := l.(phase := Handling(l.buffer[0]), buffer := l.buffer[1..])])
    case SeesClosed(i) => SetPhase(h, i, Exiting)
    case Finish(i) =>
      var l := h.lanes[i];
      SetPhase(h, i, Selecting).(handled := h.handled[l.sender := Of(h.handled, l.sender) + [l.phase.msg]])
    case TimerFires(i) => SetPhase(h, i, TimedOut)
    case TimeoutCheck(i) =>
      var l := h.lanes[i];
      if l.buffer == [] && l.sender in h.queues && h.queues[l.sender] == i && !h.closed
      then SetPhase(h, i, Exiting).(queues := h.queues - {l.sender})
      else SetPhase(h, i, Selecting)
    case Done(i) => SetPhase(h, i, Gone).(wg := h.wg - 1)
    case Close =>
      if h.closed then h.(panicked := h.panicked || h.queues != map[])
      else h.(closed := true, closer := Waiting, lanes := Seal(h))
    case WaitReturns => h.(closer := Released)
    case Cancel => h.(closer := Cancelled)
  }

  function Run(h: Hub, steps: seq<Step>): (r: Hub)
    requires Indexed(h)
    ensures Indexed(r)
    decreases |steps|
  {
    if steps == [] then h else Run(Apply(h, steps[0]), steps[1..])
  }

  // ---------------------------------------------------------------- counting

  function Total(ls: seq<Lane>, w: Lane -> nat): nat {
    if ls == [] then 0 else w(ls[0]) + Total(ls[1..], w)
  }

  lemma {:induction false} TotalUpdate(ls: seq<Lane>, w: Lane -> nat, i: nat, l: Lane)
    requires i < |ls|
    ensures Total(ls[i := l], w) == Total(ls, w) - w(ls[i]) + w(l)
  {
    if i == 0 {
      assert ls[0 := l][1..] == ls[1..];
    } else {
      assert ls[i := l][1..] == ls[1..][i - 1 := l];
      TotalUpdate(ls[1..], w, i - 1, l);
    }
  }

  lemma {:induction false} TotalAppend(ls: seq<Lane>, w: Lane -> nat, l: Lane)
    ensures Total(ls + [l], w) == Total(ls, w) + w(l)
  {
    if ls == [] {
      assert [l][1..] == [];
    } else {
      assert (ls + [l])[1..] == ls[1..] + [l];
      TotalAppend(ls[1..], w, l);
    }
  }

  lemma {:induction false} TotalSame(ls: seq<Lane>, ms: seq<Lane>, w: Lane -> nat)
    requires |ls| == |ms| && forall i :: 0 <= i < |ls| ==> w(ls[i]) == w(ms[i])
    ensures Total(ls, w) == Total(ms, w)
  {
    if ls != [] { TotalSame(ls[1..], ms[1..], w); }
  }

  lemma {:induction false} TotalAtLeast(ls: seq<Lane>, w: Lane -> nat, i: nat)
    requires i < |ls|
    ensures Total(ls, w) >= w(ls[i])
  {
    if i > 0 { TotalAtLeast(ls[1..], w, i - 1); }
  }

  lemma {:induction false} TotalPositive(ls: seq<Lane>, w: Lane -> nat) returns (i: nat)
    requires Total(ls, w) > 0
    ensures i < |ls| && w(ls[i]) > 0
  {
    if w(ls[0]) > 0 {
      i := 0;
    } else {
      i := TotalPositive(ls[1..], w);
      i := i + 1;
    }
  }

  /** One wait-group unit for every goroutine whose wg.Done has not run. */
  function Holds(l: Lane): nat { if l.phase.Gone? then 0 else 1 }

  // -------------------------------------------------------------- invariant

  /** What a sender's current worker holds, oldest first: the message in process,
      then the channel's buffer. */
  function InFlight(h: Hub, s: string): seq<Inbound>
    requires Indexed(h)
  {
    if s in h.queues then
      var l := h.lanes[h.queues[s]];
      (if l.phase.Handling? then [l.phase.msg] else []) + l.buffer
    else []
  }

  predicate Current(h: Hub, i: nat)
    requires i < |h.lanes|
  {
    h.lanes[i].sender in h.queues && h.queues[h.lanes[i].sender] == i
  }

  predicate LaneOk(h: Hub, i: nat)
    requires i < |h.lanes|
  {
    var l := h.lanes[i];
    && |l.buffer| <= QUEUE_CAP
    && (Live(l.phase) ==> Current(h, i))
    && (!Live(l.phase) ==> l.buffer == [])
    && (l.sealed <==> h.closed && Current(h, i))
  }

  /** Nothing accepted from s is lost, duplicated or reordered. */
  predicate Conserves(h: Hub, s: string)
    requires Indexed(h)
  {
    Of(h.handled, s) + InFlight(h, s) == Of(h.accepted, s)
  }

  ghost predicate Conserved(h: Hub)
    requires Indexed(h)
  {
    forall s :: Conserves(h, s)
  }

  ghost predicate Shape(h: Hub) {
    && Indexed(h)
    && !h.panicked
    && (forall s :: s in h.queues ==>
         h.lanes[h.queues[s]].sender == s && (!h.closed ==> Live(h.lanes[h.queues[s]].phase)))
    && (forall i :: 0 <= i < |h.lanes| ==> LaneOk(h, i))
    && h.wg == Total(h.lanes, Holds)
    && (h.closed <==> !h.closer.Open?)
    && (h.closer.Released? || h.closer.Cancelled? ==> h.wg == 0)
  }

  ghost predicate Inv(h: Hub) {
    Shape(h) && Conserved(h)
  }

  lemma WithLaneShape(h: Hub, s: string)
    requires Shape(h) && !h.closed
    ensures Shape(WithLane(h, s))
  {
    var g := WithLane(h, s);
    TotalAppend(h.lanes, Holds, Lane(s, [], false, Selecting));
    forall j | 0 <= j < |g.lanes| ensures LaneOk(g, j) { assert j < |h.lanes| ==> LaneOk(h, j); }
  }

  lemma EnqueueKeeps(h: Hub, msg: Inbound)
    requires Inv(h)
    ensures Inv(Apply(h, Enqueue(msg)))
  {
    if !h.closed {
      var g := WithLane(h, msg.sender);
      WithLaneShape(h, msg.sender);
      forall s ensures Conserves(g, s) {
        assert Conserves(h, s);
        assert InFlight(g, s) == InFlight(h, s);
      }
      OfferKeeps(g, msg);
    }
  }

  lemma OfferKeeps(h: Hub, msg: Inbound)
    requires Inv(h) && !h.closed && msg.sender in h.queues
    ensures Inv(Offer(h, msg))
  {
    var i := h.queues[msg.sender];
    var l := h.lanes[i];
    assert LaneOk(h, i);
    if |l.buffer| < QUEUE_CAP {
      var r := Offer(h, msg);
      TotalUpdate(h.lanes, Holds, i, l.(buffer := l.buffer + [msg]));
      forall j | 0 <= j < |h.lanes| ensures LaneOk(r, j) { assert LaneOk(h, j); }
      forall s ensures Conserves(r, s) {
        assert Conserves(h, s);
        if s == msg.sender {
          assert InFlight(r, s) == InFlight(h, s) + [msg];
          assert Of(h.handled, s) + (InFlight(h, s) + [msg]) == (Of(h.handled, s) + InFlight(h, s)) + [msg];
        } else {
          assert InFlight(r, s) == InFlight(h, s);
        }
      }
    }
  }

  /** A worker's step replaces its own lane, keeping its sender and seal. If that
      sender's handled and in-flight messages still make up what was accepted, the
      invariant holds again; nothing else has to be looked at. */
  predicate Narrows(h: Hub, i: nat, l: Lane)
    requires i < |h.lanes|
  {
    var was := h.lanes[i];
    && !was.phase.Gone?
    && l.sender == was.sender && l.sealed == was.sealed && |l.buffer| <= |was.buffer|
    && (Live(l.phase) ==> Live(was.phase))
    && (!Live(l.phase) ==> l.buffer == [] && (h.closed || !Live(was.phase)))
  }

  function Replace(h: Hub, i: nat, l: Lane): (r: Hub)
    requires Indexed(h) && i < |h.lanes|
    ensures Indexed(r)
  {
    h.(lanes := h.lanes[i := l], wg := h.wg - (if l.phase.Gone? then 1 else 0))
  }

  lemma ReplaceShape(h: Hub, i: nat, l: Lane)
    requires Shape(h) && i < |h.lanes| && Narrows(h, i, l)
    ensures Shape(Replace(h, i, l))
  {
    var r := Replace(h, i, l);
    TotalUpdate(h.lanes, Holds, i, l);
    TotalAtLeast(h.lanes, Holds, i);
    forall j | 0 <= j < |r.lanes| ensures LaneOk(r, j) { assert LaneOk(h, j); }
  }

  lemma LaneUpdateKeeps(h: Hub, i: nat, l: Lane, handled: map<string, seq<Inbound>>)
    requires Inv(h) && i < |h.lanes| && Narrows(h, i, l)
    requires forall s :: s != l.sender ==> Of(handled, s) == Of(h.handled, s)
    requires Of(handled, l.sender) + InFlight(Replace(h, i, l), l.sender) == Of(h.handled, l.sender) + InFlight(h, l.sender)
    ensures Inv(Replace(h, i, l).(handled := handled))
  {
    ReplaceShape(h, i, l);
    var r := Replace(h, i, l).(handled := handled);
    assert Shape(r) by { assert forall j :: 0 <= j < |r.lanes| ==> LaneOk(Replace(h, i, l), j) ==> LaneOk(r, j); }
    forall s ensures Conserves(r, s) {
      assert Conserves(h, s);
      assert InFlight(r, s) == InFlight(Replace(h, i, l), s);
      if s != l.sender { assert InFlight(r, s) == InFlight(h, s); }
    }
  }

  lemma ReceiveKeeps(h: Hub, i: nat)
    requires Inv(h) && Enabled(h, Receive(i))
    ensures Inv(Apply(h, Receive(i)))
  {
    var l := h.lanes[i];
    assert LaneOk(h, i);
    assert l.buffer == [l.buffer[0]] + l.buffer[1..];
    LaneUpdateKeeps(h, i, l.(phase := Handling(l.buffer[0]), buffer := l.buffer[1..]), h.handled);
  }

  lemma FinishKeeps(h: Hub, i: nat)
    requires Inv(h) && Enabled(h, Finish(i))
    ensures Inv(Apply(h, Finish(i)))
  {
    var l := h.lanes[i];
    var handled := h.handled[l.sender := Of(h.handled, l.sender) + [l.phase.msg]];
    assert LaneOk(h, i);
    assert Of(handled, l.sender) + l.buffer == Of(h.handled, l.sender) + ([l.phase.msg] + l.buffer);
    LaneUpdateKeeps(h, i, l.(phase := Selecting), handled);
  }

  lemma PhaseKeeps(h: Hub, i: nat, p: Phase)
    requires Inv(h) && i < |h.lanes| && !p.Handling? && !h.lanes[i].phase.Handling? && !h.lanes[i].phase.Gone?
    requires Live(p) ==> Live(h.lanes[i].phase)
    requires !Live(p) ==> h.lanes[i].buffer == [] && (h.closed || !Live(h.lanes[i].phase))
    ensures Inv(SetPhase(h, i, p).(wg := h.wg - (if p.Gone? then 1 else 0)))
  {
    var l := h.lanes[i];
    assert LaneOk(h, i);
    LaneUpdateKeeps(h, i, l.(phase := p), h.handled);
  }

  /** Idle retirement: the sender leaves the map only with nothing in flight. */
  lemma RetireKeeps(h: Hub, i: nat)
    requires Inv(h) && Enabled(h, TimeoutCheck(i)) && !h.closed && h.lanes[i].buffer == []
    ensures Inv(Apply(h, TimeoutCheck(i)))
  {
    var r := Apply(h, TimeoutCheck(i));
    var l := h.lanes[i];
    assert LaneOk(h, i);
    TotalUpdate(h.lanes, Holds, i, r.lanes[i]);
    forall j | 0 <= j < |r.lanes| ensures LaneOk(r, j) { assert LaneOk(h, j); }
    forall s ensures Conserves(r, s) {
      assert Conserves(h, s);
      assert InFlight(r, s) == InFlight(h, s);
    }
  }

  lemma TimeoutKeeps(h: Hub, i: nat)
    requires Inv(h) && Enabled(h, TimeoutCheck(i))
    ensures Inv(Apply(h, TimeoutCheck(i)))
  {
    assert LaneOk(h, i);
    if !h.closed && h.lanes[i].buffer == [] { RetireKeeps(h, i); } else { PhaseKeeps(h, i, Selecting); }
  }

  lemma CloseKeeps(h: Hub)
    requires Inv(h) && !h.closed
    ensures Inv(Apply(h, Close))
  {
    var r := Apply(h, Close);
    forall j | 0 <= j < |h.lanes| ensures LaneOk(r, j) { assert LaneOk(h, j); }
    TotalSame(h.lanes, r.lanes, Holds);
    forall s ensures Conserves(r, s) {
      assert Conserves(h, s);
      assert InFlight(r, s) == InFlight(h, s);
    }
  }

  /** Every step except a second Close keeps the invariant. */
  lemma {:induction false} StepKeeps(h: Hub, step: Step)
    requires Inv(h) && (step.Close? ==> !h.closed)
    ensures Inv(Apply(h, step))
  {
    match step {
      case Enqueue(msg) => EnqueueKeeps(h, msg);
      case Close => CloseKeeps(h);
      case WaitReturns => WaiterKeeps(h, step);
      case Cancel => WaiterKeeps(h, step);
      case Receive(i) => if Enabled(h, step) { ReceiveKeeps(h, i); }
      case Finish(i) => if Enabled(h, step) { FinishKeeps(h, i); }
      case TimeoutCheck(i) => if Enabled(h, step) { TimeoutKeeps(h, i); }
      case SeesClosed(i) => if Enabled(h, step) { assert LaneOk(h, i); PhaseKeeps(h, i, Exiting); }
      case TimerFires(i) => if Enabled(h, step) { PhaseKeeps(h, i, TimedOut); }
      case Done(i) => if Enabled(h, step) { assert LaneOk(h, i); PhaseKeeps(h, i, Gone); }
    }
  }

  lemma WaiterKeeps(h: Hub, step: Step)
    requires Inv(h) && (step.WaitReturns? || step.Cancel?)
    ensures Inv(Apply(h, step))
  {
    var r := Apply(h, step);
    forall j | 0 <= j < |h.lanes| ensures LaneOk(r, j) { assert LaneOk(h, j); }
    forall s ensures Conserves(r, s) {
      assert Conserves(h, s);
      assert InFlight(r, s) == InFlight(h, s);
    }
  }

  // --------------------------------------------------------------- whole runs

  function Closes(steps: seq<Step>): nat {
    if steps == [] then 0 else (if steps[0].Close? then 1 else 0) + Closes(steps[1..])
  }

  lemma StepCloses(h: Hub, step: Step)
    requires Indexed(h)
    ensures Apply(h, step).closed <==> h.closed || step.Close?
  {}

  lemma {:induction false} RunKeeps(h: Hub, steps: seq<Step>)
    requires Inv(h) && Closes(steps) <= (if h.closed then 0 else 1)
    ensures Inv(Run(h, steps))
    decreases |steps|
  {
    if steps != [] {
      StepKeeps(h, steps[0]);
      StepCloses(h, steps[0]);
      RunKeeps(Apply(h, steps[0]), steps[1..]);
    }
  }

  lemma EmptyInv()
    ensures Inv(EMPTY)
  {
    forall s ensures Conserves(EMPTY, s) {}
  }

  /** In every interleaving a sender has at most one worker that has not left its
      loop, so its messages are processed one at a time, and that worker's channel
      is the one the map holds for the sender. */
  lemma {:induction false} OneWorkerPerSender(steps: seq<Step>, i: nat, j: nat)
    requires Closes(steps) <= 1
    requires i < |Run(EMPTY, steps).lanes| && j < |Run(EMPTY, steps).lanes|
    requires Live(Run(EMPTY, steps).lanes[i].phase) && Live(Run(EMPTY, steps).lanes[j].phase)
    requires Run(EMPTY, steps).lanes[i].sender == Run(EMPTY, steps).lanes[j].sender
    ensures i == j && Current(Run(EMPTY, steps), i)
  {
    EmptyInv();
    RunKeeps(EMPTY, steps);
    assert LaneOk(Run(EMPTY, steps), i) && LaneOk(Run(EMPTY, steps), j);
  }

  /** The dispatcher takes a message unless it is closed or sixteen of the sender's wait. */
  predicate Admits(h: Hub, msg: Inbound)
    requires Indexed(h)
  {
    !h.closed && (msg.sender in h.queues ==> |h.lanes[h.queues[msg.sender]].buffer| < 16)
  }

  /** The messages of sender s that a run takes, in the order they were offered. */
  function Taken(h: Hub, steps: seq<Step>, s: string): seq<Inbound>
    requires Indexed(h)
    decreases |steps|
  {
    if steps == [] then [] else TakenBy(h, steps[0], s) + Taken(Apply(h, steps[0]), steps[1..], s)
  }

  function TakenBy(h: Hub, step: Step, s: string): seq<Inbound>
    requires Indexed(h)
  {
    if step.Enqueue? && step.msg.sender == s && Admits(h, step.msg) then [step.msg] else []
  }

  lemma StepTakes(h: Hub, step: Step, s: string)
    requires Inv(h)
    ensures Of(Apply(h, step).accepted, s) == Of(h.accepted, s) + TakenBy(h, step, s)
  {
    if step.Enqueue? && step.msg.sender in h.queues {
      assert LaneOk(h, h.queues[step.msg.sender]);
    }
  }

  lemma {:induction false} RunTakes(h: Hub, steps: seq<Step>, s: string)
    requires Inv(h) && Closes(steps) <= (if h.closed then 0 else 1)
    ensures Of(Run(h, steps).accepted, s) == Of(h.accepted, s) + Taken(h, steps, s)
    decreases |steps|
  {
    if steps != [] {
      var g := Apply(h, steps[0]);
      StepTakes(h, steps[0], s);
      assert Inv(g) by { StepKeeps(h, steps[0]); }
      StepCloses(h, steps[0]);
      RunTakes(g, steps[1..], s);
      Regroup(Of(h.accepted, s), TakenBy(h, steps[0], s), Taken(g, steps[1..], s));
    }
  }

  lemma Regroup<T>(a: seq<T>, b: seq<T>, c: seq<T>)
    ensures (a + b) + c == a + (b + c)
  {}

  /** FIFO across any number of idle retirements and recreations: what a sender's
      workers have processed, then what the current one holds, is exactly what was
      taken from the sender, in order. */
  lemma {:induction false} FifoPerSender(steps: seq<Step>, s: string)
    requires Closes(steps) <= 1
    ensures var h := Run(EMPTY, steps);
            Of(h.handled, s) + InFlight(h, s) == Taken(EMPTY, steps, s) && |InFlight(h, s)| <= QUEUE_CAP + 1
  {
    EmptyInv();
    RunKeeps(EMPTY, steps);
    RunTakes(EMPTY, steps, s);
    var h := Run(EMPTY, steps);
    assert Conserves(h, s);
    if s in h.queues { assert LaneOk(h, h.queues[s]); }
  }

  /** When the idle timer of a worker of s has won the select, the worker retires, leaving
      the map, exactly when the dispatcher is open and nothing of s is in flight; otherwise
      it goes back to its loop and the map stays. */
  lemma RetiresExactlyWhen(h: Hub, i: nat)
    requires Inv(h) && i < |h.lanes| && h.lanes[i].phase.TimedOut?
    ensures var s := h.lanes[i].sender; var r := Apply(h, TimeoutCheck(i));
            && |r.lanes| == |h.lanes| && r.lanes == h.lanes[i := r.lanes[i]]
            && (!h.closed && InFlight(h, s) == [] <==> s !in r.queues && !Live(r.lanes[i].phase))
            && (h.closed || InFlight(h, s) != [] <==> r.queues == h.queues && r.lanes[i].phase.Selecting?)
            && r.queues.Keys + {s} == h.queues.Keys
            && (forall t :: t in r.queues ==> r.queues[t] == h.queues[t])
  {
    assert LaneOk(h, i);
  }

  /** In every run, that is. */
  lemma {:induction false} IdleWorkersRetire(steps: seq<Step>, i: nat)
    requires Closes(steps) <= 1
    requires i < |Run(EMPTY, steps).lanes| && Run(EMPTY, steps).lanes[i].phase.TimedOut?
    ensures var h := Run(EMPTY, steps); var s := h.lanes[i].sender; var r := Run(EMPTY, steps + [TimeoutCheck(i)]);
            && i < |r.lanes|
            && (!h.closed && InFlight(h, s) == [] <==> s !in r.queues && !Live(r.lanes[i].phase))
            && (h.closed || InFlight(h, s) != [] <==> r.queues == h.queues && r.lanes[i].phase.Selecting?)
  {
    EmptyInv();
    RunKeeps(EMPTY, steps);
    RetiresExactlyWhen(Run(EMPTY, steps), i);
    RunSnoc(EMPTY, steps, TimeoutCheck(i));
  }

  lemma {:induction false} RunSnoc(h: Hub, steps: seq<Step>, step: Step)
    requires Indexed(h)
    ensures Run(h, steps + [step]) == Apply(Run(h, steps), step)
    decreases |steps|
  {
    if steps == [] {
      assert [] + [step] == [step] && [step][1..] == [];
    } else {
      assert (steps + [step])[1..] == steps[1..] + [step];
      RunSnoc(Apply(h, steps[0]), steps[1..], step);
    }
  }

  /** What becomes of a first message: its worker takes it, ends it, and retires when idle. */
  function OnceAround(m: Inbound): seq<Step> {
    [Enqueue(m)] + [Receive(0)] + [Finish(0)] + [TimerFires(0)] + [TimeoutCheck(0)]
  }

  lemma OneRetirement(m: Inbound)
    ensures var h := Run(EMPTY, OnceAround(m));
            && h.queues == map[] && h.lanes == [Lane(m.sender, [], false, Exiting)]
            && !h.closed && h.wg == 1 && h.handled == map[m.sender := [m]]
  {
    hide Run;
    RunSnoc(EMPTY, [], Enqueue(m));
    assert [] + [Enqueue(m)] == [Enqueue(m)];
    assert Run(EMPTY, []) == EMPTY by { RunNothing(EMPTY); }
    RunSnoc(EMPTY, [Enqueue(m)], Receive(0));
    RunSnoc(EMPTY, [Enqueue(m)] + [Receive(0)], Finish(0));
    RunSnoc(EMPTY, [Enqueue(m)] + [Receive(0)] + [Finish(0)], TimerFires(0));
    RunSnoc(EMPTY, [Enqueue(m)] + [Receive(0)] + [Finish(0)] + [TimerFires(0)], TimeoutCheck(0));
    assert Of(map[], m.sender) + [m] == [m];
  }

  lemma RunNothing(h: Hub)
    requires Indexed(h)
    ensures Run(h, []) == h
  {
  }

  /** A sender whose worker has retired gets a new lane for its next message. */
  lemma RetiredSenderReturns(m: Inbound, next: Inbound)
    requires next.sender == m.sender
    ensures var h := Run(EMPTY, OnceAround(m) + [Enqueue(next)]);
            && h.queues == map[m.sender := 1] && h.wg == 2
            && h.lanes == [Lane(m.sender, [], false, Exiting), Lane(m.sender, [next], false, Selecting)]
  {
    hide Run;
    OneRetirement(m);
    assert [] + [next] == [next];
    RunSnoc(EMPTY, OnceAround(m), Enqueue(next));
  }

  /** No step of any run sends on a closed channel or closes one twice, as long as
      close is called at most once. */
  lemma {:induction false} NeverPanics(steps: seq<Step>)
    requires Closes(steps) <= 1
    ensures !Run(EMPTY, steps).panicked
  {
    EmptyInv();
    RunKeeps(EMPTY, steps);
  }

  /** The invariant is what keeps this from happening: a channel that is sealed while its
      sender is still served would be sent on. */
  lemma SendOnSealedPanics(h: Hub, msg: Inbound)
    requires Indexed(h) && !h.closed && msg.sender in h.queues && h.lanes[h.queues[msg.sender]].sealed
    ensures Apply(h, Enqueue(msg)).panicked
  {
  }

  /** Close begins to wait, the wait returns only at a count of zero, and only then is the
      context cancelled. */
  lemma ClosesInOrder(h: Hub, step: Step)
    requires Inv(h)
    ensures var r := Apply(h, step);
            && (r.closer != h.closer ==> match r.closer
                  case Open => false
                  case Waiting => step.Close? && h.closer.Open?
                  case Released => step.WaitReturns? && h.closer.Waiting? && h.wg == 0
                  case Cancelled => step.Cancel? && h.closer.Released?)
            && (step.WaitReturns? && h.closer.Waiting? && h.wg == 0 ==> r.closer.Released?)
            && (step.Cancel? && h.closer.Released? ==> r.closer.Cancelled?)
            && (step.Close? && h.closer.Open? ==> r.closer.Waiting?)
  {
  }

  /** A second close panics exactly when some sender was still in the map. */
  lemma {:induction false} SecondClosePanics(steps: seq<Step>)
    requires Closes(steps) == 1
    ensures var h := Run(EMPTY, steps); Apply(h, Close).panicked <==> h.queues != map[]
  {
    EmptyInv();
    RunKeeps(EMPTY, steps);
    ClosesMeansClosed(EMPTY, steps);
  }

  lemma {:induction false} ClosesMeansClosed(h: Hub, steps: seq<Step>)
    requires Indexed(h)
    ensures Run(h, steps).closed <==> h.closed || Closes(steps) > 0
    decreases |steps|
  {
    if steps != [] {
      var g := Apply(h, steps[0]);
      assert g.closed <==> h.closed || steps[0].Close? by { StepCloses(h, steps[0]); }
      ClosesMeansClosed(g, steps[1..]);
    }
  }

  lemma ClosedStep(h: Hub, step: Step)
    requires Inv(h) && h.closed && !step.Close?
    ensures var r := Apply(h, step);
            && r.closed && r.accepted == h.accepted && |r.lanes| == |h.lanes|
            && r.wg <= h.wg && r.queues == h.queues
  {}

  /** After close: nothing more is taken, no goroutine is started, the wait group
      never grows and the map is frozen. */
  lemma {:induction false} ClosedAcceptsNothing(h: Hub, steps: seq<Step>)
    requires Inv(h) && h.closed && Closes(steps) == 0
    ensures var r := Run(h, steps);
            && r.closed && r.accepted == h.accepted && |r.lanes| == |h.lanes|
            && r.wg <= h.wg && r.queues == h.queues
    decreases |steps|
  {
    if steps != [] {
      var g := Apply(h, steps[0]);
      assert Inv(g) by { StepKeeps(h, steps[0]); }
      ClosedStep(h, steps[0]);
      ClosedAcceptsNothing(g, steps[1..]);
    }
  }

  /** When close returns from its wait, before the shared context is cancelled,
      every message ever taken has been processed. */
  lemma {:induction false} CloseDrains(steps: seq<Step>, s: string)
    requires Closes(steps) <= 1
    ensures var h := Run(EMPTY, steps);
            h.closer.Released? || h.closer.Cancelled? ==> Of(h.handled, s) == Taken(EMPTY, steps, s)
  {
    var h := Run(EMPTY, steps);
    FifoPerSender(steps, s);
    EmptyInv();
    RunKeeps(EMPTY, steps);
    if (h.closer.Released? || h.closer.Cancelled?) && s in h.queues {
      var i := h.queues[s];
      TotalAtLeast(h.lanes, Holds, i);
      assert LaneOk(h, i);
      assert InFlight(h, s) == [];
    }
  }

  // ----------------------------------------------------------- close can finish

  /** Steps a lane still owes before its goroutine is gone. */
  function Owes(l: Lane): nat {
    match l.phase
    case Selecting => 3 * |l.buffer| + 2
    case Handling(_) => 3 * |l.buffer| + 4
    case TimedOut => 3 * |l.buffer| + 3
    case Exiting => 1
    case Gone => 0
  }

  /** After close some worker can always move without waiting for a timer, and the
      move brings the drain strictly closer. */
  lemma DrainProgress(h: Hub) returns (step: Step)
    requires Inv(h) && h.closed && h.wg > 0
    ensures Enabled(h, step) && !step.TimerFires? && !step.Close?
    ensures Total(Apply(h, step).lanes, Owes) < Total(h.lanes, Owes)
    ensures Apply(h, step).closer == h.closer
  {
    var i := TotalPositive(h.lanes, Holds);
    var l := h.lanes[i];
    assert LaneOk(h, i);
    step := match l.phase
      case Selecting => if l.buffer == [] then SeesClosed(i) else Receive(i)
      case Handling(_) => Finish(i)
      case TimedOut => TimeoutCheck(i)
      case _ => Done(i);
    OwedStep(h, i, step);
  }

  lemma OwedStep(h: Hub, i: nat, step: Step)
    requires Indexed(h) && h.closed && i < |h.lanes| && Enabled(h, step)
    requires step in {Receive(i), SeesClosed(i), Finish(i), TimeoutCheck(i), Done(i)}
    ensures Total(Apply(h, step).lanes, Owes) < Total(h.lanes, Owes)
    ensures Apply(h, step).closer == h.closer
  {
    var l := Apply(h, step).lanes[i];
    assert Apply(h, step).lanes == h.lanes[i := l];
    TotalUpdate(h.lanes, Owes, i, l);
  }

  /** So from any point after close there is a way to finish it. */
  lemma {:induction false} CloseCanFinish(h: Hub) returns (steps: seq<Step>)
    requires Inv(h) && h.closer.Waiting?
    ensures Closes(steps) == 0 && Run(h, steps).closer.Cancelled?
    decreases Total(h.lanes, Owes)
  {
    if h.wg == 0 {
      steps := [WaitReturns, Cancel];
      var g := Apply(h, WaitReturns);
      assert steps[1..] == [Cancel];
      assert Run(h, steps) == Run(g, [Cancel]) == Run(Apply(g, Cancel), []);
    } else {
      var step := DrainProgress(h);
      StepKeeps(h, step);
      var rest := CloseCanFinish(Apply(h, step));
      steps := [step] + rest;
      assert steps[1..] == rest;
    }
  }

  // ------------------------------------------------------------- the dispatcher

  /** Lane i when close has still to visit the senders in todo. */
  function SealedUnless(h: Hub, i: nat, todo: set<string>): Lane
    requires i < |h.lanes|
  {
    if Current(h, i) && h.lanes[i].sender !in todo then h.lanes[i].(sealed := true) else h.lanes[i]
  }

  /** The running object. Its methods are the program's atomic sections; each is
      exactly one Step of the machine above. */
  class Dispatcher {
    var closed: bool
    var queues: map<string, nat>
    var lanes: seq<Lane>
    var wg: int
    var closer: Closer
    ghost var accepted: map<string, seq<Inbound>>
    ghost var handled: map<string, seq<Inbound>>

    ghost function View(): Hub
      reads this
    {
      Hub(closed, queues, lanes, wg, closer, accepted, handled, false)
    }

    ghost predicate Valid()
      reads this
    {
      Inv(View())
    }

    constructor ()
      ensures Valid() && View() == EMPTY
    {
      closed, queues, lanes, wg, closer, accepted, handled := false, map[], [], 0, Open, map[], map[];
      new;
      EmptyInv();
    }

    method Enqueue(msg: Inbound)
      requires Valid()
      modifies this
      ensures Valid() && View() == Apply(old(View()), Step.Enqueue(msg))
    {
      ghost var was := View();
      StepKeeps(was, Step.Enqueue(msg));
      if closed { return; }
      if msg.sender !in queues {
        queues := queues[msg.sender := |lanes|];
        lanes := lanes + [Lane(msg.sender, [], false, Selecting)];
        wg := wg + 1;
      }
      assert View() == WithLane(was, msg.sender);
      var i := queues[msg.sender];
      assert !lanes[i].sealed by { assert was.queues == queues ==> LaneOk(was, i); }
      if |lanes[i].buffer| < QUEUE_CAP {
        lanes := lanes[i := lanes[i].(buffer := lanes[i].buffer + [msg])];
        accepted := accepted[msg.sender := Of(accepted, msg.sender) + [msg]];
      }
    }

    /** The worker's receive case: a buffered message, or the closed channel. */
    method ReceiveOne(i: nat)
      requires Valid() && i < |lanes| && lanes[i].phase.Selecting? && (lanes[i].buffer != [] || lanes[i].sealed)
      modifies this
      ensures Valid()
      ensures View() == Apply(old(View()), if old(lanes[i].buffer) != [] then Receive(i) else SeesClosed(i))
    {
      var l := lanes[i];
      StepKeeps(View(), if l.buffer != [] then Receive(i) else SeesClosed(i));
      if l.buffer != [] {
        lanes := lanes[i := l.(phase := Handling(l.buffer[0]), buffer := l.buffer[1..])];
      } else {
        lanes := lanes[i := l.(phase := Exiting)];
      }
    }

    method FinishOne(i: nat)
      requires Valid() && i < |lanes| && lanes[i].phase.Handling?
      modifies this
      ensures Valid() && View() == Apply(old(View()), Finish(i))
    {
      StepKeeps(View(), Finish(i));
      handled := handled[lanes[i].sender := Of(handled, lanes[i].sender) + [lanes[i].phase.msg]];
      lanes := lanes[i := lanes[i].(phase := Selecting)];
    }

    method CheckIdle(i: nat)
      requires Valid() && i < |lanes| && lanes[i].phase.TimedOut?
      modifies this
      ensures Valid() && View() == Apply(old(View()), TimeoutCheck(i))
      ensures !closed && old(InFlight(View(), lanes[i].sender)) == [] <==>
              old(lanes[i].sender) !in queues && !Live(lanes[i].phase)
      ensures closed || old(InFlight(View(), lanes[i].sender)) != [] <==>
              queues == old(queues) && lanes[i].phase.Selecting?
    {
      hide Conserved, LaneOk;
      StepKeeps(View(), TimeoutCheck(i));
      RetiresExactlyWhen(View(), i);
      var l := lanes[i];
      if |l.buffer| == 0 && l.sender in queues && queues[l.sender] == i && !closed {
        queues := queues - {l.sender};
        lanes := lanes[i := l.(phase := Exiting)];
      } else {
        lanes := lanes[i := l.(phase := Selecting)];
      }
    }

    /** The worker's deferred wg.Done. */
    method Leave(i: nat)
      requires Valid() && i < |lanes| && lanes[i].phase.Exiting?
      modifies this
      ensures Valid() && View() == Apply(old(View()), Done(i))
    {
      StepKeeps(View(), Done(i));
      wg := wg - 1;
      lanes := lanes[i := lanes[i].(phase := Gone)];
    }

    /** close, up to the point where it starts to wait: seals the channels in the
        map one by one, in any order. */
    method BeginClose()
      requires Valid() && !closed
      modifies this
      ensures Valid() && View() == Apply(old(View()), Close)
    {
      ghost var was := View();
      closed := true;
      closer := Waiting;
      SealAll(was);
      StepKeeps(was, Close);
      assert View() == Apply(was, Close);
    }

    method SealAll(ghost was: Hub)
      requires queues == was.queues && lanes == was.lanes
      requires forall s :: s in queues ==> queues[s] < |lanes| && lanes[queues[s]].sender == s
      modifies this`lanes
      ensures lanes == Seal(was)
    {
      var todo := queues.Keys;
      while todo != {}
        invariant todo <= queues.Keys && |lanes| == |was.lanes|
        invariant forall i :: 0 <= i < |lanes| ==> lanes[i] == SealedUnless(was, i, todo)
        decreases |todo|
      {
        var s :| s in todo;
        assert was.lanes[queues[s]].sender == s;
        lanes := lanes[queues[s] := lanes[queues[s]].(sealed := true)];
        todo := todo - {s};
      }
    }

    /** close, once the wait group is at zero: every message taken has been processed
        before the context is cancelled. */
    method EndClose()
      requires Valid() && closer.Waiting? && wg == 0
      modifies this
      ensures Valid() && View() == Apply(Apply(old(View()), WaitReturns), Cancel)
      ensures forall s :: Of(handled, s) == Of(accepted, s)
    {
      ghost var was := View();
      StepKeeps(was, WaitReturns);
      StepKeeps(Apply(was, WaitReturns), Cancel);
      closer := Released;
      forall s ensures Of(handled, s) == Of(accepted, s) {
        assert Conserves(was, s);
        if s in queues {
          TotalAtLeast(lanes, Holds, queues[s]);
          assert LaneOk(was, queues[s]);
          assert InFlight(was, s) == [];
        }
      }
      closer := Cancelled;
    }
  }
}
