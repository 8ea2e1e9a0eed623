/**
 The WebSocket client's outbound side (ws_client.hpp): a bounded queue, one write at a time on a
 strand, and a close that waits for the writes. Reading, connecting and pings are not modelled.
 */
module WsClient {
  import opened OcppModel
  import Metrics

  const TWO_32 := 0x1_0000_0000
  const QUEUE_LIMIT := 1000

  type UInt32 = n: nat | n < TWO_32

  // Unsigned counters wrap around.
  function Inc(x: UInt32): UInt32 {
    if x + 1 == TWO_32 then 0 else x + 1
  }

  function Dec(x: UInt32): UInt32 {
    if x == 0 then TWO_32 - 1 else x - 1
  }

  function Pop(q: seq<Frame>): seq<Frame> {
    if q == [] then [] else q[1..]
  }

  // What tentative_close asks of writes_in_flight_: the code tests != 0, its comment says == 0.
  datatype Guard = AsWritten | AsDocumented

  predicate GuardHolds(g: Guard, inFlight: UInt32) {
    match g
    case AsWritten => inFlight != 0
    case AsDocumented => inFlight == 0
  }

  // Functions posted to the strand and not yet run
  datatype Task = SendTask(m: Frame) | CloseTask | StartCloseTask

  // What was given to send(), taken into the queue, turned away, handed to async_write, and completed
  datatype Log = Log(
    posted: seq<Frame>, accepted: seq<Frame>, refused: seq<Frame>, issued: seq<Frame>, completed: seq<Frame>)

  // The client's own counters and the metrics it reports
  datatype Stats = Stats(
    maxInFlightSampled: UInt32, depth: UInt32, maxDepthSampled: UInt32,
    enqueuedTotal: nat, completedTotal: nat, gauge: Metrics.UInt64,
    maxDepth: Metrics.UInt64, maxInFlight: Metrics.UInt64, closeEvents: nat)

  // The fields, the strand's tasks, and the async writes and closes started and not completed
  datatype State = State(
    queue: seq<Frame>, writing: bool, inFlight: UInt32, closePending: bool, closeStarted: bool,
    tasks: seq<Task>, writes: seq<Frame>, closes: nat, closesDone: nat, log: Log, stats: Stats)

  const NO_LOG := Log([], [], [], [], [])
  const NO_STATS := Stats(0, 0, 0, 0, 0, 0, 0, 0, 0)
  const INITIAL := State([], false, 0, false, false, [], [], 0, 0, NO_LOG, NO_STATS)

  function Max32(a: UInt32, b: UInt32): UInt32 {
    if a < b then b else a
  }

  // transport_on_write_enqueued
  function Enqueued(st: Stats): Stats {
    var d := Inc(st.depth);
    st.(depth := d, maxDepthSampled := Max32(st.maxDepthSampled, d),
        enqueuedTotal := st.enqueuedTotal + 1, gauge := d, maxDepth := Metrics.Max(st.maxDepth, d))
  }

  // transport_observe_writes_in_flight
  function Observed(st: Stats, inFlight: UInt32): Stats {
    st.(maxInFlight := Metrics.Max(st.maxInFlight, inFlight))
  }

  // transport_on_write_completed and the samples taken after it
  function Completed(st: Stats, inFlight: UInt32): Stats {
    var d := Dec(st.depth);
    Observed(st, inFlight).(depth := d, completedTotal := st.completedTotal + 1, gauge := d,
                            maxInFlightSampled := Max32(st.maxInFlightSampled, inFlight))
  }

  function DoWrite(s: State): State {
    if s.queue == [] then s.(writing := false)
    else
      var m, n := s.queue[0], Inc(s.inFlight);
      s.(writing := true, inFlight := n, writes := s.writes + [m],
         log := s.log.(issued := s.log.issued + [m]), stats := Observed(s.stats, n))
  }

  function Refuse(s: State, m: Frame): State {
    s.(log := s.log.(refused := s.log.refused + [m]))
  }

  function Enqueue(s: State, m: Frame): State {
    if s.closePending || |s.queue| > QUEUE_LIMIT then Refuse(s, m)
    else
      var t := s.(queue := s.queue + [m], log := s.log.(accepted := s.log.accepted + [m]), stats := Enqueued(s.stats));
      if t.writing then t else DoWrite(t)
  }

  function TentativeClose(g: Guard, s: State): State {
    if s.closePending && !s.closeStarted && s.queue == [] && !s.writing && GuardHolds(g, s.inFlight) then
      s.(closeStarted := true, tasks := s.tasks + [StartCloseTask])
    else s
  }

  function Popped(s: State): State
    requires s.writes != []
  {
    var n := Dec(s.inFlight);
    s.(queue := Pop(s.queue), writes := s.writes[1..], inFlight := n,
       log := s.log.(completed := s.log.completed + [s.writes[0]]), stats := Completed(s.stats, n))
  }

  // The completion handler of async_write, with or without an error
  function WriteCompleted(g: Guard, s: State): State
    requires s.writes != []
  {
    var t := Popped(s);
    if t.queue != [] then DoWrite(t) else TentativeClose(g, t.(writing := false))
  }

  function RunTask(g: Guard, s: State, task: Task): State {
    match task
    case SendTask(m) => Enqueue(s, m)
    case CloseTask => TentativeClose(g, s.(closePending := true))
    case StartCloseTask => s.(closes := s.closes + 1)
  }

  datatype Event =
    | Send(m: Frame)        // send(): any thread
    | Close                 // close(): any thread
    | Strand                // the strand runs its next task
    | WriteDone             // an async_write completes on the strand
    | CloseDone             // an async_close completes on the strand

  predicate Enabled(s: State, e: Event) {
    match e
    case Send(_) => true
    case Close => true
    case Strand => s.tasks != []
    case WriteDone => s.writes != []
    case CloseDone => s.closesDone < s.closes
  }

  function Step(g: Guard, s: State, e: Event): State
    requires Enabled(s, e)
  {
    match e
    case Send(m) => s.(tasks := s.tasks + [SendTask(m)], log := s.log.(posted := s.log.posted + [m]))
    case Close => s.(tasks := s.tasks + [CloseTask])
    case Strand => RunTask(g, s.(tasks := s.tasks[1..]), s.tasks[0])
    case WriteDone => WriteCompleted(g, s)
    case CloseDone => s.(closesDone := s.closesDone + 1, stats := s.stats.(closeEvents := s.stats.closeEvents + 1))
  }

  ghost predicate Moves(g: Guard, s: State, e: Event, s': State) {
    Enabled(s, e) && s' == Step(g, s, e)
  }

  ghost predicate IsRun(g: Guard, states: seq<State>, events: seq<Event>) {
    && |states| == |events| + 1
    && states[0] == INITIAL
    && forall i {:trigger events[i]} | 0 <= i < |events| :: Moves(g, states[i], events[i], states[i + 1])
  }

  lemma RunMoves(g: Guard, states: seq<State>, events: seq<Event>, i: nat)
    requires IsRun(g, states, events) && i < |events|
    ensures Moves(g, states[i], events[i], states[i + 1])
  {}

  class WsClient {
    const guard: Guard
    const metrics: Metrics.Metrics
    var queue: seq<Frame>
    var writeInProgress: bool
    var writesInFlight: UInt32
    var maxWritesInFlight: UInt32
    var currentDepth: UInt32
    var maxDepth: UInt32
    var closePending: bool
    var closeStarted: bool
    var tasks: seq<Task>
    var writes: seq<Frame>
    var closes: nat
    var closesDone: nat
    var log: Log

    ghost predicate Valid() {
      metrics.Valid()
    }

    ghost function Repr(): set<object> {
      {this} + metrics.Repr()
    }

    ghost function Model(): State
      reads Repr()
    {
      State(queue, writeInProgress, writesInFlight, closePending, closeStarted, tasks, writes, closes, closesDone, log,
            Stats(maxWritesInFlight, currentDepth, maxDepth,
                  metrics.writesEnqueued, metrics.writesCompleted, metrics.writeQueueDepth,
                  metrics.maxDepth.value, metrics.maxInFlight.value, metrics.closeEvents))
    }

    constructor (guard: Guard, metrics: Metrics.Metrics)
      requires metrics.Valid()
      ensures Valid() && this.guard == guard && this.metrics == metrics
      ensures Model() == INITIAL.(stats := Stats(0, 0, 0,
                metrics.writesEnqueued, metrics.writesCompleted, metrics.writeQueueDepth,
                metrics.maxDepth.value, metrics.maxInFlight.value, metrics.closeEvents))
    {
      this.guard, this.metrics := guard, metrics;
      queue, writeInProgress, writesInFlight, maxWritesInFlight := [], false, 0, 0;
      currentDepth, maxDepth, closePending, closeStarted := 0, 0, false, false;
      tasks, writes, closes, closesDone := [], [], 0, 0;
      log := NO_LOG;
    }

    method SendText(m: Frame)
      modifies this`tasks, this`log
      ensures Model() == Step(guard, old(Model()), Send(m))
    {
      tasks := tasks + [SendTask(m)];
      log := log.(posted := log.posted + [m]);
    }

    method CloseSocket()
      modifies this`tasks
      ensures Model() == Step(guard, old(Model()), Close)
    {
      tasks := tasks + [CloseTask];
    }

    // The strand runs its next task.
    method RunNext()
      requires Valid() && tasks != []
      modifies Repr()
      ensures Model() == Step(guard, old(Model()), Strand)
    {
      var task := tasks[0];
      tasks := tasks[1..];
      match task {
        case SendTask(m) => EnqueueText(m);
        case CloseTask =>
          closePending := true;
          TryClose();
        case StartCloseTask => closes := closes + 1;
      }
    }

    method EnqueueText(m: Frame)
      requires Valid()
      modifies Repr()
      ensures Model() == Enqueue(old(Model()), m)
    {
      if closePending {
        log := log.(refused := log.refused + [m]);
        return;
      }
      if |queue| > QUEUE_LIMIT {
        log := log.(refused := log.refused + [m]);
        return;
      }
      queue := queue + [m];
      log := log.(accepted := log.accepted + [m]);
      currentDepth := Inc(currentDepth);
      maxDepth := Max32(maxDepth, currentDepth);
      var _ := metrics.TransportOnWriteEnqueued(currentDepth, []);
      if !writeInProgress {
        WriteFront();
      }
    }

    method WriteFront()
      requires Valid()
      modifies Repr()
      ensures Model() == DoWrite(old(Model()))
    {
      if queue == [] {
        writeInProgress := false;
        return;
      }
      writeInProgress := true;
      writesInFlight := Inc(writesInFlight);
      var _ := metrics.TransportObserveWritesInFlight(writesInFlight, []);
      writes := writes + [queue[0]];
      log := log.(issued := log.issued + [queue[0]]);
    }

    method PopFront()
      requires writes != []
      modifies this`log, this`writes, this`queue, this`writesInFlight
      ensures log == old(log).(completed := old(log).completed + [old(writes)[0]])
      ensures writes == old(writes)[1..] && queue == Pop(old(queue)) && writesInFlight == Dec(old(writesInFlight))
    {
      log := log.(completed := log.completed + [writes[0]]);
      writes := writes[1..];
      queue := Pop(queue);
      writesInFlight := Dec(writesInFlight);
    }

    // The first half of the completion handler of async_write
    method PopWritten()
      requires Valid() && writes != []
      modifies Repr()
      ensures Model() == Popped(old(Model()))
    {
      PopFront();
      currentDepth := Dec(currentDepth);
      metrics.TransportOnWriteCompleted(currentDepth);
      var _ := metrics.TransportObserveWritesInFlight(writesInFlight, []);
      maxWritesInFlight := Max32(maxWritesInFlight, writesInFlight);
    }

    method WriteCompletion()
      requires Valid() && writes != []
      modifies Repr()
      ensures Model() == Step(guard, old(Model()), WriteDone)
    {
      PopWritten();
      if queue != [] {
        WriteFront();
      } else {
        writeInProgress := false;
        TryClose();
      }
    }

    method TryClose()
      modifies this`closeStarted, this`tasks
      ensures Model() == TentativeClose(guard, old(Model()))
    {
      if closePending && !closeStarted {
        if queue == [] && !writeInProgress && GuardHolds(guard, writesInFlight) {
          closeStarted := true;
          tasks := tasks + [StartCloseTask];
        }
      }
    }
  }

  // ------------------------------------------------------------------------------------------
  // The pipeline is a bounded FIFO with one write in flight.
  // ------------------------------------------------------------------------------------------

  // accepted = completed ++ queue; the write in flight, if any, is of the queue's head
  ghost predicate QueueInv(s: State) {
    && s.log.accepted == s.log.completed + s.queue
    && s.log.issued == s.log.completed + s.writes
    && s.writes == (if s.queue == [] then [] else [s.queue[0]])
    && (s.writing <==> s.queue != [])
    && s.inFlight == (if s.queue == [] then 0 else 1)
    && |s.queue| <= 1001
  }

  ghost predicate StatsInv(s: State) {
    var st := s.stats;
    && st.depth == st.gauge == |s.queue|
    && st.enqueuedTotal == |s.log.accepted| && st.completedTotal == |s.log.completed|
    && st.maxInFlight == (if s.log.accepted == [] then 0 else 1)
    && st.maxInFlightSampled == 0
    && st.depth <= st.maxDepth == st.maxDepthSampled <= 1001
    && st.closeEvents == s.closesDone
  }

  lemma QueueEnqueue(s: State, m: Frame)
    requires QueueInv(s)
    ensures QueueInv(Enqueue(s, m))
  {
    if !s.closePending && |s.queue| <= QUEUE_LIMIT {
      assert s.log.accepted + [m] == s.log.completed + (s.queue + [m]);
      assert (s.queue + [m])[0] == if s.queue == [] then m else s.queue[0];
    }
  }

  lemma QueueWriteCompleted(g: Guard, s: State)
    requires QueueInv(s) && s.writes != []
    ensures QueueInv(WriteCompleted(g, s))
  {
    assert s.queue == [s.queue[0]] + s.queue[1..];
    assert s.log.completed + s.queue == (s.log.completed + [s.queue[0]]) + s.queue[1..];
  }

  lemma QueueStep(g: Guard, s: State, e: Event)
    requires QueueInv(s) && Enabled(s, e)
    ensures QueueInv(Step(g, s, e))
  {
    match e
    case Strand =>
      if s.tasks[0].SendTask? {
        QueueEnqueue(s.(tasks := s.tasks[1..]), s.tasks[0].m);
      }
    case WriteDone => QueueWriteCompleted(g, s);
    case _ =>
  }

  lemma StatsEnqueue(s: State, m: Frame)
    requires QueueInv(s) && StatsInv(s)
    ensures StatsInv(Enqueue(s, m))
  {}

  lemma StatsWriteCompleted(g: Guard, s: State)
    requires QueueInv(s) && StatsInv(s) && s.writes != []
    ensures StatsInv(WriteCompleted(g, s))
  {}

  lemma StatsTentativeClose(g: Guard, s: State)
    requires StatsInv(s)
    ensures StatsInv(TentativeClose(g, s))
  {}

  lemma StatsTask(g: Guard, s: State)
    requires QueueInv(s) && StatsInv(s) && s.tasks != []
    ensures StatsInv(Step(g, s, Strand))
  {
    var t := s.(tasks := s.tasks[1..]);
    match s.tasks[0]
    case SendTask(m) => StatsEnqueue(t, m);
    case CloseTask => StatsTentativeClose(g, t.(closePending := true));
    case StartCloseTask =>
  }

  lemma StatsStep(g: Guard, s: State, e: Event)
    requires QueueInv(s) && StatsInv(s) && Enabled(s, e)
    ensures StatsInv(Step(g, s, e))
  {
    match e
    case Strand => StatsTask(g, s);
    case WriteDone => StatsWriteCompleted(g, s);
    case _ =>
  }

  /**
   In every reachable state: accepted = completed ++ queue; the writes issued are a prefix of accepted,
   one beyond completed exactly when the queue is nonempty; the in-flight count never exceeds one; the queue
   never exceeds 1001; enqueued - completed = current depth = queue length. The counters therefore never wrap.
   Also: transport_max_writes_in_flight() is always 0, because it is sampled after the decrement.
   */
  lemma {:induction false} PipelineIsBoundedFifo(g: Guard, states: seq<State>, events: seq<Event>, n: nat)
    requires IsRun(g, states, events) && n < |states|
    ensures QueueInv(states[n]) && StatsInv(states[n])
  {
    if n > 0 {
      var i := n - 1;
      PipelineIsBoundedFifo(g, states, events, i);
      RunMoves(g, states, events, i);
      QueueStep(g, states[i], events[i]);
      StatsStep(g, states[i], events[i]);
    }
  }

  // No queue up to n was longer than this, and one was as long.
  ghost predicate IsLongest(states: seq<State>, n: nat, depth: nat)
    requires n < |states|
  {
    && (forall m | 0 <= m <= n :: |states[m].queue| <= depth)
    && exists m :: 0 <= m <= n && |states[m].queue| == depth
  }

  lemma DepthStep(g: Guard, s: State, e: Event)
    requires QueueInv(s) && StatsInv(s) && Enabled(s, e)
    ensures var t := Step(g, s, e);
            t.stats.maxDepth == if |t.queue| > s.stats.maxDepth then |t.queue| else s.stats.maxDepth
  {
    match e
    case Strand => DepthTask(g, s);
    case WriteDone => assert WriteCompleted(g, s).stats.maxDepth == s.stats.maxDepth;
    case _ =>
  }

  lemma DepthTask(g: Guard, s: State)
    requires QueueInv(s) && StatsInv(s) && s.tasks != []
    ensures var t := Step(g, s, Strand);
            t.stats.maxDepth == if |t.queue| > s.stats.maxDepth then |t.queue| else s.stats.maxDepth
  {
    if s.tasks[0].SendTask? {
      DepthEnqueue(s.(tasks := s.tasks[1..]), s.tasks[0].m);
    }
  }

  lemma DepthEnqueue(s: State, m: Frame)
    requires QueueInv(s) && StatsInv(s)
    ensures var t := Enqueue(s, m);
            t.stats.maxDepth == if |t.queue| > s.stats.maxDepth then |t.queue| else s.stats.maxDepth
  {}

  /** The maximum depth reported is the length of the longest queue there has been. */
  lemma {:induction false} MaxDepthIsLongest(g: Guard, states: seq<State>, events: seq<Event>, n: nat)
    requires IsRun(g, states, events) && n < |states|
    ensures IsLongest(states, n, states[n].stats.maxDepth)
  {
    if n == 0 {
      assert |states[0].queue| == 0;
    } else {
      var i := n - 1;
      MaxDepthIsLongest(g, states, events, i);
      PipelineIsBoundedFifo(g, states, events, i);
      RunMoves(g, states, events, i);
      DepthStep(g, states[i], events[i]);
      LongestGrows(states, i, states[i].stats.maxDepth);
    }
  }

  lemma LongestGrows(states: seq<State>, i: nat, depth: nat)
    requires i + 1 < |states| && IsLongest(states, i, depth)
    ensures IsLongest(states, i + 1, if |states[i + 1].queue| > depth then |states[i + 1].queue| else depth)
  {
    var m :| 0 <= m <= i && |states[m].queue| == depth;
    assert |states[i + 1].queue| > depth || |states[m].queue| == depth;
  }

  // The specification the pipeline refines: a queue that takes at most 1001 items until it is shut.
  datatype Fifo = Fifo(items: seq<Frame>, delivered: seq<Frame>, shut: bool)
  datatype FifoOp = Offer(m: Frame) | Take | Shut | Stutter

  function FifoStep(q: Fifo, op: FifoOp): Fifo {
    match op
    case Offer(m) => if q.shut || |q.items| == 1001 then q else q.(items := q.items + [m])
    case Take => if q.items == [] then q else q.(items := q.items[1..], delivered := q.delivered + [q.items[0]])
    case Shut => q.(shut := true)
    case Stutter => q
  }

  function Abstract(s: State): Fifo {
    Fifo(s.queue, s.log.completed, s.closePending)
  }

  function Operation(s: State, e: Event): FifoOp {
    match e
    case Strand =>
      if s.tasks == [] then Stutter
      else (match s.tasks[0]
            case SendTask(m) => Offer(m)
            case CloseTask => Shut
            case StartCloseTask => Stutter)
    case WriteDone => Take
    case _ => Stutter
  }

  lemma RefineStep(g: Guard, s: State, e: Event)
    requires QueueInv(s) && Enabled(s, e)
    ensures Abstract(Step(g, s, e)) == FifoStep(Abstract(s), Operation(s, e))
  {}

  /** Every step of the pipeline is one step of the bounded FIFO, or none. */
  lemma RefinesFifo(g: Guard, states: seq<State>, events: seq<Event>, n: nat)
    requires IsRun(g, states, events) && n < |events|
    ensures Abstract(states[n + 1]) == FifoStep(Abstract(states[n]), Operation(states[n], events[n]))
  {
    PipelineIsBoundedFifo(g, states, events, n);
    RunMoves(g, states, events, n);
    RefineStep(g, states[n], events[n]);
  }

  // ------------------------------------------------------------------------------------------
  // Nothing is written twice.
  // ------------------------------------------------------------------------------------------

  function SendsIn(tasks: seq<Task>): multiset<Frame> {
    if tasks == [] then multiset{} else OneSend(tasks[0]) + SendsIn(tasks[1..])
  }

  function OneSend(task: Task): multiset<Frame> {
    if task.SendTask? then multiset{task.m} else multiset{}
  }

  lemma {:induction false} SendsInAppend(tasks: seq<Task>, task: Task)
    ensures SendsIn(tasks + [task]) == SendsIn(tasks) + OneSend(task)
  {
    var both := tasks + [task];
    if tasks == [] {
      assert both[1..] == [];
    } else {
      assert both[0] == tasks[0] && both[1..] == tasks[1..] + [task];
      SendsInAppend(tasks[1..], task);
    }
  }

  // Every message given to send() is still on the strand, was accepted, or was refused: exactly one of these.
  ghost predicate Conserved(s: State) {
    Conserves(s, SendsIn(s.tasks))
  }

  ghost predicate Conserves(s: State, waiting: multiset<Frame>) {
    multiset(s.log.posted) == multiset(s.log.accepted) + multiset(s.log.refused) + waiting
  }

  lemma ConservedEnqueue(s: State, m: Frame)
    requires Conserves(s, SendsIn(s.tasks) + multiset{m})
    ensures Conserved(Enqueue(s, m))
  {
    var t := Enqueue(s, m);
    assert t.tasks == s.tasks && t.log.posted == s.log.posted;
    if s.closePending || |s.queue| > QUEUE_LIMIT {
      assert t.log.accepted == s.log.accepted && t.log.refused == s.log.refused + [m];
    } else {
      assert t.log.accepted == s.log.accepted + [m] && t.log.refused == s.log.refused;
    }
  }

  lemma ConservedTentativeClose(g: Guard, s: State)
    requires Conserved(s)
    ensures Conserved(TentativeClose(g, s))
  {
    SendsInAppend(s.tasks, StartCloseTask);
  }

  lemma ConservedWriteCompleted(g: Guard, s: State)
    requires Conserved(s) && s.writes != []
    ensures Conserved(WriteCompleted(g, s))
  {
    ConservedTentativeClose(g, Popped(s).(writing := false));
  }

  // The strand takes up a message that was sent, or another task, which sends none.
  lemma ConservedTakesUp(s: State)
    requires Conserved(s) && s.tasks != []
    ensures Conserves(s, SendsIn(s.tasks[1..]) + OneSend(s.tasks[0]))
  {}

  lemma ConservedTask(g: Guard, s: State)
    requires Conserved(s) && s.tasks != []
    ensures Conserved(RunTask(g, s.(tasks := s.tasks[1..]), s.tasks[0]))
  {
    ConservedTakesUp(s);
    ConservedRuns(g, s.(tasks := s.tasks[1..]), s.tasks[0]);
  }

  lemma ConservedRuns(g: Guard, s: State, task: Task)
    requires Conserves(s, SendsIn(s.tasks) + OneSend(task))
    ensures Conserved(RunTask(g, s, task))
  {
    match task
    case SendTask(m) => ConservedEnqueue(s, m);
    case CloseTask => ConservedTentativeClose(g, s.(closePending := true));
    case StartCloseTask => assert Conserved(s);
  }

  lemma ConservedStep(g: Guard, s: State, e: Event)
    requires Conserved(s) && Enabled(s, e)
    ensures Conserved(Step(g, s, e))
  {
    match e
    case Send(m) =>
      SendsInAppend(s.tasks, SendTask(m));
      assert multiset(s.log.posted + [m]) == multiset(s.log.posted) + multiset{m};
    case Close => SendsInAppend(s.tasks, CloseTask);
    case Strand => ConservedTask(g, s);
    case WriteDone => ConservedWriteCompleted(g, s);
    case CloseDone =>
  }

  lemma {:induction false} NothingLostOrInvented(g: Guard, states: seq<State>, events: seq<Event>, n: nat)
    requires IsRun(g, states, events) && n < |states|
    ensures Conserved(states[n])
  {
    if n > 0 {
      var i := n - 1;
      NothingLostOrInvented(g, states, events, i);
      RunMoves(g, states, events, i);
      ConservedStep(g, states[i], events[i]);
    }
  }

  lemma IssuedArePosted(s: State)
    requires Conserved(s) && QueueInv(s) && DistinctIds(s.log.posted)
    ensures DistinctIds(s.log.accepted) && DistinctIds(s.log.issued)
    ensures forall f | f in s.log.issued :: f in s.log.posted
  {
    PartIsDistinct(s.log.posted, s.log.accepted);
    assert s.log.issued == s.log.accepted[..|s.log.issued|];
  }

  /** If the messages given to send() have distinct ids, no id is accepted or issued twice. */
  lemma WrittenAtMostOnce(g: Guard, states: seq<State>, events: seq<Event>, n: nat)
    requires IsRun(g, states, events) && n < |states| && DistinctIds(states[n].log.posted)
    ensures DistinctIds(states[n].log.accepted) && DistinctIds(states[n].log.issued)
    ensures forall f | f in states[n].log.issued :: f in states[n].log.posted
  {
    NothingLostOrInvented(g, states, events, n);
    PipelineIsBoundedFifo(g, states, events, n);
    IssuedArePosted(states[n]);
  }

  // ------------------------------------------------------------------------------------------
  // In the order they were sent.
  // ------------------------------------------------------------------------------------------

  // xs is ys with some messages left out.
  predicate InOrder(xs: seq<Frame>, ys: seq<Frame>) {
    if xs == [] then true
    else if ys == [] then false
    else
      || (xs[|xs| - 1] == ys[|ys| - 1] && InOrder(xs[..|xs| - 1], ys[..|ys| - 1]))
      || InOrder(xs, ys[..|ys| - 1])
  }

  lemma {:induction false} InOrderWithout(a: seq<Frame>, m: Frame, b: seq<Frame>, ys: seq<Frame>)
    requires InOrder(a + [m] + b, ys)
    ensures InOrder(a + b, ys)
    decreases |ys|
  {
    var xs, init := a + [m] + b, ys[..|ys| - 1];
    if b == [] {
      assert a + b == a && xs[..|xs| - 1] == a;
      if InOrder(xs, init) {
        InOrderWithout(a, m, b, init);
      }
    } else {
      var k := |b| - 1;
      assert xs[..|xs| - 1] == a + [m] + b[..k];
      assert (a + b)[..|a + b| - 1] == a + b[..k];
      if InOrder(xs, init) {
        InOrderWithout(a, m, b, init);
      } else {
        InOrderWithout(a, m, b[..k], init);
      }
    }
  }

  lemma {:induction false} PrefixInOrder(a: seq<Frame>, b: seq<Frame>, ys: seq<Frame>)
    requires InOrder(a + b, ys)
    ensures InOrder(a, ys)
    decreases |b|
  {
    if b == [] {
      assert a + b == a;
    } else {
      assert a + [b[0]] + b[1..] == a + b;
      InOrderWithout(a, b[0], b[1..], ys);
      PrefixInOrder(a, b[1..], ys);
    }
  }

  // The messages still on the strand
  function Waiting(tasks: seq<Task>): seq<Frame> {
    if tasks == [] then [] else WaitingIn(tasks[0]) + Waiting(tasks[1..])
  }

  function WaitingIn(task: Task): seq<Frame> {
    if task.SendTask? then [task.m] else []
  }

  lemma Reassociate(a: seq<Frame>, b: seq<Frame>, c: seq<Frame>)
    ensures a + b + c == a + (b + c)
  {}

  lemma {:induction false} WaitingAppend(tasks: seq<Task>, task: Task)
    ensures Waiting(tasks + [task]) == Waiting(tasks) + WaitingIn(task)
  {
    var both := tasks + [task];
    if tasks == [] {
      assert both[1..] == [];
    } else {
      assert both[0] == tasks[0] && both[1..] == tasks[1..] + [task];
      WaitingAppend(tasks[1..], task);
      Reassociate(WaitingIn(tasks[0]), Waiting(tasks[1..]), WaitingIn(task));
    }
  }

  lemma OtherTask(tasks: seq<Task>, task: Task)
    requires !task.SendTask?
    ensures Waiting(tasks + [task]) == Waiting(tasks)
  {
    WaitingAppend(tasks, task);
  }

  ghost predicate Ordered(s: State) {
    InOrder(s.log.accepted + Waiting(s.tasks), s.log.posted)
  }

  lemma InOrderOneMore(xs: seq<Frame>, ys: seq<Frame>, m: Frame)
    requires InOrder(xs, ys)
    ensures InOrder(xs + [m], ys + [m])
  {
    assert (xs + [m])[..|xs|] == xs && (ys + [m])[..|ys|] == ys;
  }

  lemma SentInOrder(accepted: seq<Frame>, tasks: seq<Task>, posted: seq<Frame>, m: Frame)
    requires InOrder(accepted + Waiting(tasks), posted)
    ensures InOrder(accepted + Waiting(tasks + [SendTask(m)]), posted + [m])
  {
    WaitingAppend(tasks, SendTask(m));
    Reassociate(accepted, Waiting(tasks), [m]);
    InOrderOneMore(accepted + Waiting(tasks), posted, m);
  }

  lemma OrderedSend(s: State, m: Frame)
    requires Ordered(s)
    ensures Ordered(s.(tasks := s.tasks + [SendTask(m)], log := s.log.(posted := s.log.posted + [m])))
  {
    SentInOrder(s.log.accepted, s.tasks, s.log.posted, m);
  }

  lemma OrderedEnqueue(s: State, m: Frame)
    requires InOrder(s.log.accepted + [m] + Waiting(s.tasks), s.log.posted)
    ensures Ordered(Enqueue(s, m))
  {
    InOrderWithout(s.log.accepted, m, Waiting(s.tasks), s.log.posted);
    assert Enqueue(s, m).tasks == s.tasks && Enqueue(s, m).log.posted == s.log.posted;
  }

  lemma OrderedTentativeClose(g: Guard, s: State)
    requires Ordered(s)
    ensures Ordered(TentativeClose(g, s))
  {
    OtherTask(s.tasks, StartCloseTask);
  }

  lemma OrderedTask(g: Guard, s: State)
    requires Ordered(s) && s.tasks != []
    ensures Ordered(RunTask(g, s.(tasks := s.tasks[1..]), s.tasks[0]))
  {
    var t := s.(tasks := s.tasks[1..]);
    match s.tasks[0]
    case SendTask(m) =>
      assert s.log.accepted + Waiting(s.tasks) == s.log.accepted + [m] + Waiting(t.tasks);
      OrderedEnqueue(t, m);
    case CloseTask =>
      assert Waiting(s.tasks) == Waiting(t.tasks);
      OrderedTentativeClose(g, t.(closePending := true));
    case StartCloseTask => assert Waiting(s.tasks) == Waiting(t.tasks);
  }

  lemma OrderedWriteCompleted(g: Guard, s: State)
    requires Ordered(s) && s.writes != []
    ensures Ordered(WriteCompleted(g, s))
  {
    OrderedTentativeClose(g, Popped(s).(writing := false));
  }

  lemma OrderedStep(g: Guard, s: State, e: Event)
    requires Ordered(s) && Enabled(s, e)
    ensures Ordered(Step(g, s, e))
  {
    match e
    case Send(m) => OrderedSend(s, m);
    case Close => OtherTask(s.tasks, CloseTask);
    case Strand => OrderedTask(g, s);
    case WriteDone => OrderedWriteCompleted(g, s);
    case CloseDone =>
  }

  lemma {:induction false} StaysOrdered(g: Guard, states: seq<State>, events: seq<Event>, n: nat)
    requires IsRun(g, states, events) && n < |states|
    ensures Ordered(states[n])
  {
    if n > 0 {
      var i := n - 1;
      StaysOrdered(g, states, events, i);
      RunMoves(g, states, events, i);
      OrderedStep(g, states[i], events[i]);
    }
  }

  /** Messages are accepted and written in the order in which they were given to send(), some of them left out. */
  lemma WrittenInOrder(g: Guard, states: seq<State>, events: seq<Event>, n: nat)
    requires IsRun(g, states, events) && n < |states|
    ensures InOrder(states[n].log.accepted, states[n].log.posted)
    ensures InOrder(states[n].log.issued, states[n].log.posted)
  {
    var s := states[n];
    StaysOrdered(g, states, events, n);
    PipelineIsBoundedFifo(g, states, events, n);
    PrefixInOrder(s.log.accepted, Waiting(s.tasks), s.log.posted);
    var k := |s.log.issued|;
    assert s.log.accepted == s.log.issued + s.log.accepted[k..];
    PrefixInOrder(s.log.issued, s.log.accepted[k..], s.log.posted);
  }

  // ------------------------------------------------------------------------------------------
  // Closing.
  // ------------------------------------------------------------------------------------------

  function StartCloses(tasks: seq<Task>): nat {
    if tasks == [] then 0 else (if tasks[0].StartCloseTask? then 1 else 0) + StartCloses(tasks[1..])
  }

  lemma {:induction false} StartClosesAppend(tasks: seq<Task>, task: Task)
    ensures StartCloses(tasks + [task]) == StartCloses(tasks) + (if task.StartCloseTask? then 1 else 0)
  {
    if tasks != [] {
      assert (tasks + [task])[1..] == tasks[1..] + [task];
      StartClosesAppend(tasks[1..], task);
    }
  }

  // A close is started at most once. Under the documented guard it starts exactly when a close was asked for
  // and the pipeline is idle; under the guard as written, never.
  ghost predicate CloseInv(g: Guard, s: State) {
    && s.closes + StartCloses(s.tasks) == (if s.closeStarted then 1 else 0)
    && (s.closeStarted <==> g == AsDocumented && s.closePending && s.queue == [])
  }

  lemma CloseTaskRuns(g: Guard, s: State)
    requires QueueInv(s) && CloseInv(g, s) && s.tasks != []
    ensures CloseInv(g, Step(g, s, Strand))
  {
    StartClosesAppend(s.tasks[1..], StartCloseTask);
  }

  lemma CloseStep(g: Guard, s: State, e: Event)
    requires QueueInv(s) && CloseInv(g, s) && Enabled(s, e)
    ensures CloseInv(g, Step(g, s, e))
  {
    match e
    case Send(m) => StartClosesAppend(s.tasks, SendTask(m));
    case Close => StartClosesAppend(s.tasks, CloseTask);
    case Strand => CloseTaskRuns(g, s);
    case WriteDone => StartClosesAppend(s.tasks, StartCloseTask);
    case CloseDone =>
  }

  /**
   Both readings of the close guard, decided. In every reachable state an empty queue means no write in flight,
   so the guard as documented starts the close exactly when it is pending and the pipeline idle, and the guard as
   written never does. In either reading at most one close starts, and never while a write is outstanding.
   */
  lemma {:induction false} CloseStartsExactlyWhen(g: Guard, states: seq<State>, events: seq<Event>, n: nat)
    requires IsRun(g, states, events) && n < |states|
    ensures QueueInv(states[n]) && CloseInv(g, states[n])
    ensures states[n].queue == [] ==> states[n].inFlight == 0
    ensures g == AsWritten ==> !states[n].closeStarted && states[n].closes == 0
    ensures states[n].closes <= 1
    ensures states[n].closes > 0 ==> states[n].writes == [] && states[n].queue == []
  {
    PipelineIsBoundedFifo(g, states, events, n);
    if n > 0 {
      var i := n - 1;
      CloseStartsExactlyWhen(g, states, events, i);
      RunMoves(g, states, events, i);
      CloseStep(g, states[i], events[i]);
    }
  }

  function Completions(events: seq<Event>, m: nat, n: nat): nat
    requires m <= n <= |events|
    decreases n
  {
    if m == n then 0 else Completions(events, m, n - 1) + (if events[n - 1].WriteDone? then 1 else 0)
  }

  lemma PendingCloseStep(g: Guard, s: State, e: Event)
    requires QueueInv(s) && Enabled(s, e) && s.closePending
    ensures var t := Step(g, s, e);
            && t.closePending && t.log.accepted == s.log.accepted
            && t.queue == (if e.WriteDone? then s.queue[1..] else s.queue)
  {
    match e
    case Strand => assert s.tasks[0].SendTask? ==> Step(g, s, e).log.accepted == s.log.accepted;
    case WriteDone => assert Popped(s).queue == s.queue[1..];
    case _ =>
  }

  lemma DropOneMore(q: seq<Frame>, k: nat)
    requires k < |q|
    ensures q[k..][1..] == q[k + 1..]
  {}

  lemma ShortensOnce(g: Guard, s: State, e: Event, t: State, q: seq<Frame>, k: nat)
    requires QueueInv(s) && Moves(g, s, e, t) && s.closePending && k <= |q| && s.queue == q[k..]
    ensures t.closePending && t.log.accepted == s.log.accepted && (e.WriteDone? ==> k < |q|)
    ensures t.queue == if e.WriteDone? then q[k + 1..] else q[k..]
  {
    PendingCloseStep(g, s, e);
    if e.WriteDone? {
      DropOneMore(q, k);
    }
  }

  // From m on the queue only loses its head, once per completion.
  lemma {:induction false} PendingCloseShortens(g: Guard, states: seq<State>, events: seq<Event>, m: nat, n: nat)
    requires IsRun(g, states, events) && m <= n < |states| && states[m].closePending
    ensures states[n].closePending && states[n].log.accepted == states[m].log.accepted
    ensures Completions(events, m, n) <= |states[m].queue|
    ensures states[n].queue == states[m].queue[Completions(events, m, n)..]
    decreases n
  {
    if m < n {
      var i := n - 1;
      PendingCloseShortens(g, states, events, m, i);
      PipelineIsBoundedFifo(g, states, events, i);
      RunMoves(g, states, events, i);
      ShortensOnce(g, states[i], events[i], states[i + 1], states[m].queue, Completions(events, m, i));
    }
  }

  /**
   Once a close is pending no message joins the queue: each completion shortens it by one and nothing else
   changes it, so the pipeline is idle after exactly as many completions as there were messages.
   */
  lemma PendingCloseDrains(g: Guard, states: seq<State>, events: seq<Event>, m: nat, n: nat)
    requires IsRun(g, states, events) && m <= n < |states| && states[m].closePending
    ensures Completions(events, m, n) <= |states[m].queue|
    ensures states[n].queue == states[m].queue[Completions(events, m, n)..]
    ensures states[n].queue == [] && states[n].writes == [] <==> Completions(events, m, n) == |states[m].queue|
    ensures states[n].log.accepted == states[m].log.accepted
  {
    PendingCloseShortens(g, states, events, m, n);
    PipelineIsBoundedFifo(g, states, events, n);
  }
}
