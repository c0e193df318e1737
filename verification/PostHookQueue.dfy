/** The per-release post-hook queues as a system of interleaved atomic steps.

    Producers run enqueueReleasePostHook and one consumer goroutine per queue object runs
    runReleasePostHookQueue. A step is one critical section of the shared mutex, one
    channel operation, or one evaluation of a conjunct of the reap test, which is spread
    over three steps because the channel length is read while senders, who do not hold
    the mutex, may still be sending. */
module PostHookQueue {
  import opened Folds

  type Key = string

  const CAPACITY: nat := 128

  /** A task carries the producer that enqueues it, so that program order can be stated. */
  datatype Task = Task(producer: nat, serial: int)

  datatype Consumer =
    | Select                  // blocked in select on the channel and the idle timer
    | Running(task: Task)     // executing a received task
    | IdleFired               // the timer fired; waiting for the mutex
    | CheckLength             // holds the mutex, found itself registered
    | CheckPending            // holds the mutex, read length 0
    | Exited

  datatype Queue = Queue(key: Key, tasks: seq<Task>, pending: int, consumer: Consumer)

  datatype Producer =
    | Idle
    | Reserved(key: Key, queue: nat, task: Task)  // pending was incremented, send not done
    | Sent(queue: nat)                            // send done, pending not yet decremented

  datatype Mutex = Free | HeldBy(queue: nat)

  /** What an observer of the run can record. */
  datatype Kind = Enqueue | Send | Start | Finish
  datatype Event = Event(kind: Kind, key: Key, task: Task)

  datatype State = State(
    registry: map<Key, nat>,
    queues: seq<Queue>,
    producers: seq<Producer>,
    mutex: Mutex,
    log: seq<Event>)

  datatype Step =
    | Reserve(p: nat, key: Key, task: Task)
    | SendTask(p: nat)
    | Release(p: nat)
    | Receive(q: nat)
    | FinishTask(q: nat)
    | FireIdle(q: nat)
    | LockIdle(q: nat)
    | ReadLength(q: nat)
    | ReadPending(q: nat)

  function Initial(producers: nat): State {
    State(map[], [], seq(producers, _ => Idle), Free, [])
  }

  predicate Enabled(s: State, step: Step) {
    match step
    case Reserve(p, key, task) => p < |s.producers| && s.producers[p].Idle? && s.mutex.Free? && task.producer == p
                                  && (key in s.registry ==> s.registry[key] < |s.queues|)
    case SendTask(p) => p < |s.producers| && s.producers[p].Reserved? && s.producers[p].queue < |s.queues|
                        && |s.queues[s.producers[p].queue].tasks| < CAPACITY
    case Release(p) => p < |s.producers| && s.producers[p].Sent? && s.mutex.Free?
                       && s.producers[p].queue < |s.queues|
    case Receive(q) => q < |s.queues| && s.queues[q].consumer.Select? && s.queues[q].tasks != []
    case FinishTask(q) => q < |s.queues| && s.queues[q].consumer.Running?
    case FireIdle(q) => q < |s.queues| && s.queues[q].consumer.Select?
    case LockIdle(q) => q < |s.queues| && s.queues[q].consumer.IdleFired? && s.mutex.Free?
    case ReadLength(q) => q < |s.queues| && s.queues[q].consumer.CheckLength?
    case ReadPending(q) => q < |s.queues| && s.queues[q].consumer.CheckPending?
  }

  function WithQueue(s: State, q: nat, queue: Queue): State
    requires q < |s.queues|
  {
    s.(queues := s.queues[q := queue])
  }

  function WithConsumer(s: State, q: nat, c: Consumer): State
    requires q < |s.queues|
  {
    WithQueue(s, q, s.queues[q].(consumer := c))
  }

  /** The critical section that finds or creates the queue and takes a pending slot. */
  function ApplyReserve(s: State, p: nat, key: Key, task: Task): State
    requires Enabled(s, Reserve(p, key, task))
  {
    var created := key !in s.registry;
    var queues := if created then s.queues + [Queue(key, [], 0, Select)] else s.queues;
    var q := if created then |s.queues| else s.registry[key];
    s.(registry := s.registry[key := q],
    queues := queues[q := queues[q].(pending := queues[q].pending + 1)],
    producers := s.producers[p := Reserved(key, q, task)],
    log := s.log + [Event(Enqueue, key, task)])
  }

  function ApplySend(s: State, p: nat): State
    requires Enabled(s, SendTask(p))
  {
    var Reserved(key, q, task) := s.producers[p];
    WithQueue(s, q, s.queues[q].(tasks := s.queues[q].tasks + [task]))
    .(producers := s.producers[p := Sent(q)], log := s.log + [Event(Send, key, task)])
  }

  function ApplyRelease(s: State, p: nat): State
    requires Enabled(s, Release(p))
  {
    var q := s.producers[p].queue;
    WithQueue(s, q, s.queues[q].(pending := s.queues[q].pending - 1))
    .(producers := s.producers[p := Idle])
  }

  function ApplyReceive(s: State, q: nat): State
    requires Enabled(s, Receive(q))
  {
    var queue := s.queues[q];
    WithQueue(s, q, queue.(tasks := queue.tasks[1..], consumer := Running(queue.tasks[0])))
    .(log := s.log + [Event(Start, queue.key, queue.tasks[0])])
  }

  function ApplyFinish(s: State, q: nat): State
    requires Enabled(s, FinishTask(q))
  {
    WithConsumer(s, q, Select)
    .(log := s.log + [Event(Finish, s.queues[q].key, s.queues[q].consumer.task)])
  }

  /** First conjunct of the reap test; failing it unlocks and re-arms the timer. */
  function ApplyLockIdle(s: State, q: nat): State
    requires Enabled(s, LockIdle(q))
  {
    var key := s.queues[q].key;
    if key in s.registry && s.registry[key] == q
    then WithConsumer(s, q, CheckLength).(mutex := HeldBy(q))
    else WithConsumer(s, q, Select)
  }

  function ApplyReadLength(s: State, q: nat): State
    requires Enabled(s, ReadLength(q))
  {
    if s.queues[q].tasks == []
    then WithConsumer(s, q, CheckPending)
    else WithConsumer(s, q, Select).(mutex := Free)
  }

  function ApplyReadPending(s: State, q: nat): State
    requires Enabled(s, ReadPending(q))
  {
    if s.queues[q].pending == 0
    then WithConsumer(s, q, Exited).(mutex := Free, registry := s.registry - {s.queues[q].key})
    else WithConsumer(s, q, Select).(mutex := Free)
  }

  function Apply(s: State, step: Step): State
    requires Enabled(s, step)
  {
    match step
    case Reserve(p, key, task) => ApplyReserve(s, p, key, task)
    case SendTask(p) => ApplySend(s, p)
    case Release(p) => ApplyRelease(s, p)
    case Receive(q) => ApplyReceive(s, q)
    case FinishTask(q) => ApplyFinish(s, q)
    case FireIdle(q) => WithConsumer(s, q, IdleFired)
    case LockIdle(q) => ApplyLockIdle(s, q)
    case ReadLength(q) => ApplyReadLength(s, q)
    case ReadPending(q) => ApplyReadPending(s, q)
  }

  /** A schedule is legal when every step is enabled where it is taken. */
  predicate Legal(s: State, steps: seq<Step>)
    decreases |steps|
  {
    steps == [] || (Enabled(s, steps[0]) && Legal(Apply(s, steps[0]), steps[1..]))
  }

  function Run(s: State, steps: seq<Step>): State
    requires Legal(s, steps)
    decreases |steps|
  {
    if steps == [] then s else Run(Apply(s, steps[0]), steps[1..])
  }

  // ---------- Observations ----------

  /** The tasks of one kind of event at one directory, in the order they happened. */
  function On(log: seq<Event>, kind: Kind, key: Key): seq<Task> {
    if log == [] then []
    else
      var before := On(log[..|log| - 1], kind, key);
      var e := log[|log| - 1];
      if e.kind == kind && e.key == key then before + [e.task] else before
  }

  /** The tasks of one producer, in order. */
  function By(tasks: seq<Task>, p: nat): seq<Task> {
    if tasks == [] then []
    else
      var before := By(tasks[..|tasks| - 1], p);
      var t := tasks[|tasks| - 1];
      if t.producer == p then before + [t] else before
  }

  function Executing(c: Consumer): seq<Task> {
    if c.Running? then [c.task] else []
  }

  function RunningAt(s: State, key: Key): seq<Task> {
    if key in s.registry && s.registry[key] < |s.queues| then Executing(s.queues[s.registry[key]].consumer) else []
  }

  function QueuedAt(s: State, key: Key): seq<Task> {
    if key in s.registry && s.registry[key] < |s.queues| then s.queues[s.registry[key]].tasks else []
  }

  function HeldOne(p: Producer, key: Key): seq<Task> {
    if p.Reserved? && p.key == key then [p.task] else []
  }

  function HeldFor(key: Key): Producer -> multiset<Task> {
    (p: Producer) => multiset(HeldOne(p, key))
  }

  /** The tasks enqueued for a directory whose send has not completed. */
  function HeldAt(s: State, key: Key): multiset<Task> {
    Union(s.producers, HeldFor(key))
  }

  /** How much a producer adds to the pending count of queue q. */
  function TicketFor(q: nat): Producer -> nat {
    (p: Producer) => if !p.Idle? && p.queue == q then 1 else 0
  }

  // ---------- Invariant ----------

  predicate Registered(s: State, q: nat)
    requires q < |s.queues|
  {
    s.queues[q].key in s.registry && s.registry[s.queues[q].key] == q
  }

  predicate KeyOk(s: State, k: Key) {
    k in s.registry ==> s.registry[k] < |s.queues| && s.queues[s.registry[k]].key == k
  }

  predicate InMutex(c: Consumer) {
    c.CheckLength? || c.CheckPending?
  }

  predicate QueueOk(s: State, q: nat)
    requires q < |s.queues|
  {
    var queue := s.queues[q];
    && (!queue.consumer.Exited? <==> Registered(s, q))
    && |queue.tasks| <= CAPACITY
    && queue.pending == Sum(s.producers, TicketFor(q))
    && (InMutex(queue.consumer) <==> s.mutex == HeldBy(q))
    && (queue.consumer.Exited? ==> queue.tasks == [] && queue.pending == 0)
    && (queue.consumer.CheckPending? ==> queue.tasks == [] || queue.pending > 0)
  }

  predicate ProducerOk(s: State, p: nat)
    requires p < |s.producers|
  {
    var producer := s.producers[p];
    && (!producer.Idle? ==> producer.queue < |s.queues|)
    && (producer.Reserved? ==> producer.task.producer == p && s.queues[producer.queue].key == producer.key)
  }

  predicate MutexOk(s: State) {
    s.mutex.HeldBy? ==> s.mutex.queue < |s.queues|
  }

  ghost predicate Structure(s: State) {
    && MutexOk(s)
    && (forall k: Key :: KeyOk(s, k))
    && (forall q: nat :: q < |s.queues| ==> QueueOk(s, q))
    && (forall p: nat :: p < |s.producers| ==> ProducerOk(s, p))
  }

  ghost predicate OrderOk(s: State) {
    forall k: Key :: FifoAt(s, k) && BalanceAt(s, k)
  }

  predicate FifoAt(s: State, k: Key) {
    && On(s.log, Send, k) == On(s.log, Start, k) + QueuedAt(s, k)
    && On(s.log, Start, k) == On(s.log, Finish, k) + RunningAt(s, k)
  }

  predicate BalanceAt(s: State, k: Key) {
    multiset(On(s.log, Enqueue, k)) == multiset(On(s.log, Send, k)) + HeldAt(s, k)
  }

  ghost predicate ProgramOk(s: State) {
    forall k: Key, p: nat :: p < |s.producers| ==> ProgramAt(s, k, p)
  }

  predicate ProgramAt(s: State, k: Key, p: nat)
    requires p < |s.producers|
  {
    By(On(s.log, Enqueue, k), p) == By(On(s.log, Send, k), p) + HeldOne(s.producers[p], k)
  }

  ghost predicate Inv(s: State) {
    Structure(s) && OrderOk(s) && ProgramOk(s)
  }

  // ---------- The invariant holds in every run ----------

  lemma InitialInv(n: nat)
    ensures Inv(Initial(n))
  {
    forall k: Key ensures FifoAt(Initial(n), k) && BalanceAt(Initial(n), k) {
      UnionEmpty(Initial(n).producers, HeldFor(k));
    }
  }

  lemma OnAppend(log: seq<Event>, e: Event, kind: Kind, key: Key)
    ensures On(log + [e], kind, key) == if e.kind == kind && e.key == key then On(log, kind, key) + [e.task] else On(log, kind, key)
  {
    assert (log + [e])[..|log|] == log;
  }

  lemma ByAppend(tasks: seq<Task>, t: Task, p: nat)
    ensures By(tasks + [t], p) == if t.producer == p then By(tasks, p) + [t] else By(tasks, p)
  {
    assert (tasks + [t])[..|tasks|] == tasks;
  }

  lemma ReserveStructure(s: State, p: nat, key: Key, task: Task)
    requires Structure(s) && Enabled(s, Reserve(p, key, task))
    ensures Structure(Apply(s, Reserve(p, key, task)))
  {
    var t := Apply(s, Reserve(p, key, task));
    assert KeyOk(s, key);
    forall k: Key ensures KeyOk(t, k) {
      assert KeyOk(s, k);
    }
    forall i: nat | i < |t.producers| ensures ProducerOk(t, i) {
      assert ProducerOk(s, i);
    }
    forall q: nat | q < |t.queues| ensures QueueOk(t, q) {
      SumUpdate(s.producers, p, t.producers[p], TicketFor(q));
      if q < |s.queues| {
        assert QueueOk(s, q);
      } else {
        forall i: nat | i < |s.producers| ensures TicketFor(q)(s.producers[i]) == 0 {
          assert ProducerOk(s, i);
        }
        SumZero(s.producers, TicketFor(q));
      }
    }
  }

  lemma SendStructure(s: State, p: nat)
    requires Structure(s) && Enabled(s, SendTask(p))
    ensures Structure(Apply(s, SendTask(p)))
  {
    var t := Apply(s, SendTask(p));
    assert ProducerOk(s, p);
    forall k: Key ensures KeyOk(t, k) {
      assert KeyOk(s, k);
    }
    forall i: nat | i < |t.producers| ensures ProducerOk(t, i) {
      assert ProducerOk(s, i);
    }
    forall q: nat | q < |t.queues| ensures QueueOk(t, q) {
      assert QueueOk(s, q);
      SumUpdate(s.producers, p, t.producers[p], TicketFor(q));
      SumAtLeast(s.producers, p, TicketFor(q));
    }
  }

  lemma ReleaseStructure(s: State, p: nat)
    requires Structure(s) && Enabled(s, Release(p))
    ensures Structure(Apply(s, Release(p)))
  {
    var t := Apply(s, Release(p));
    forall k: Key ensures KeyOk(t, k) {
      assert KeyOk(s, k);
    }
    forall i: nat | i < |t.producers| ensures ProducerOk(t, i) {
      assert ProducerOk(s, i);
    }
    forall q: nat | q < |t.queues| ensures QueueOk(t, q) {
      assert QueueOk(s, q);
      SumUpdate(s.producers, p, t.producers[p], TicketFor(q));
      SumAtLeast(s.producers, p, TicketFor(q));
    }
  }

  lemma ConsumerStructure(s: State, step: Step)
    requires Structure(s) && Enabled(s, step) && !step.Reserve? && !step.SendTask? && !step.Release?
    ensures Structure(Apply(s, step))
  {
    hide Sum;
    var t := Apply(s, step);
    assert QueueOk(s, step.q);
    forall k: Key ensures KeyOk(t, k) {
      assert KeyOk(s, k);
    }
    forall i: nat | i < |t.producers| ensures ProducerOk(t, i) {
      assert ProducerOk(s, i);
    }
    forall q: nat | q < |t.queues| ensures QueueOk(t, q) {
      assert QueueOk(s, q);
    }
  }

  lemma StepStructure(s: State, step: Step)
    requires Structure(s) && Enabled(s, step)
    ensures Structure(Apply(s, step))
  {
    match step
    case Reserve(p, key, task) => ReserveStructure(s, p, key, task);
    case SendTask(p) => SendStructure(s, p);
    case Release(p) => ReleaseStructure(s, p);
    case _ => ConsumerStructure(s, step);
  }

  lemma OnAppendAll(log: seq<Event>, e: Event, k: Key)
    ensures forall kind :: On(log + [e], kind, k)
                        == if e.kind == kind && e.key == k then On(log, kind, k) + [e.task] else On(log, kind, k)
  {
  }

  lemma ReserveFifo(s: State, p: nat, key: Key, task: Task, k: Key)
    requires KeyOk(s, k) && KeyOk(s, key) && FifoAt(s, k) && Enabled(s, Reserve(p, key, task))
    ensures FifoAt(Apply(s, Reserve(p, key, task)), k)
  {
  }

  lemma SendFifo(s: State, p: nat, k: Key)
    requires Enabled(s, SendTask(p)) && ProducerOk(s, p) && QueueOk(s, s.producers[p].queue) && KeyOk(s, k) && FifoAt(s, k)
    ensures FifoAt(Apply(s, SendTask(p)), k)
  {
    var t := ApplySend(s, p);
    var Reserved(key, q, task) := s.producers[p];
    SumAtLeast(s.producers, p, TicketFor(q));
    OnAppendAll(s.log, Event(Send, key, task), k);
    assert RunningAt(t, k) == RunningAt(s, k);
    assert QueuedAt(t, k) == if key == k then QueuedAt(s, k) + [task] else QueuedAt(s, k);
  }

  lemma ReleaseFifo(s: State, p: nat, k: Key)
    requires KeyOk(s, k) && FifoAt(s, k) && Enabled(s, Release(p))
    ensures FifoAt(Apply(s, Release(p)), k)
  {
    var t := ApplyRelease(s, p);
    assert QueuedAt(t, k) == QueuedAt(s, k) && RunningAt(t, k) == RunningAt(s, k);
  }

  lemma ReceiveFifo(s: State, q: nat, k: Key)
    requires Enabled(s, Receive(q)) && QueueOk(s, q) && KeyOk(s, k) && FifoAt(s, k)
    ensures FifoAt(Apply(s, Receive(q)), k)
  {
    hide On;
    var t := ApplyReceive(s, q);
    var queue := s.queues[q];
    var e := Event(Start, queue.key, queue.tasks[0]);
    OnAppend(s.log, e, Send, k);
    OnAppend(s.log, e, Start, k);
    OnAppend(s.log, e, Finish, k);
    if queue.key == k {
      assert QueuedAt(s, k) == [queue.tasks[0]] + QueuedAt(t, k);
      assert RunningAt(s, k) == [] && RunningAt(t, k) == [queue.tasks[0]];
    } else {
      assert QueuedAt(t, k) == QueuedAt(s, k) && RunningAt(t, k) == RunningAt(s, k);
    }
  }

  lemma FinishFifo(s: State, q: nat, k: Key)
    requires Enabled(s, FinishTask(q)) && QueueOk(s, q) && KeyOk(s, k) && FifoAt(s, k)
    ensures FifoAt(Apply(s, FinishTask(q)), k)
  {
  }

  lemma IdleFifo(s: State, step: Step, k: Key)
    requires Structure(s) && FifoAt(s, k) && Enabled(s, step)
    requires step.FireIdle? || step.LockIdle? || step.ReadLength? || step.ReadPending?
    ensures FifoAt(Apply(s, step), k)
  {
    var t := Apply(s, step);
    assert KeyOk(s, k) && QueueOk(s, step.q);
    assert QueuedAt(t, k) == QueuedAt(s, k) && RunningAt(t, k) == RunningAt(s, k);
  }

  /** A producer that holds nothing comes to hold x's task. */
  lemma HeldGain(s: State, p: nat, x: Producer, k: Key)
    requires p < |s.producers| && !s.producers[p].Reserved?
    ensures Union(s.producers[p := x], HeldFor(k)) == HeldAt(s, k) + multiset(HeldOne(x, k))
  {
    UnionUpdate(s.producers, p, x, HeldFor(k));
    assert HeldOne(s.producers[p], k) == [];
    assert HeldFor(k)(s.producers[p]) == multiset{};
  }

  /** A producer lets go of what it holds. */
  lemma HeldLoss(s: State, p: nat, x: Producer, k: Key)
    requires p < |s.producers| && !x.Reserved?
    ensures Union(s.producers[p := x], HeldFor(k)) + multiset(HeldOne(s.producers[p], k)) == HeldAt(s, k)
  {
    UnionUpdate(s.producers, p, x, HeldFor(k));
    assert HeldOne(x, k) == [];
    assert HeldFor(k)(x) == multiset{};
  }

  lemma EnqueuedMore(enqueued: seq<Task>, sent: seq<Task>, held: multiset<Task>, x: seq<Task>)
    requires multiset(enqueued) == multiset(sent) + held
    ensures multiset(enqueued + x) == multiset(sent) + (held + multiset(x))
  {
  }

  lemma SentMore(enqueued: seq<Task>, sent: seq<Task>, held: multiset<Task>, x: seq<Task>)
    requires multiset(enqueued) == multiset(sent) + (held + multiset(x))
    ensures multiset(enqueued) == multiset(sent + x) + held
  {
  }

  lemma ReserveBalance(s: State, p: nat, key: Key, task: Task, k: Key)
    requires BalanceAt(s, k) && Enabled(s, Reserve(p, key, task))
    ensures BalanceAt(ApplyReserve(s, p, key, task), k)
  {
    var x := ApplyReserve(s, p, key, task).producers[p];
    HeldGain(s, p, x, k);
    OnAppend(s.log, Event(Enqueue, key, task), Enqueue, k);
    OnAppend(s.log, Event(Enqueue, key, task), Send, k);
    EnqueuedMore(On(s.log, Enqueue, k), On(s.log, Send, k), HeldAt(s, k), HeldOne(x, k));
  }

  lemma SendBalance(s: State, p: nat, k: Key)
    requires BalanceAt(s, k) && Enabled(s, SendTask(p))
    ensures BalanceAt(ApplySend(s, p), k)
  {
    var Reserved(key, q, task) := s.producers[p];
    HeldLoss(s, p, Sent(q), k);
    OnAppend(s.log, Event(Send, key, task), Enqueue, k);
    OnAppend(s.log, Event(Send, key, task), Send, k);
    SentMore(On(s.log, Enqueue, k), On(s.log, Send, k), HeldAt(ApplySend(s, p), k), HeldOne(s.producers[p], k));
  }

  lemma ReleaseBalance(s: State, p: nat, k: Key)
    requires BalanceAt(s, k) && Enabled(s, Release(p))
    ensures BalanceAt(ApplyRelease(s, p), k)
  {
    HeldLoss(s, p, Idle, k);
    assert HeldAt(ApplyRelease(s, p), k) == HeldAt(s, k);
  }

  lemma ConsumerBalance(s: State, step: Step, k: Key)
    requires BalanceAt(s, k) && Enabled(s, step) && !step.Reserve? && !step.SendTask? && !step.Release?
    ensures BalanceAt(Apply(s, step), k)
  {
    var t := Apply(s, step);
    if t.log != s.log {
      assert t.log == s.log + [t.log[|s.log|]];
      OnAppendAll(s.log, t.log[|s.log|], k);
    }
  }

  lemma ReserveProgram(s: State, i: nat, key: Key, task: Task, k: Key, p: nat)
    requires Enabled(s, Reserve(i, key, task)) && p < |s.producers| && ProgramAt(s, k, p)
    ensures ProgramAt(ApplyReserve(s, i, key, task), k, p)
  {
  }

  lemma SendProgram(s: State, i: nat, k: Key, p: nat)
    requires Enabled(s, SendTask(i)) && ProducerOk(s, i) && p < |s.producers| && ProgramAt(s, k, p)
    ensures ProgramAt(ApplySend(s, i), k, p)
  {
  }

  lemma UnloggedProgram(s: State, step: Step, k: Key, p: nat)
    requires Enabled(s, step) && !step.Reserve? && !step.SendTask? && p < |s.producers| && ProgramAt(s, k, p)
    ensures |Apply(s, step).producers| == |s.producers| && ProgramAt(Apply(s, step), k, p)
  {
  }

  lemma StepOrder(s: State, step: Step, k: Key)
    requires Structure(s) && KeyOk(s, k) && FifoAt(s, k) && BalanceAt(s, k) && Enabled(s, step)
    ensures FifoAt(Apply(s, step), k) && BalanceAt(Apply(s, step), k)
  {
    match step
    case Reserve(p, key, task) =>
      assert KeyOk(s, key);
      ReserveFifo(s, p, key, task, k);
      ReserveBalance(s, p, key, task, k);
    case SendTask(p) =>
      assert ProducerOk(s, p);
      SendFifo(s, p, k);
      SendBalance(s, p, k);
    case Release(p) =>
      ReleaseFifo(s, p, k);
      ReleaseBalance(s, p, k);
    case Receive(q) =>
      assert QueueOk(s, q);
      ReceiveFifo(s, q, k);
      ConsumerBalance(s, step, k);
    case FinishTask(q) =>
      assert QueueOk(s, q);
      FinishFifo(s, q, k);
      ConsumerBalance(s, step, k);
    case _ =>
      IdleFifo(s, step, k);
      ConsumerBalance(s, step, k);
  }

  lemma StepInv(s: State, step: Step)
    requires Inv(s) && Enabled(s, step)
    ensures Inv(Apply(s, step))
  {
    var t := Apply(s, step);
    StepStructure(s, step);
    forall k: Key ensures FifoAt(t, k) && BalanceAt(t, k) {
      assert FifoAt(s, k) && BalanceAt(s, k) && KeyOk(s, k);
      StepOrder(s, step, k);
    }
    forall k: Key, p: nat | p < |t.producers| ensures ProgramAt(t, k, p) {
      assert ProgramAt(s, k, p);
      match step {
        case Reserve(i, key, task) => ReserveProgram(s, i, key, task, k, p);
        case SendTask(i) => assert ProducerOk(s, i); SendProgram(s, i, k, p);
        case _ => UnloggedProgram(s, step, k, p);
      }
    }
  }

  lemma {:induction false} RunInv(s: State, steps: seq<Step>)
    requires Inv(s) && Legal(s, steps)
    ensures Inv(Run(s, steps))
    decreases |steps|
  {
    if steps != [] {
      StepInv(s, steps[0]);
      RunInv(Apply(s, steps[0]), steps[1..]);
    }
  }

  /** The state a legal schedule of n producers leads to. */
  ghost predicate Reaches(n: nat, steps: seq<Step>, s: State) {
    Legal(Initial(n), steps) && s == Run(Initial(n), steps)
  }

  lemma ReachedInv(n: nat, steps: seq<Step>, s: State)
    requires Reaches(n, steps, s)
    ensures Inv(s)
  {
    InitialInv(n);
    RunInv(Initial(n), steps);
  }

  // ---------- What every run guarantees ----------

  /** Per directory, nothing is lost or duplicated: what was enqueued is what finished, what
      runs, what is in the channel and what a producer still holds. */
  lemma Conservation(n: nat, steps: seq<Step>, s: State, k: Key)
    requires Reaches(n, steps, s)
    ensures multiset(On(s.log, Enqueue, k))
         == multiset(On(s.log, Finish, k)) + multiset(RunningAt(s, k)) + multiset(QueuedAt(s, k)) + HeldAt(s, k)
  {
    ReachedInv(n, steps, s);
    assert FifoAt(s, k) && BalanceAt(s, k);
  }

  /** Reaping strands nothing: a queue object with a running or queued task, or with a
      producer that found it, is still the registered queue of its directory and its
      consumer has not exited. */
  lemma NeverStranded(n: nat, steps: seq<Step>, s: State, q: nat)
    requires Reaches(n, steps, s) && q < |s.queues|
    ensures (s.queues[q].tasks != [] || s.queues[q].consumer.Running? || s.queues[q].pending != 0) ==>
        Registered(s, q) && !s.queues[q].consumer.Exited?
    ensures forall p: nat :: p < |s.producers| && !s.producers[p].Idle? && s.producers[p].queue == q ==>
        Registered(s, q) && !s.queues[q].consumer.Exited?
  {
    ReachedInv(n, steps, s);
    assert QueueOk(s, q);
    forall p: nat | p < |s.producers| && !s.producers[p].Idle? && s.producers[p].queue == q
      ensures Registered(s, q) && !s.queues[q].consumer.Exited?
    {
      SumAtLeast(s.producers, p, TicketFor(q));
    }
  }

  /** However often a directory's queue was reaped and recreated, one consumer is alive. */
  lemma OneConsumerPerKey(n: nat, steps: seq<Step>, s: State, q: nat, r: nat)
    requires Reaches(n, steps, s) && q < |s.queues| && r < |s.queues| && s.queues[q].key == s.queues[r].key
    ensures !s.queues[q].consumer.Exited? && !s.queues[r].consumer.Exited? ==> q == r
  {
    ReachedInv(n, steps, s);
    assert QueueOk(s, q) && QueueOk(s, r);
  }

  /** Tasks of a directory start in the order their sends completed, across queue
      generations, and a task starts only when the one before it has finished. */
  lemma StartsInSendOrder(n: nat, steps: seq<Step>, s: State, k: Key)
    requires Reaches(n, steps, s)
    ensures On(s.log, Finish, k) <= On(s.log, Start, k) <= On(s.log, Send, k)
    ensures |On(s.log, Start, k)| <= |On(s.log, Finish, k)| + 1
  {
    ReachedInv(n, steps, s);
    assert FifoAt(s, k) && BalanceAt(s, k);
  }

  lemma {:induction false} ByConcat(a: seq<Task>, b: seq<Task>, p: nat)
    ensures By(a + b, p) == By(a, p) + By(b, p)
    decreases |b|
  {
    if b == [] {
      assert a + b == a;
    } else {
      var c, t := b[..|b| - 1], b[|b| - 1];
      assert a + b == (a + c) + [t] && b == c + [t];
      ByAppend(a + c, t, p);
      ByAppend(c, t, p);
      ByConcat(a, c, p);
    }
  }

  /** One producer's tasks for a directory start in the order of its own calls. */
  lemma ProgramOrder(n: nat, steps: seq<Step>, s: State, k: Key, p: nat)
    requires Reaches(n, steps, s) && p < |s.producers|
    ensures By(On(s.log, Start, k), p) <= By(On(s.log, Enqueue, k), p)
  {
    ReachedInv(n, steps, s);
    assert FifoAt(s, k) && BalanceAt(s, k) && ProgramAt(s, k, p);
    ByConcat(On(s.log, Start, k), QueuedAt(s, k), p);
  }

  predicate HasQueue(s: State, p: nat)
    requires p < |s.producers| && s.producers[p].Reserved?
  {
    s.producers[p].queue < |s.queues|
  }

  /** The index guards in Enabled hold wherever the code takes the step, a send blocks exactly
      when 128 tasks are in the channel, and the reap
      test's first conjunct always succeeds: only a live queue can ask. */
  lemma NoStepIsRefused(n: nat, steps: seq<Step>, s: State)
    requires Reaches(n, steps, s)
    ensures forall p: nat, key: Key, task: Task :: p < |s.producers| && s.producers[p].Idle? && s.mutex.Free? && task.producer == p ==>
        Enabled(s, Reserve(p, key, task))
    ensures forall p: nat :: p < |s.producers| && s.producers[p].Sent? && s.mutex.Free? ==> Enabled(s, Release(p))
    ensures forall p: nat :: p < |s.producers| && s.producers[p].Reserved? ==>
        (HasQueue(s, p) && (Enabled(s, SendTask(p)) <==> |s.queues[s.producers[p].queue].tasks| < 128))
    ensures forall q: nat :: q < |s.queues| && s.queues[q].consumer.IdleFired? ==> Registered(s, q)
  {
    ReachedInv(n, steps, s);
    forall p: nat, key: Key, task: Task | p < |s.producers| && s.producers[p].Idle? && s.mutex.Free? && task.producer == p
      ensures Enabled(s, Reserve(p, key, task))
    {
      assert KeyOk(s, key);
    }
    forall p: nat | p < |s.producers| && s.producers[p].Sent? && s.mutex.Free? ensures Enabled(s, Release(p)) {
      assert ProducerOk(s, p);
    }
    forall p: nat | p < |s.producers| && s.producers[p].Reserved? ensures HasQueue(s, p) {
      assert ProducerOk(s, p);
    }
    forall q: nat | q < |s.queues| && s.queues[q].consumer.IdleFired? ensures Registered(s, q) {
      assert QueueOk(s, q);
    }
  }

  /** The pending test is needed: a consumer can pass the other two conjuncts while a
      producer that found its queue has not sent yet. */
  lemma PendingTestIsNeeded() returns (steps: seq<Step>, s: State)
    ensures Reaches(1, steps, s)
    ensures |s.queues| == 1 && s.queues[0].consumer.CheckPending? && s.queues[0].tasks == [] && Registered(s, 0)
    ensures |s.producers| == 1 && s.producers[0].Reserved? && s.producers[0].queue == 0
  {
    var s0 := Initial(1);
    var s1 := Apply(s0, Reserve(0, "/REL", Task(0, 0)));
    var s2 := Apply(s1, FireIdle(0));
    var s3 := Apply(s2, LockIdle(0));
    s := Apply(s3, ReadLength(0));
    var tail3 := [ReadLength(0)];
    var tail2 := [LockIdle(0)] + tail3;
    var tail1 := [FireIdle(0)] + tail2;
    steps := [Reserve(0, "/REL", Task(0, 0))] + tail1;
    assert tail3[1..] == [] && tail2[1..] == tail3 && tail1[1..] == tail2 && steps[1..] == tail1;
    assert Legal(s, []) && Legal(s3, tail3) && Legal(s2, tail2) && Legal(s1, tail1);
    assert Run(s3, tail3) == s && Run(s2, tail2) == s && Run(s1, tail1) == s;
  }

  // ---------- Progress ----------

  /** The steps left when no timer fires and no task is enqueued. */
  predicate Quiet(step: Step) {
    !step.Reserve? && !step.FireIdle?
  }

  predicate AllFinished(s: State) {
    && (forall p: nat :: p < |s.producers| ==> !s.producers[p].Reserved?)
    && (forall q: nat :: q < |s.queues| ==> s.queues[q].tasks == [] && !s.queues[q].consumer.Running?)
  }

  /** With the channel full and senders blocked on it, its consumer can still step; and the
      mutex is never held by someone who cannot step. */
  lemma QueueCanStep(s: State, q: nat) returns (step: Step)
    requires Structure(s) && q < |s.queues| && !s.queues[q].consumer.Exited?
    requires s.queues[q].tasks != [] || !s.queues[q].consumer.Select?
    ensures Quiet(step) && Enabled(s, step)
  {
    assert QueueOk(s, q);
    match s.queues[q].consumer
    case Select => step := Receive(q);
    case Running(_) => step := FinishTask(q);
    case CheckLength => step := ReadLength(q);
    case CheckPending => step := ReadPending(q);
    case IdleFired =>
      if s.mutex.Free? {
        step := LockIdle(q);
      } else {
        assert QueueOk(s, s.mutex.queue);
        step := if s.queues[s.mutex.queue].consumer.CheckLength? then ReadLength(s.mutex.queue) else ReadPending(s.mutex.queue);
      }
  }

  lemma NoDeadlock(n: nat, steps: seq<Step>, s: State) returns (step: Step)
    requires Reaches(n, steps, s) && !AllFinished(s)
    ensures Quiet(step) && Enabled(s, step)
  {
    ReachedInv(n, steps, s);
    if p: nat :| p < |s.producers| && s.producers[p].Reserved? {
      var q := s.producers[p].queue;
      assert ProducerOk(s, p) && QueueOk(s, q);
      SumAtLeast(s.producers, p, TicketFor(q));
      if |s.queues[q].tasks| < CAPACITY {
        step := SendTask(p);
      } else {
        step := QueueCanStep(s, q);
      }
    } else {
      var q: nat :| q < |s.queues| && (s.queues[q].tasks != [] || s.queues[q].consumer.Running?);
      assert QueueOk(s, q);
      step := QueueCanStep(s, q);
    }
  }

  function ProducerWork(p: Producer): nat {
    match p
    case Idle => 0
    case Reserved(_, _, _) => 4
    case Sent(_) => 1
  }

  function ConsumerWork(c: Consumer): nat {
    match c
    case Select => 0
    case Running(_) => 1
    case IdleFired => 3
    case CheckLength => 2
    case CheckPending => 1
    case Exited => 0
  }

  function QueueWork(q: Queue): nat {
    2 * |q.tasks| + ConsumerWork(q.consumer)
  }

  function Work(s: State): nat {
    Sum(s.producers, ProducerWork) + Sum(s.queues, QueueWork)
  }

  lemma ProducerStepWorks(s: State, step: Step)
    requires Enabled(s, step) && (step.SendTask? || step.Release?)
    ensures Work(Apply(s, step)) < Work(s)
  {
    var t := Apply(s, step);
    var p, q := step.p, s.producers[step.p].queue;
    SumUpdate(s.producers, p, t.producers[p], ProducerWork);
    SumUpdate(s.queues, q, t.queues[q], QueueWork);
  }

  lemma ConsumerStepWorks(s: State, step: Step)
    requires Enabled(s, step) && Quiet(step) && !step.SendTask? && !step.Release?
    ensures Work(Apply(s, step)) < Work(s)
  {
    hide Sum;
    var t := Apply(s, step);
    var q := step.q;
    SumUpdate(s.queues, q, t.queues[q], QueueWork);
    assert QueueWork(t.queues[q]) < QueueWork(s.queues[q]);
  }

  lemma QuietStepWorks(s: State, step: Step)
    requires Enabled(s, step) && Quiet(step)
    ensures Work(Apply(s, step)) < Work(s)
  {
    if step.SendTask? || step.Release? {
      ProducerStepWorks(s, step);
    } else {
      ConsumerStepWorks(s, step);
    }
  }

  /** Without new tasks and timers the system stops within Work(s) steps. */
  lemma {:induction false} QuietRunsAreShort(s: State, steps: seq<Step>)
    requires Legal(s, steps) && forall i :: 0 <= i < |steps| ==> Quiet(steps[i])
    ensures |steps| + Work(Run(s, steps)) <= Work(s)
    decreases |steps|
  {
    if steps != [] {
      QuietStepWorks(s, steps[0]);
      QuietRunsAreShort(Apply(s, steps[0]), steps[1..]);
    }
  }

  /** Where it stops, everything enqueued has finished, exactly once and in send order. */
  lemma StoppedMeansDone(n: nat, steps: seq<Step>, s: State, k: Key)
    requires Reaches(n, steps, s)
    requires forall step :: Quiet(step) ==> !Enabled(s, step)
    ensures multiset(On(s.log, Enqueue, k)) == multiset(On(s.log, Finish, k))
    ensures On(s.log, Finish, k) == On(s.log, Send, k)
  {
    if !AllFinished(s) {
      var step := NoDeadlock(n, steps, s);
      assert false;
    }
    ReachedInv(n, steps, s);
    assert FifoAt(s, k) && BalanceAt(s, k) && KeyOk(s, k);
    UnionEmpty(s.producers, HeldFor(k));
  }

  // ---------- Reaping ----------

  /** What the consumer of q does when its timer fires and nothing disturbs it. */
  function TimerServed(q: nat): seq<Step> {
    [FireIdle(q), LockIdle(q), ReadLength(q), ReadPending(q)]
  }

  predicate OnlyQueueChanged(s: State, t: State, q: nat) {
    && |t.queues| == |s.queues| && t.producers == s.producers && t.log == s.log
    && forall r: nat :: r < |s.queues| && r != q ==> t.queues[r] == s.queues[r]
  }

  predicate OnlyKeyGone(s: State, t: State, key: Key) {
    && key !in t.registry
    && (forall k | k in t.registry :: k in s.registry && t.registry[k] == s.registry[k])
    && (forall k | k in s.registry :: k != key ==> k in t.registry)
  }

  lemma NobodyCounted(s: State, q: nat)
    requires Structure(s) && q < |s.queues|
    requires forall p: nat :: p < |s.producers| ==> s.producers[p].Idle? || s.producers[p].queue != q
    ensures s.queues[q].pending == 0
  {
    assert QueueOk(s, q);
    SumZero(s.producers, TicketFor(q));
  }

  lemma TimerServedRun(s: State, q: nat)
    requires q < |s.queues| && s.mutex.Free? && Registered(s, q)
    requires s.queues[q].tasks == [] && s.queues[q].consumer.Select? && s.queues[q].pending == 0
    ensures Legal(s, TimerServed(q))
    ensures var t := Run(s, TimerServed(q));
        && t.mutex.Free? && t.queues == s.queues[q := s.queues[q].(consumer := Exited)]
        && t.registry == s.registry - {s.queues[q].key} && t.producers == s.producers && t.log == s.log
  {
    var a := Apply(s, FireIdle(q));
    var b := Apply(a, LockIdle(q));
    var c := Apply(b, ReadLength(q));
    var d := Apply(c, ReadPending(q));
    assert a.queues[q] == s.queues[q].(consumer := IdleFired);
    assert b.queues[q] == s.queues[q].(consumer := CheckLength);
    assert c.queues[q] == s.queues[q].(consumer := CheckPending);
    assert d.queues == s.queues[q := s.queues[q].(consumer := Exited)];
    RunFirst(c, ReadPending(q), []);
    RunFirst(b, ReadLength(q), [ReadPending(q)]);
    RunFirst(a, LockIdle(q), [ReadLength(q), ReadPending(q)]);
    RunFirst(s, FireIdle(q), [LockIdle(q), ReadLength(q), ReadPending(q)]);
    hide Legal, Run;
    assert [ReadPending(q)] + [] == [ReadPending(q)];
    assert [ReadLength(q)] + [ReadPending(q)] == [ReadLength(q), ReadPending(q)];
    assert [LockIdle(q)] + [ReadLength(q), ReadPending(q)] == [LockIdle(q), ReadLength(q), ReadPending(q)];
    assert [FireIdle(q)] + [LockIdle(q), ReadLength(q), ReadPending(q)] == TimerServed(q);
  }

  lemma RunFirst(s: State, step: Step, rest: seq<Step>)
    requires Enabled(s, step) && Legal(Apply(s, step), rest)
    ensures Legal(s, [step] + rest) && Run(s, [step] + rest) == Run(Apply(s, step), rest)
  {
    assert ([step] + rest)[1..] == rest;
    hide Enabled, Apply;
  }

  /** Reaping happens: when the timer of an idle queue fires, no producer has found the queue and
      nothing disturbs, the consumer exits and its key is gone, and nothing else has changed. */
  lemma IdleQueueIsReaped(n: nat, steps: seq<Step>, s: State, q: nat)
    requires Reaches(n, steps, s) && s.mutex.Free? && q < |s.queues|
    requires s.queues[q].tasks == [] && s.queues[q].consumer.Select?
    requires forall p: nat :: p < |s.producers| ==> s.producers[p].Idle? || s.producers[p].queue != q
    ensures Legal(s, TimerServed(q))
    ensures var t := Run(s, TimerServed(q));
        && t.mutex.Free? && OnlyQueueChanged(s, t, q) && OnlyKeyGone(s, t, s.queues[q].key)
        && t.queues[q] == s.queues[q].(consumer := Exited)
  {
    ReachedInv(n, steps, s);
    NobodyCounted(s, q);
    assert QueueOk(s, q);
    TimerServedRun(s, q);
    hide Run, Legal, Inv;
  }

  /** The next enqueue for a reaped directory makes a new queue object with a live consumer. */
  lemma NextEnqueueStartsAfresh(s: State, p: nat, key: Key, task: Task)
    requires Enabled(s, Reserve(p, key, task)) && key !in s.registry
    ensures var t := Apply(s, Reserve(p, key, task));
        && |t.queues| == |s.queues| + 1 && t.queues[..|s.queues|] == s.queues
        && t.queues[|s.queues|] == Queue(key, [], 1, Select)
        && key in t.registry && t.registry[key] == |s.queues|
        && t.producers[p] == Reserved(key, |s.queues|, task)
  {
  }

  /** Everything enqueued has finished and every producer has returned. */
  predicate AtRest(s: State) {
    AllFinished(s) && forall p: nat :: p < |s.producers| ==> s.producers[p].Idle?
  }

  lemma HolderMoves(s: State) returns (step: Step)
    requires Inv(s) && s.mutex.HeldBy?
    ensures Quiet(step) && Enabled(s, step)
  {
    var q := s.mutex.queue;
    assert QueueOk(s, q);
    step := if s.queues[q].consumer.CheckLength? then ReadLength(q) else ReadPending(q);
  }

  /** That is where the system stops without timers and new tasks. */
  lemma StoppedIsAtRest(n: nat, steps: seq<Step>, s: State)
    requires Reaches(n, steps, s) && forall step :: Quiet(step) ==> !Enabled(s, step)
    ensures AtRest(s) && s.mutex.Free?
  {
    if !AllFinished(s) {
      var step := NoDeadlock(n, steps, s);
      assert false;
    }
    ReachedInv(n, steps, s);
    if s.mutex.HeldBy? {
      var step := HolderMoves(s);
      assert false;
    }
    forall p: nat | p < |s.producers| ensures s.producers[p].Idle? {
      assert ProducerOk(s, p);
      assert !Enabled(s, Release(p));
    }
  }

  predicate Undisturbed(steps: seq<Step>) {
    forall i :: 0 <= i < |steps| ==> !steps[i].Reserve?
  }

  lemma RestStays(s: State, step: Step)
    requires AtRest(s) && Enabled(s, step) && !step.Reserve?
    ensures AtRest(Apply(s, step)) && |Apply(s, step).queues| == |s.queues|
  {
  }

  lemma ExitStays(s: State, step: Step, q: nat)
    requires Enabled(s, step) && q < |s.queues| && s.queues[q].consumer.Exited?
    ensures q < |Apply(s, step).queues| && Apply(s, step).queues[q].consumer.Exited?
  {
  }

  /** At rest a consumer that gets as far as the pending test exits. */
  lemma PendingTestExits(s: State, q: nat)
    requires Structure(s) && AtRest(s) && Enabled(s, ReadPending(q))
    ensures Apply(s, ReadPending(q)).queues[q].consumer.Exited?
  {
    NobodyCounted(s, q);
  }

  lemma {:induction false} ServedQueuesExit(s: State, steps: seq<Step>, q: nat)
    requires Inv(s) && AtRest(s) && Legal(s, steps) && Undisturbed(steps) && q < |s.queues|
    requires s.queues[q].consumer.Exited? || ReadPending(q) in steps
    ensures AtRest(Run(s, steps)) && |Run(s, steps).queues| == |s.queues|
    ensures Run(s, steps).queues[q].consumer.Exited?
    decreases |steps|
  {
    if steps != [] {
      var t := Apply(s, steps[0]);
      StepInv(s, steps[0]);
      RestStays(s, steps[0]);
      if s.queues[q].consumer.Exited? {
        ExitStays(s, steps[0], q);
      } else if steps[0] == ReadPending(q) {
        PendingTestExits(s, q);
      }
      hide Apply, Inv, AtRest;
      assert steps == [steps[0]] + steps[1..];
      ServedQueuesExit(t, steps[1..], q);
    }
  }

  /** Once everything is at rest, in every run without new enqueues in which the timer of each
      live queue has been served as far as the pending test, the registry ends empty and no
      consumer is left. */
  lemma RestEmptiesTheRegistry(n: nat, before: seq<Step>, s: State, steps: seq<Step>)
    requires Reaches(n, before, s) && AtRest(s) && Legal(s, steps) && Undisturbed(steps)
    requires forall q: nat :: q < |s.queues| ==> s.queues[q].consumer.Exited? || ReadPending(q) in steps
    ensures var t := Run(s, steps);
        t.registry == map[] && forall q: nat :: q < |t.queues| ==> t.queues[q].consumer.Exited?
  {
    ReachedInv(n, before, s);
    RunInv(s, steps);
    var t := Run(s, steps);
    if |s.queues| > 0 {
      ServedQueuesExit(s, steps, 0);
      assert |t.queues| == |s.queues|;
      forall q: nat | q < |s.queues| ensures t.queues[q].consumer.Exited? {
        ServedQueuesExit(s, steps, q);
      }
    } else {
      NoQueues(s, steps);
    }
    forall k: Key ensures k !in t.registry {
      if k in t.registry {
        RegisteredLives(t, k);
      }
    }
  }

  lemma RegisteredLives(s: State, k: Key)
    requires Structure(s) && k in s.registry
    ensures s.registry[k] < |s.queues| && !s.queues[s.registry[k]].consumer.Exited?
  {
    assert KeyOk(s, k);
    assert QueueOk(s, s.registry[k]);
  }

  lemma {:induction false} NoQueues(s: State, steps: seq<Step>)
    requires AtRest(s) && Legal(s, steps) && Undisturbed(steps) && s.queues == []
    ensures Run(s, steps).queues == []
    decreases |steps|
  {
    if steps != [] {
      RestStays(s, steps[0]);
      NoQueues(Apply(s, steps[0]), steps[1..]);
    }
  }

  /** The shared variables, changed in place one atomic action at a time. */
  class Runtime {
    var registry: map<Key, nat>
    var queues: seq<Queue>
    var producers: seq<Producer>
    var mutex: Mutex
    ghost var log: seq<Event>

    ghost function Now(): State
      reads this
    {
      State(registry, queues, producers, mutex, log)
    }

    constructor (n: nat)
      ensures Now() == Initial(n)
    {
      registry, queues, producers, mutex, log := map[], [], seq(n, _ => Idle), Free, [];
    }

    method FindAndReserve(p: nat, key: Key, task: Task)
      requires Enabled(Now(), Reserve(p, key, task))
      modifies this
      ensures Now() == Apply(old(Now()), Reserve(p, key, task))
    {
      var q: nat;
      if key in registry {
        q := registry[key];
      } else {
        q := |queues|;
        queues := queues + [Queue(key, [], 0, Select)];
      }
      registry := registry[key := q];
      queues := queues[q := queues[q].(pending := queues[q].pending + 1)];
      producers := producers[p := Reserved(key, q, task)];
      log := log + [Event(Enqueue, key, task)];
    }

    method Push(p: nat)
      requires Enabled(Now(), SendTask(p))
      modifies this`queues, this`producers, this`log
      ensures Now() == Apply(old(Now()), SendTask(p))
    {
      var Reserved(key, q, task) := producers[p];
      queues := queues[q := queues[q].(tasks := queues[q].tasks + [task])];
      producers := producers[p := Sent(q)];
      log := log + [Event(Send, key, task)];
    }

    method Unreserve(p: nat)
      requires Enabled(Now(), Release(p))
      modifies this`queues, this`producers
      ensures Now() == Apply(old(Now()), Release(p))
    {
      var q := producers[p].queue;
      queues := queues[q := queues[q].(pending := queues[q].pending - 1)];
      producers := producers[p := Idle];
    }

    method Take(q: nat) returns (task: Task)
      requires Enabled(Now(), Receive(q))
      modifies this`queues, this`log
      ensures Now() == Apply(old(Now()), Receive(q)) && task == old(queues[q].tasks[0])
    {
      task := queues[q].tasks[0];
      queues := queues[q := queues[q].(tasks := queues[q].tasks[1..], consumer := Running(task))];
      log := log + [Event(Start, queues[q].key, task)];
    }

    method Complete(q: nat)
      requires Enabled(Now(), FinishTask(q))
      modifies this`queues, this`log
      ensures Now() == Apply(old(Now()), FinishTask(q))
    {
      log := log + [Event(Finish, queues[q].key, queues[q].consumer.task)];
      queues := queues[q := queues[q].(consumer := Select)];
    }

    method TimerFires(q: nat)
      requires Enabled(Now(), FireIdle(q))
      modifies this`queues
      ensures Now() == Apply(old(Now()), FireIdle(q))
    {
      queues := queues[q := queues[q].(consumer := IdleFired)];
    }

    method LockAndLookUp(q: nat)
      requires Enabled(Now(), LockIdle(q))
      modifies this`queues, this`mutex
      ensures Now() == Apply(old(Now()), LockIdle(q))
    {
      var key := queues[q].key;
      if key in registry && registry[key] == q {
        mutex := HeldBy(q);
        queues := queues[q := queues[q].(consumer := CheckLength)];
      } else {
        queues := queues[q := queues[q].(consumer := Select)];
      }
    }

    method TestLength(q: nat)
      requires Enabled(Now(), ReadLength(q))
      modifies this`queues, this`mutex
      ensures Now() == Apply(old(Now()), ReadLength(q))
    {
      if queues[q].tasks == [] {
        queues := queues[q := queues[q].(consumer := CheckPending)];
      } else {
        mutex := Free;
        queues := queues[q := queues[q].(consumer := Select)];
      }
    }

    method TestPendingAndReap(q: nat) returns (exited: bool)
      requires Enabled(Now(), ReadPending(q))
      modifies this`registry, this`queues, this`mutex
      ensures Now() == Apply(old(Now()), ReadPending(q)) && exited == (old(queues[q].pending) == 0)
    {
      exited := queues[q].pending == 0;
      if exited {
        registry := registry - {queues[q].key};
        queues := queues[q := queues[q].(consumer := Exited)];
      } else {
        queues := queues[q := queues[q].(consumer := Select)];
      }
      mutex := Free;
    }
  }
}
