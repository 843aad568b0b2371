/** Handing work to an event loop: `queueinloop`, `wakeup`, `handlewakeup`, `run` and `stop` of one
    loop and any number of other threads, interleaved around the task queue's mutex, the eventfd
    counter and the atomic flag `stop_`. The callback of any other channel, and each queued task, is one
    step here: statements about progress take it that they return. */
module LoopHandoff {

  /** Largest value an eventfd counter can hold; a non-blocking write that would pass it is refused. */
  const COUNTER_MAX: nat := 0xffff_ffff_ffff_fffe

  /** The counter after `wakeup` wrote 1 and ignored the result. */
  function Written(counter: nat): (r: nat)
    ensures r > 0
    ensures counter <= COUNTER_MAX ==> r <= COUNTER_MAX
  {
    if counter < COUNTER_MAX then counter + 1 else counter
  }

  /** A channel in the vector returned by epoll and what it reports: the wake-up channel, the timer's,
      or a client's that can be read, can be written or has failed. */
  datatype Source = Wake | Timer | Readable(conn: nat) | Writable(conn: nat) | Broken(conn: nat)

  /** The loop's place in `run` and `handlewakeup`. */
  datatype Place =
    | Checking                        // while (stop_ == false)
    | Waiting                         // in epoll_wait
    | Batch(rest: seq<Source>)        // handling the channels reported
    | Locking(rest: seq<Source>)      // eventfd read, about to lock the queue
    | Draining(rest: seq<Source>)     // holds the mutex, running tasks
    | Left                            // run has returned

  /** A producer's place in `queueinloop`. */
  datatype Producer = Idle | Offering(task: nat) | Pushing(task: nat) | OwesWake

  datatype Stopper = NotCalled | OwesStopWake | Done

  datatype Holder = Free | ByLoop | ByProducer(p: nat)

  /** History: `pushed` and `executed` tasks, and `batches`, the times epoll_wait returned since
      stop_ was set. */
  datatype State = State(
    queue: seq<nat>, counter: nat, mutex: Holder, producers: seq<Producer>, loop: Place,
    stop: bool, stopper: Stopper, pushed: seq<nat>, executed: seq<nat>, batches: nat)

  predicate Init(s: State)
  {
    && s.queue == [] && s.counter == 0 && s.mutex == Free && s.loop == Checking
    && (forall p :: 0 <= p < |s.producers| ==> s.producers[p] == Idle)
    && !s.stop && s.stopper == NotCalled && s.pushed == [] && s.executed == [] && s.batches == 0
  }

  datatype Action =
    | CheckStop
    | Return(batch: seq<Source>)    // epoll_wait returns; the empty batch is its timeout
    | HandleOther                   // the callback of a channel other than the wake-up channel returns
    | ReadWake                      // handlewakeup reads the eventfd
    | LockToDrain
    | RunTask
    | Unlock                        // queue empty: handlewakeup returns
    | EndBatch
    | Offer(p: nat, task: nat)      // queueinloop is called
    | LockToPush(p: nat)
    | Push(p: nat)                  // push and release
    | WriteWake(p: nat)
    | SetStop
    | StopWake

  /** The wake-up channel is reported at most once, and only while its counter is positive. */
  predicate Reportable(s: State, batch: seq<Source>)
  {
    && (Wake in batch ==> s.counter > 0)
    && (forall i, j :: 0 <= i < j < |batch| ==> !(batch[i] == Wake && batch[j] == Wake))
  }

  predicate Enabled(s: State, a: Action)
  {
    match a
    case CheckStop => s.loop == Checking
    case Return(batch) => s.loop == Waiting && Reportable(s, batch)
    case HandleOther => s.loop.Batch? && s.loop.rest != [] && s.loop.rest[0] != Wake
    case ReadWake => s.loop.Batch? && s.loop.rest != [] && s.loop.rest[0] == Wake
    case LockToDrain => s.loop.Locking? && s.mutex == Free
    case RunTask => s.loop.Draining? && s.queue != []
    case Unlock => s.loop.Draining? && s.queue == []
    case EndBatch => s.loop.Batch? && s.loop.rest == []
    case Offer(p, _) => p < |s.producers| && s.producers[p] == Idle
    case LockToPush(p) => p < |s.producers| && s.producers[p].Offering? && s.mutex == Free
    case Push(p) => p < |s.producers| && s.producers[p].Pushing?
    case WriteWake(p) => p < |s.producers| && s.producers[p] == OwesWake
    case SetStop => s.stopper == NotCalled
    case StopWake => s.stopper == OwesStopWake
  }

  function Next(s: State, a: Action): (t: State)
    requires Enabled(s, a)
    ensures |t.producers| == |s.producers|
  {
    match a
    case CheckStop => s.(loop := if s.stop then Left else Waiting)
    case Return(batch) => s.(loop := Batch(batch), batches := if s.stop then s.batches + 1 else 0)
    case HandleOther => s.(loop := Batch(s.loop.rest[1..]))
    case ReadWake => s.(loop := Locking(s.loop.rest[1..]), counter := 0)
    case LockToDrain => s.(loop := Draining(s.loop.rest), mutex := ByLoop)
    case RunTask => s.(queue := s.queue[1..], executed := s.executed + [s.queue[0]])
    case Unlock => s.(loop := Batch(s.loop.rest), mutex := Free)
    case EndBatch => s.(loop := Checking)
    case Offer(p, task) => s.(producers := s.producers[p := Offering(task)])
    case LockToPush(p) => s.(producers := s.producers[p := Pushing(s.producers[p].task)], mutex := ByProducer(p))
    case Push(p) =>
      var t := s.producers[p].task;
      s.(producers := s.producers[p := OwesWake], mutex := Free, queue := s.queue + [t], pushed := s.pushed + [t])
    case WriteWake(p) => s.(producers := s.producers[p := Idle], counter := Written(s.counter))
    case SetStop => s.(stop := true, stopper := OwesStopWake)
    case StopWake => s.(stopper := Done, counter := Written(s.counter))
  }

  /** The state after a sequence of actions; an action that is not enabled does not happen. */
  function Exec(s: State, acts: seq<Action>): State
  {
    if acts == [] then s
    else
      var t := Exec(s, acts[..|acts| - 1]);
      if Enabled(t, acts[|acts| - 1]) then Next(t, acts[|acts| - 1]) else t
  }

  // ---------------------------------------------------------------- invariant

  ghost predicate MutexOk(s: State)
  {
    && (s.loop.Draining? <==> s.mutex == ByLoop)
    && (forall p :: 0 <= p < |s.producers| ==> (s.producers[p].Pushing? <==> s.mutex == ByProducer(p)))
    && (s.mutex.ByProducer? ==> s.mutex.p < |s.producers|)
  }

  ghost predicate Fifo(s: State) { s.executed + s.queue == s.pushed }

  ghost predicate Owes(s: State, p: nat) { p < |s.producers| && s.producers[p] == OwesWake }

  /** Queued work is never forgotten: the eventfd is readable, or a producer is still to write it,
      or the loop has read it and not yet finished draining. */
  ghost predicate Noticed(s: State)
  {
    s.queue != [] ==> s.counter > 0 || (exists p :: Owes(s, p)) || s.loop.Locking? || s.loop.Draining?
  }

  ghost predicate StopOk(s: State)
  {
    && s.counter <= COUNTER_MAX
    && (s.stop <==> s.stopper != NotCalled)
    && (s.stopper == Done && s.loop == Waiting ==> s.counter > 0)
    && (s.loop == Waiting ==> s.batches == 0)
    && s.batches <= 1
    && (!s.stop ==> s.batches == 0)
    && (s.loop == Left ==> s.stop)
  }

  ghost predicate Inv(s: State) { MutexOk(s) && Fifo(s) && Noticed(s) && StopOk(s) }

  lemma MutexKeeps(s: State, a: Action)
    requires MutexOk(s) && Enabled(s, a)
    ensures MutexOk(Next(s, a))
  {
  }

  lemma FifoKeeps(s: State, a: Action)
    requires Fifo(s) && Enabled(s, a)
    ensures Fifo(Next(s, a))
  {
    if a.Push? {
      assert s.executed + (s.queue + [s.producers[a.p].task]) == (s.executed + s.queue) + [s.producers[a.p].task];
    } else if a.RunTask? {
      assert s.executed + [s.queue[0]] + s.queue[1..] == s.executed + s.queue;
    }
  }

  lemma NoticedKeeps(s: State, a: Action)
    requires MutexOk(s) && Noticed(s) && Enabled(s, a)
    ensures Noticed(Next(s, a))
  {
    var t := Next(s, a);
    if a.Push? {
      assert Owes(t, a.p);
    } else if s.queue != [] && exists p :: Owes(s, p) {
      var p :| Owes(s, p);
      assert Owes(t, p) || t.counter > 0;
    }
  }

  lemma NextKeeps(s: State, a: Action)
    requires Inv(s) && Enabled(s, a)
    ensures Inv(Next(s, a))
  {
    MutexKeeps(s, a);
    FifoKeeps(s, a);
    NoticedKeeps(s, a);
  }

  lemma {:induction false} Always(s: State, acts: seq<Action>)
    requires Inv(s)
    ensures Inv(Exec(s, acts))
  {
    if acts != [] {
      Always(s, acts[..|acts| - 1]);
      var t := Exec(s, acts[..|acts| - 1]);
      if Enabled(t, acts[|acts| - 1]) {
        NextKeeps(t, acts[|acts| - 1]);
      }
    }
  }

  lemma InitInv(s: State)
    requires Init(s)
    ensures Inv(s)
  {
  }

  // ---------------------------------------------------------------- theorems over every run

  /** The task of the last call of queueinloop by producer p, told from the actions. */
  function LastOffer(s0: State, acts: seq<Action>, p: nat): nat
  {
    if acts == [] then 0
    else
      var before, a := acts[..|acts| - 1], acts[|acts| - 1];
      if a.Offer? && a.p == p && Enabled(Exec(s0, before), a) then a.task else LastOffer(s0, before, p)
  }

  /** The tasks given to queueinloop, in the order in which they were pushed. */
  function Submitted(s0: State, acts: seq<Action>): seq<nat>
  {
    if acts == [] then []
    else
      var before, a := acts[..|acts| - 1], acts[|acts| - 1];
      Submitted(s0, before) + (if a.Push? && Enabled(Exec(s0, before), a) then [LastOffer(s0, before, a.p)] else [])
  }

  /** How many tasks the loop has run. */
  function Ran(s0: State, acts: seq<Action>): nat
  {
    if acts == [] then 0
    else
      var before, a := acts[..|acts| - 1], acts[|acts| - 1];
      Ran(s0, before) + (if a.RunTask? && Enabled(Exec(s0, before), a) then 1 else 0)
  }

  /** How often epoll_wait has returned. */
  function Polls(s0: State, acts: seq<Action>): nat
  {
    if acts == [] then 0
    else
      var before, a := acts[..|acts| - 1], acts[|acts| - 1];
      Polls(s0, before) + (if a.Return? && Enabled(Exec(s0, before), a) then 1 else 0)
  }

  lemma CarriedStep(s: State, a: Action, p: nat)
    requires Enabled(s, a) && p < |s.producers|
    ensures var c, d := s.producers[p], Next(s, a).producers[p];
            d.Offering? || d.Pushing? ==>
              if a.Offer? && a.p == p then d.task == a.task else (c.Offering? || c.Pushing?) && c.task == d.task
  {
  }

  lemma {:induction false} CarriedIsLast(s0: State, acts: seq<Action>, p: nat)
    requires Init(s0) && p < |Exec(s0, acts).producers|
    ensures var c := Exec(s0, acts).producers[p]; c.Offering? || c.Pushing? ==> c.task == LastOffer(s0, acts, p)
  {
    if acts != [] {
      var n := |acts| - 1;
      CarriedIsLast(s0, acts[..n], p);
      if Enabled(Exec(s0, acts[..n]), acts[n]) {
        CarriedStep(Exec(s0, acts[..n]), acts[n], p);
      }
    }
  }

  lemma HistoryStep(s: State, a: Action)
    requires Enabled(s, a)
    ensures Next(s, a).pushed == s.pushed + (if a.Push? then [s.producers[a.p].task] else [])
    ensures |Next(s, a).executed| == |s.executed| + (if a.RunTask? then 1 else 0)
  {
  }

  /** The loop's history is what the actions say. */
  lemma {:induction false} HistoryIs(s0: State, acts: seq<Action>)
    requires Init(s0)
    ensures Exec(s0, acts).pushed == Submitted(s0, acts) && |Exec(s0, acts).executed| == Ran(s0, acts)
  {
    if acts != [] {
      var n := |acts| - 1;
      HistoryIs(s0, acts[..n]);
      var s := Exec(s0, acts[..n]);
      if Enabled(s, acts[n]) {
        HistoryStep(s, acts[n]);
        if acts[n].Push? {
          CarriedIsLast(s0, acts[..n], acts[n].p);
        }
      }
    }
  }

  /** Writes to the eventfd since it was last read. */
  function WritesPending(s0: State, acts: seq<Action>): nat
  {
    if acts == [] then 0
    else
      var before, a := acts[..|acts| - 1], acts[|acts| - 1];
      if !Enabled(Exec(s0, before), a) then WritesPending(s0, before)
      else if a.ReadWake? then 0
      else WritesPending(s0, before) + (if a.WriteWake? || a.StopWake? then 1 else 0)
  }

  /** The eventfd's counter is the number of writes since its last read, up to its maximum. */
  lemma {:induction false} CounterIs(s0: State, acts: seq<Action>)
    requires Init(s0)
    ensures var n := WritesPending(s0, acts); Exec(s0, acts).counter == if n < COUNTER_MAX then n else COUNTER_MAX
  {
    if acts != [] {
      CounterIs(s0, acts[..|acts| - 1]);
    }
  }

  /** No lost wake-up, FIFO and exactly once, in every interleaving and also when the counter is
      saturated: the tasks run, as many as there were runs, followed by those queued are the tasks given
      to queueinloop in the order of their pushes; queued work always has a readable eventfd, a producer
      about to write it, or a loop between its read and the end of its drain. So a loop asleep in
      epoll_wait over a non-empty queue, with nobody in queueinloop, is about to wake. */
  lemma {:induction false} NoLostWakeup(s0: State, acts: seq<Action>)
    requires Init(s0)
    ensures var s := Exec(s0, acts);
            && s.executed + s.queue == Submitted(s0, acts) && |s.executed| == Ran(s0, acts)
            && (s.queue != [] ==>
                  s.counter > 0 || (exists p :: Owes(s, p)) || s.loop.Locking? || s.loop.Draining?)
            && (s.queue != [] && s.loop == Waiting && (forall p :: !Owes(s, p)) ==> Enabled(s, Return([Wake])))
  {
    InitInv(s0);
    Always(s0, acts);
    HistoryIs(s0, acts);
  }

  lemma {:induction false} PollsCounted(s0: State, acts: seq<Action>, n: nat)
    requires n <= |acts| && Exec(s0, acts[..n]).stop
    ensures Exec(s0, acts).stop
    ensures Exec(s0, acts).batches - Exec(s0, acts[..n]).batches == Polls(s0, acts) - Polls(s0, acts[..n])
    decreases |acts|
  {
    if n == |acts| {
      assert acts[..n] == acts;
    } else {
      assert acts[..|acts| - 1][..n] == acts[..n];
      PollsCounted(s0, acts[..|acts| - 1], n);
    }
  }

  /** Stop is never missed: once `stop` has returned, the loop never sits in epoll_wait over an
      unreadable eventfd, and from any moment on at which stop_ is set epoll_wait returns at most once
      more. */
  lemma {:induction false} StopNeverMissed(s0: State, acts: seq<Action>, n: nat)
    requires Init(s0) && n <= |acts|
    ensures var s := Exec(s0, acts);
            && (s.stopper == Done && s.loop == Waiting ==> s.counter > 0 && Enabled(s, Return([Wake])))
            && (Exec(s0, acts[..n]).stop ==> Polls(s0, acts) <= Polls(s0, acts[..n]) + 1)
  {
    InitInv(s0);
    Always(s0, acts);
    if Exec(s0, acts[..n]).stop {
      PollsCounted(s0, acts, n);
    }
  }

  // ---------------------------------------------------------------- the loop ends after stop

  /** What the loop still has to do after stop: whether it has yet to return from epoll_wait, the
      channels left, the stage within one channel, and the tasks left to drain. */
  datatype Work = Work(waits: nat, channels: nat, stage: nat, tasks: nat)

  function WorkLeft(s: State): Work
  {
    match s.loop
    case Waiting => Work(1, 0, 0, 0)
    case Batch(rest) => Work(0, |rest| + 1, 0, 0)
    case Locking(rest) => Work(0, |rest| + 1, 2, 0)
    case Draining(rest) => Work(0, |rest| + 1, 1, |s.queue|)
    case Checking => Work(0, 0, 1, 0)
    case Left => Work(0, 0, 0, 0)
  }

  /** The lexicographic order, which is well-founded. */
  predicate Less(a: Work, b: Work)
  {
    || a.waits < b.waits
    || (a.waits == b.waits && a.channels < b.channels)
    || (a.waits == b.waits && a.channels == b.channels && a.stage < b.stage)
    || (a.waits == b.waits && a.channels == b.channels && a.stage == b.stage && a.tasks < b.tasks)
  }

  predicate OfLoop(a: Action)
  {
    a.CheckStop? || a.Return? || a.HandleOther? || a.ReadWake? || a.LockToDrain? || a.RunTask? || a.Unlock? || a.EndBatch?
  }

  /** After stop every step of the loop lowers what it has left and no other thread's step raises it;
      until it has left it can step (in another channel's callback, that step is the callback's
      return), or whoever holds the queue's mutex can. */
  lemma LoopLeaves(s: State, a: Action) returns (b: Action)
    requires Inv(s) && s.stop && Enabled(s, a)
    ensures if OfLoop(a) then Less(WorkLeft(Next(s, a)), WorkLeft(s)) else WorkLeft(Next(s, a)) == WorkLeft(s)
    ensures s.loop != Left ==> Enabled(s, b) && (OfLoop(b) || b.Push?)
  {
    b := match s.loop
      case Checking => CheckStop
      case Waiting => Return([])
      case Batch(rest) => if rest == [] then EndBatch else if rest[0] != Wake then HandleOther else ReadWake
      case Locking(rest) => if s.mutex == Free then LockToDrain else Push(if s.mutex.ByProducer? then s.mutex.p else 0)
      case Draining(rest) => if s.queue == [] then Unlock else RunTask
      case Left => a;
  }

  // ---------------------------------------------------------------- progress before stop

  /** Steps that are bound to come: no new queueinloop or stop, and from epoll_wait only the return
      that a readable eventfd forces. */
  predicate Internal(a: Action) { !a.Offer? && !a.SetStop? && (a.Return? ==> a.batch == [Wake]) }

  /** What the channels of a batch cost: a wake-up channel is read, locked for and unlocked after. */
  function Load(rest: seq<Source>): nat
  {
    if rest == [] then 0 else (if rest[0] == Wake then 3 else 1) + Load(rest[1..])
  }

  function PlaceWeight(l: Place): nat
  {
    match l
    case Waiting => 0
    case Left => 0
    case Checking => 1
    case Batch(rest) => Load(rest) + 2
    case Draining(rest) => Load(rest) + 3
    case Locking(rest) => Load(rest) + 4
  }

  /** A readable eventfd not yet reported brings one more round of the loop. */
  function WakeWeight(s: State): nat
  {
    if s.counter == 0 || (s.loop.Batch? && Wake in s.loop.rest) then 0 else 6
  }

  function ProducerWeight(p: Producer): nat
  {
    match p
    case Idle => 0
    case OwesWake => 7
    case Pushing(_) => 9
    case Offering(_) => 10
  }

  function ProducersWeight(ps: seq<Producer>): nat
  {
    if ps == [] then 0 else ProducerWeight(ps[0]) + ProducersWeight(ps[1..])
  }

  /** A bound on the steps left until the loop rests in epoll_wait. */
  function Weight(s: State): nat
  {
    PlaceWeight(s.loop) + WakeWeight(s) + |s.queue| + ProducersWeight(s.producers)
  }

  lemma {:induction false} ProducersWeightUpdate(ps: seq<Producer>, i: nat, p: Producer)
    requires i < |ps|
    ensures ProducersWeight(ps[i := p]) == ProducersWeight(ps) - ProducerWeight(ps[i]) + ProducerWeight(p)
  {
    if i == 0 {
      assert ps[i := p][1..] == ps[1..];
    } else {
      ProducersWeightUpdate(ps[1..], i - 1, p);
      assert ps[i := p][1..] == ps[1..][i - 1 := p];
    }
  }

  lemma LoopStepWeight(s: State, a: Action)
    requires Enabled(s, a) && OfLoop(a) && Internal(a)
    ensures var t := Next(s, a);
            PlaceWeight(t.loop) + WakeWeight(t) + |t.queue| < PlaceWeight(s.loop) + WakeWeight(s) + |s.queue|
            && t.producers == s.producers && t.stop == s.stop
  {
    match a
    case Return(batch) => assert Load([Wake]) == 3 + Load([Wake][1..]);
    case HandleOther => assert s.loop.rest == [s.loop.rest[0]] + s.loop.rest[1..];
    case _ =>
  }

  /** Every step bound to come lowers the weight, but the write that is part of stop. */
  lemma WeightDrops(s: State, a: Action)
    requires StopOk(s) && Enabled(s, a) && Internal(a) && s.stopper != OwesStopWake
    ensures Weight(Next(s, a)) < Weight(s) && Next(s, a).stop == s.stop
  {
    match a
    case LockToPush(p) => ProducersWeightUpdate(s.producers, p, Pushing(s.producers[p].task));
    case Push(p) => ProducersWeightUpdate(s.producers, p, OwesWake);
    case WriteWake(p) => ProducersWeightUpdate(s.producers, p, Idle);
    case _ => LoopStepWeight(s, a);
  }

  /** Before stop, whoever holds the queue's mutex can go on. */
  lemma HolderMoves(s: State) returns (a: Action)
    requires MutexOk(s) && s.mutex != Free
    ensures Enabled(s, a) && Internal(a) && (if s.loop.Draining? then OfLoop(a) else a.Push?)
  {
    match s.mutex
    case ByProducer(p) => a := Push(p);
    case ByLoop => a := if s.queue == [] then Unlock else RunTask;
  }

  /** The loop's own next step while it has one. */
  lemma LoopMoves(s: State) returns (a: Action)
    requires Inv(s) && !s.stop && (s.loop == Waiting ==> s.counter > 0)
    ensures Enabled(s, a) && Internal(a)
  {
    match s.loop
    case Checking => a := CheckStop;
    case Waiting => a := Return([Wake]);
    case Batch(rest) => a := if rest == [] then EndBatch else if rest[0] != Wake then HandleOther else ReadWake;
    case Locking(rest) => if s.mutex == Free { a := LockToDrain; } else { a := HolderMoves(s); }
    case Draining(rest) => a := HolderMoves(s);
  }

  /** Once stop has returned the loop has a next step until it has left. */
  lemma StoppedMoves(s: State) returns (a: Action)
    requires Inv(s) && s.stopper == Done && s.loop != Left
    ensures Enabled(s, a) && Internal(a) && (OfLoop(a) || a.Push?)
  {
    match s.loop
    case Checking => a := CheckStop;
    case Waiting => a := Return([Wake]);
    case Batch(rest) => a := if rest == [] then EndBatch else if rest[0] != Wake then HandleOther else ReadWake;
    case Locking(rest) => if s.mutex == Free { a := LockToDrain; } else { a := HolderMoves(s); }
    case Draining(rest) => a := HolderMoves(s);
  }

  /** Every action of the sequence happens. */
  ghost predicate Legal(s: State, acts: seq<Action>)
  {
    acts == [] || (Legal(s, acts[..|acts| - 1]) && Enabled(Exec(s, acts[..|acts| - 1]), acts[|acts| - 1]))
  }

  ghost predicate AllInternal(acts: seq<Action>) { forall i :: 0 <= i < |acts| ==> Internal(acts[i]) }

  lemma {:induction false} WeightBoundsRuns(s: State, acts: seq<Action>)
    requires Inv(s) && !s.stop && Legal(s, acts) && AllInternal(acts)
    ensures |acts| + Weight(Exec(s, acts)) <= Weight(s) && Inv(Exec(s, acts)) && !Exec(s, acts).stop
  {
    if acts != [] {
      WeightBoundsRuns(s, acts[..|acts| - 1]);
      var t := Exec(s, acts[..|acts| - 1]);
      WeightDrops(t, acts[|acts| - 1]);
      NextKeeps(t, acts[|acts| - 1]);
    }
  }

  /** Progress before stop: from every reachable state the steps bound to come are at most Weight many
      in any interleaving, and as long as a task waits one of them is possible (in another channel's
      callback, its return); so without further calls every queued task is run within Weight steps,
      provided those callbacks return. */
  lemma {:induction false} LoopProgress(s0: State, acts: seq<Action>, more: seq<Action>) returns (a: Action)
    requires Init(s0) && !Exec(s0, acts).stop && Legal(Exec(s0, acts), more) && AllInternal(more)
    ensures |more| <= Weight(Exec(s0, acts))
    ensures var t := Exec(Exec(s0, acts), more); t.queue != [] ==> Enabled(t, a) && Internal(a)
  {
    InitInv(s0);
    Always(s0, acts);
    WeightBoundsRuns(Exec(s0, acts), more);
    var t := Exec(Exec(s0, acts), more);
    a := CheckStop;
    if t.queue != [] {
      if p :| Owes(t, p) {
        a := WriteWake(p);
      } else {
        a := LoopMoves(t);
      }
    }
  }

  // ---------------------------------------------------------------- one call at a time

  /** What a call of the loop's methods can see and change. */
  datatype View = View(queue: seq<nat>, counter: nat, stop: bool, ran: seq<nat>)

  function Seen(s: State): View { View(s.queue, s.counter, s.stop, s.executed) }

  function AfterQueue(v: View, fn: nat): View { v.(queue := v.queue + [fn], counter := Written(v.counter)) }

  function AfterStop(v: View): View { v.(stop := true, counter := Written(v.counter)) }

  /** All queued tasks have run once, in order. */
  function AfterDrain(v: View): View { v.(queue := [], counter := 0, ran := v.ran + v.queue) }

  lemma {:induction false} ExecStep(s: State, acts: seq<Action>, a: Action)
    ensures Exec(s, acts + [a]) == var t := Exec(s, acts); if Enabled(t, a) then Next(t, a) else t
  {
    assert (acts + [a])[..|acts|] == acts;
  }

  lemma QueueSteps(s: State, p: nat, fn: nat)
    requires p < |s.producers| && s.producers[p] == Idle && s.mutex == Free
    ensures var t := Next(s, Offer(p, fn));
            && Enabled(t, LockToPush(p))
            && var u := Next(t, LockToPush(p));
               && Enabled(u, Push(p))
               && var v := Next(u, Push(p));
                  Enabled(v, WriteWake(p)) && Seen(Next(v, WriteWake(p))) == AfterQueue(Seen(s), fn)
  {
  }

  /** The steps of an undisturbed `queueinloop` add up to what the call does. */
  lemma {:induction false} QueueCall(s: State, p: nat, fn: nat)
    requires p < |s.producers| && s.producers[p] == Idle && s.mutex == Free
    ensures Seen(Exec(s, [Offer(p, fn)] + [LockToPush(p)] + [Push(p)] + [WriteWake(p)])) == AfterQueue(Seen(s), fn)
  {
    QueueSteps(s, p, fn);
    var acts := [Offer(p, fn)];
    ExecStep(s, [], Offer(p, fn));
    assert [] + acts == acts && Exec(s, acts) == Next(s, Offer(p, fn));
    ExecStep(s, acts, LockToPush(p));
    acts := acts + [LockToPush(p)];
    ExecStep(s, acts, Push(p));
    ExecStep(s, acts + [Push(p)], WriteWake(p));
  }

  /** The same for `stop`. */
  lemma {:induction false} StopCall(s: State)
    requires s.stopper == NotCalled
    ensures Seen(Exec(s, [SetStop] + [StopWake])) == AfterStop(Seen(s))
  {
    ExecStep(s, [], SetStop);
    assert [] + [SetStop] == [SetStop];
    ExecStep(s, [SetStop], StopWake);
  }

  function Runs(n: nat): seq<Action> { if n == 0 then [] else Runs(n - 1) + [RunTask] }

  lemma {:induction false} RunsDrain(s: State, acts: seq<Action>, n: nat)
    requires Exec(s, acts).loop.Draining? && n <= |Exec(s, acts).queue|
    ensures var t := Exec(s, acts);
            Exec(s, acts + Runs(n)) == t.(queue := t.queue[n..], executed := t.executed + t.queue[..n])
  {
    var t := Exec(s, acts);
    if n == 0 {
      assert acts + Runs(0) == acts;
      assert t.queue[0..] == t.queue && t.executed + t.queue[..0] == t.executed;
    } else {
      RunsDrain(s, acts, n - 1);
      assert acts + Runs(n) == (acts + Runs(n - 1)) + [RunTask];
      ExecStep(s, acts + Runs(n - 1), RunTask);
      assert t.queue[n - 1..][1..] == t.queue[n..] && t.queue[n - 1..][0] == t.queue[n - 1];
      assert t.executed + t.queue[..n - 1] + [t.queue[n - 1]] == t.executed + t.queue[..n];
    }
  }

  /** The same for `handlewakeup`, whose loop runs as many tasks as it finds. */
  lemma {:induction false} DrainCall(s: State)
    requires s.loop.Batch? && s.loop.rest != [] && s.loop.rest[0] == Wake && s.mutex == Free
    ensures Seen(Exec(s, [ReadWake] + [LockToDrain] + Runs(|s.queue|) + [Unlock])) == AfterDrain(Seen(s))
  {
    ExecStep(s, [], ReadWake);
    assert [] + [ReadWake] == [ReadWake];
    ExecStep(s, [ReadWake], LockToDrain);
    var acts := [ReadWake] + [LockToDrain];
    RunsDrain(s, acts, |s.queue|);
    assert s.queue[|s.queue|..] == [] && s.queue[..|s.queue|] == s.queue;
    ExecStep(s, acts + Runs(|s.queue|), Unlock);
  }

  /** The task queue of an EventLoop with its eventfd. Tasks are numbers; `ran` records the calls. */
  class TaskQueue {
    var taskqueue: seq<nat>
    var counter: nat
    var stop: bool
    ghost var ran: seq<nat>

    ghost function Now(): View
      reads this
    {
      View(taskqueue, counter, stop, ran)
    }

    constructor ()
      ensures Now() == View([], 0, false, [])
    {
      taskqueue, counter, stop, ran := [], 0, false, [];
    }

    method Wakeup()
      modifies this`counter
      ensures counter == Written(old(counter))
      ensures counter == old(counter) + 1 || (old(counter) >= COUNTER_MAX && counter == old(counter))
    {
      if counter < COUNTER_MAX {
        counter := counter + 1;
      }
    }

    method QueueInLoop(fn: nat)
      modifies this`taskqueue, this`counter
      ensures Now() == AfterQueue(old(Now()), fn)
    {
      taskqueue := taskqueue + [fn];
      Wakeup();
    }

    method StopLoop()
      modifies this`stop, this`counter
      ensures Now() == AfterStop(old(Now()))
    {
      stop := true;
      Wakeup();
    }

    method HandleWakeup()
      modifies this`taskqueue, this`counter, this`ran
      ensures Now() == AfterDrain(old(Now()))
    {
      counter := 0;
      while |taskqueue| > 0
        invariant ran + taskqueue == old(ran) + old(taskqueue)
        invariant counter == 0
        decreases |taskqueue|
      {
        var fn := taskqueue[0];
        taskqueue := taskqueue[1..];
        ran := ran + [fn];
      }
    }
  }
}
