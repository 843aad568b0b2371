/** The worker pool: workers, producers calling `addtask` and one caller of `Stop`, interleaved step
    by step around one mutex, one condition variable and the atomic flag `stop_`. A task's execution is
    one step, `Finish`: statements about progress and about Stop take it that every task returns. */
module ThreadPools {

  /** A worker's place in the lambda of the constructor. */
  datatype Worker =
    | Top                 // about to test stop_ in the outer while
    | WantLock            // constructing the unique_lock
    | Testing             // holds the mutex, about to evaluate wait's predicate
    | ToBlock             // holds the mutex, predicate was false, about to release it and sleep
    | Asleep              // blocked in wait, not notified
    | Woken               // notified, re-acquiring the mutex
    | Deciding            // holds the mutex, predicate was true
    | Running(pos: nat)   // executing the pos-th dequeued task
    | Exited

  /** A producer's place in `addtask`. */
  datatype Producer = Idle | Offering(task: nat) | Pushing(task: nat) | OwesNotify

  /** The place in `Stop`: store, notify_all, then join the workers in order. */
  datatype Stopper = NotCalled | Notifying | Joining(next: nat)

  datatype Holder = Free | ByWorker(w: nat) | ByProducer(p: nat)

  /** `added`, `taken`, `finished`, `cut` and `late` are history: the tasks pushed, the tasks dequeued,
      the positions in `taken` whose task has returned, |taken| when stop_ was set, and the workers
      that dequeued after that. */
  datatype State = State(
    queue: seq<nat>, mutex: Holder, stop: bool,
    workers: seq<Worker>, producers: seq<Producer>, stopper: Stopper,
    added: seq<nat>, taken: seq<nat>, finished: set<nat>, cut: nat, late: set<nat>)

  predicate Init(s: State)
  {
    && s.queue == [] && s.mutex == Free && !s.stop && s.stopper == NotCalled
    && (forall w :: 0 <= w < |s.workers| ==> s.workers[w] == Top)
    && (forall p :: 0 <= p < |s.producers| ==> s.producers[p] == Idle)
    && s.added == [] && s.taken == [] && s.finished == {} && s.cut == 0 && s.late == {}
  }

  datatype Action =
    | Enter(w: nat)                // while (stop_ == false)
    | Lock(w: nat)                 // take the mutex, first time or inside wait
    | Test(w: nat)                 // the predicate of wait
    | Block(w: nat)                // release and sleep, atomically
    | Spurious(w: nat)             // wait may return without a notify
    | Take(w: nat)                 // leave, or dequeue one task, and release
    | Finish(w: nat)               // the task returns
    | Offer(p: nat, task: nat)     // addtask is called
    | LockToPush(p: nat)
    | Push(p: nat)                 // push and release
    | Notify(p: nat, w: nat)       // notify_one; w is the sleeper it wakes, if any sleeps
    | SetStop
    | NotifyAll
    | Join

  predicate IsAt(s: State, w: nat, at: Worker) { w < |s.workers| && s.workers[w] == at }

  predicate NoneAsleep(s: State) { forall w :: 0 <= w < |s.workers| ==> s.workers[w] != Asleep }

  predicate Enabled(s: State, a: Action)
  {
    match a
    case Enter(w) => IsAt(s, w, Top)
    case Lock(w) => (IsAt(s, w, WantLock) || IsAt(s, w, Woken)) && s.mutex == Free
    case Test(w) => IsAt(s, w, Testing)
    case Block(w) => IsAt(s, w, ToBlock)
    case Spurious(w) => IsAt(s, w, Asleep)
    case Take(w) => IsAt(s, w, Deciding) && (s.stop || s.queue != [])
    case Finish(w) => w < |s.workers| && s.workers[w].Running?
    case Offer(p, _) => p < |s.producers| && s.producers[p] == Idle
    case LockToPush(p) => p < |s.producers| && s.producers[p].Offering? && s.mutex == Free
    case Push(p) => p < |s.producers| && s.producers[p].Pushing?
    case Notify(p, w) => p < |s.producers| && s.producers[p] == OwesNotify && (NoneAsleep(s) || IsAt(s, w, Asleep))
    case SetStop => s.stopper == NotCalled && !s.stop
    case NotifyAll => s.stopper == Notifying
    case Join => s.stopper.Joining? && IsAt(s, s.stopper.next, Exited)
  }

  function Move(s: State, w: nat, to: Worker): State
    requires w < |s.workers|
  {
    s.(workers := s.workers[w := to])
  }

  function WakeAll(ws: seq<Worker>): (r: seq<Worker>)
    ensures |r| == |ws|
    ensures forall w :: 0 <= w < |ws| ==> r[w] == if ws[w] == Asleep then Woken else ws[w]
  {
    seq(|ws|, w requires 0 <= w < |ws| => if ws[w] == Asleep then Woken else ws[w])
  }

  function Next(s: State, a: Action): (t: State)
    requires Enabled(s, a)
    ensures |t.workers| == |s.workers| && |t.producers| == |s.producers|
  {
    match a
    case Enter(w) => Move(s, w, if s.stop then Exited else WantLock)
    case Lock(w) => Move(s, w, Testing).(mutex := ByWorker(w))
    case Test(w) => Move(s, w, if s.stop || s.queue != [] then Deciding else ToBlock)
    case Block(w) => Move(s, w, Asleep).(mutex := Free)
    case Spurious(w) => Move(s, w, Woken)
    case Take(w) =>
      if s.stop && s.queue == [] then Move(s, w, Exited).(mutex := Free)
      else Move(s, w, Running(|s.taken|)).(
             mutex := Free, queue := s.queue[1..], taken := s.taken + [s.queue[0]],
             late := if s.stop then s.late + {w} else s.late)
    case Finish(w) => Move(s, w, Top).(finished := s.finished + {s.workers[w].pos})
    case Offer(p, task) => s.(producers := s.producers[p := Offering(task)])
    case LockToPush(p) =>
      s.(producers := s.producers[p := Pushing(s.producers[p].task)], mutex := ByProducer(p))
    case Push(p) =>
      var t := s.producers[p].task;
      s.(producers := s.producers[p := OwesNotify], mutex := Free, queue := s.queue + [t], added := s.added + [t])
    case Notify(p, w) =>
      var t := s.(producers := s.producers[p := Idle]);
      if IsAt(s, w, Asleep) then Move(t, w, Woken) else t
    case SetStop => s.(stop := true, stopper := Notifying, cut := |s.taken|)
    case NotifyAll => s.(workers := WakeAll(s.workers), stopper := Joining(0))
    case Join => s.(stopper := Joining(s.stopper.next + 1))
  }

  /** The state after a sequence of actions; an action that is not enabled does not happen. */
  function Exec(s: State, acts: seq<Action>): State
  {
    if acts == [] then s
    else
      var t := Exec(s, acts[..|acts| - 1]);
      if Enabled(t, acts[|acts| - 1]) then Next(t, acts[|acts| - 1]) else t
  }

  // ---------------------------------------------------------------- invariant

  /** The mutex is held exactly by the thread inside the critical section. */
  ghost predicate MutexOk(s: State) { WorkerMutex(s) && ProducerMutex(s) }

  ghost predicate WorkerMutex(s: State)
  {
    && (forall w :: 0 <= w < |s.workers| ==>
          (s.workers[w] in {Testing, ToBlock, Deciding} <==> s.mutex == ByWorker(w)))
    && (s.mutex.ByWorker? ==> s.mutex.w < |s.workers|)
  }

  ghost predicate ProducerMutex(s: State)
  {
    && (forall p :: 0 <= p < |s.producers| ==> (s.producers[p].Pushing? <==> s.mutex == ByProducer(p)))
    && (s.mutex.ByProducer? ==> s.mutex.p < |s.producers|)
  }

  /** What a worker's place says about the shared state. */
  ghost predicate PlacesOk(s: State)
  {
    forall w :: 0 <= w < |s.workers| ==>
      && (s.workers[w] == ToBlock ==> s.queue == [])
      && (s.workers[w] == Deciding ==> s.stop || s.queue != [])
      && (s.workers[w] == Exited ==> s.stop)
  }

  /** Dequeued tasks followed by the queue are the tasks added, in order. */
  ghost predicate Fifo(s: State) { s.taken + s.queue == s.added }

  /** Positions held by workers are distinct, unfinished and within `taken`. */
  ghost predicate HeldOnce(s: State) { HeldUnfinished(s) && HeldApart(s) }

  ghost predicate HeldUnfinished(s: State)
  {
    && (forall w :: 0 <= w < |s.workers| && s.workers[w].Running? ==>
          s.workers[w].pos < |s.taken| && s.workers[w].pos !in s.finished)
    && (forall k :: k in s.finished ==> 0 <= k < |s.taken|)
  }

  ghost predicate HeldApart(s: State)
  {
    forall v, w :: 0 <= v < w < |s.workers| && s.workers[v].Running? && s.workers[w].Running? ==>
      s.workers[v].pos != s.workers[w].pos
  }

  ghost predicate HeldBy(s: State, k: nat, w: nat) { IsAt(s, w, Running(k)) }

  /** Every dequeued task has returned or is being run. */
  ghost predicate NoneLost(s: State)
  {
    forall k :: 0 <= k < |s.taken| ==> k in s.finished || exists w :: HeldBy(s, k, w)
  }

  ghost predicate Awake(s: State, w: nat) { w < |s.workers| && s.workers[w] != Asleep }

  ghost predicate Owes(s: State, p: nat) { p < |s.producers| && s.producers[p] == OwesNotify }

  /** Before stop a non-empty queue always has someone about to look at it. */
  ghost predicate NotStuck(s: State)
  {
    !s.stop && s.queue != [] && s.workers != [] ==> (exists w :: Awake(s, w)) || (exists p :: Owes(s, p))
  }

  /** After stop every worker dequeues at most once more. */
  ghost predicate LateOk(s: State) { LatePlaces(s) && LateCount(s) }

  ghost predicate LatePlaces(s: State)
  {
    forall w :: w in s.late ==> w < |s.workers| && (s.workers[w].Running? || s.workers[w] == Top || s.workers[w] == Exited)
  }

  ghost predicate LateCount(s: State)
  {
    && (if s.stop then |s.taken| == s.cut + |s.late| else s.late == {})
    && (s.stopper != NotCalled <==> s.stop)
  }

  ghost predicate Inv(s: State)
  {
    MutexOk(s) && PlacesOk(s) && Fifo(s) && HeldOnce(s) && NoneLost(s) && NotStuck(s) && LateOk(s)
  }

  lemma WorkerMutexKeeps(s: State, a: Action)
    requires MutexOk(s) && Enabled(s, a)
    ensures WorkerMutex(Next(s, a))
  {
  }

  lemma ProducerMutexKeeps(s: State, a: Action)
    requires MutexOk(s) && Enabled(s, a)
    ensures ProducerMutex(Next(s, a))
  {
  }

  lemma PlacesKeeps(s: State, a: Action)
    requires MutexOk(s) && PlacesOk(s) && Enabled(s, a)
    ensures PlacesOk(Next(s, a))
  {
  }

  lemma FifoKeeps(s: State, a: Action)
    requires Fifo(s) && Enabled(s, a)
    ensures Fifo(Next(s, a))
  {
    if a.Push? {
      assert s.taken + (s.queue + [s.producers[a.p].task]) == (s.taken + s.queue) + [s.producers[a.p].task];
    } else if a.Take? && s.queue != [] {
      assert s.taken + [s.queue[0]] + s.queue[1..] == s.taken + s.queue;
    }
  }

  lemma HeldUnfinishedKeeps(s: State, a: Action)
    requires HeldOnce(s) && Enabled(s, a)
    ensures HeldUnfinished(Next(s, a))
  {
  }

  lemma HeldApartKeeps(s: State, a: Action)
    requires HeldOnce(s) && Enabled(s, a)
    ensures HeldApart(Next(s, a))
  {
  }

  lemma NoneLostKeeps(s: State, a: Action)
    requires NoneLost(s) && Enabled(s, a)
    ensures NoneLost(Next(s, a))
  {
    var t := Next(s, a);
    forall k | 0 <= k < |t.taken|
      ensures k in t.finished || exists w :: HeldBy(t, k, w)
    {
      if k == |s.taken| {
        assert HeldBy(t, k, a.w);
      } else if k !in s.finished {
        var w :| HeldBy(s, k, w);
        assert k in t.finished || HeldBy(t, k, w);
      }
    }
  }

  lemma NotStuckKeeps(s: State, a: Action)
    requires MutexOk(s) && PlacesOk(s) && NotStuck(s) && Enabled(s, a)
    ensures NotStuck(Next(s, a))
  {
    var t := Next(s, a);
    if !t.stop && t.queue != [] && t.workers != [] {
      if a.Push? {
        assert Owes(t, a.p);
      } else if a.Notify? {
        if IsAt(s, a.w, Asleep) {
          assert Awake(t, a.w);
        } else {
          assert Awake(t, 0);
        }
      } else if exists p :: Owes(s, p) {
        var p :| Owes(s, p);
        assert Owes(t, p);
      } else {
        var w :| Awake(s, w);
        assert Awake(t, w);
      }
    }
  }

  lemma LatePlacesKeep(s: State, a: Action)
    requires LateOk(s) && Enabled(s, a)
    ensures LatePlaces(Next(s, a))
  {
  }

  lemma LateCountKeeps(s: State, a: Action)
    requires LateOk(s) && Enabled(s, a)
    ensures LateCount(Next(s, a))
  {
    if a.Take? && s.stop && s.queue != [] {
      assert a.w !in s.late;
    }
  }

  lemma NextKeeps(s: State, a: Action)
    requires Inv(s) && Enabled(s, a)
    ensures Inv(Next(s, a))
  {
    WorkerMutexKeeps(s, a);
    ProducerMutexKeeps(s, a);
    PlacesKeeps(s, a);
    FifoKeeps(s, a);
    HeldUnfinishedKeeps(s, a);
    HeldApartKeeps(s, a);
    NoneLostKeeps(s, a);
    NotStuckKeeps(s, a);
    LatePlacesKeep(s, a);
    LateCountKeeps(s, a);
  }

  lemma {:induction false} Always(s: State, acts: seq<Action>)
    requires Inv(s)
    ensures Inv(Exec(s, acts))
  {
    if acts != [] {
      Always(s, acts[..|acts| - 1]);
      var t := Exec(s, acts[..|acts| - 1]);
      if Enabled(t, acts[|acts| - 1]) {
        NextKeeps(t, acts[|acts| - 1]);
      }
    }
  }

  lemma InitInv(s: State)
    requires Init(s)
    ensures Inv(s)
  {
  }

  // ---------------------------------------------------------------- theorems over every run

  /** Position k of the dequeued tasks is run by w and by nobody else, and is not finished. */
  ghost predicate HeldOnlyBy(s: State, k: nat, w: nat)
  {
    HeldBy(s, k, w) && k !in s.finished && forall v :: HeldBy(s, k, v) ==> v == w
  }

  /** The task of the last call of addtask by producer p, told from the actions. */
  function LastOffer(s0: State, acts: seq<Action>, p: nat): nat
  {
    if acts == [] then 0
    else
      var before, a := acts[..|acts| - 1], acts[|acts| - 1];
      if a.Offer? && a.p == p && Enabled(Exec(s0, before), a) then a.task else LastOffer(s0, before, p)
  }

  /** The tasks given to addtask, in the order in which they were pushed. */
  function Submitted(s0: State, acts: seq<Action>): seq<nat>
  {
    if acts == [] then []
    else
      var before, a := acts[..|acts| - 1], acts[|acts| - 1];
      Submitted(s0, before) + (if a.Push? && Enabled(Exec(s0, before), a) then [LastOffer(s0, before, a.p)] else [])
  }

  /** How many tasks have returned. */
  function Returned(s0: State, acts: seq<Action>): nat
  {
    if acts == [] then 0
    else
      var before, a := acts[..|acts| - 1], acts[|acts| - 1];
      Returned(s0, before) + (if a.Finish? && Enabled(Exec(s0, before), a) then 1 else 0)
  }

  lemma CarriedStep(s: State, a: Action, p: nat)
    requires Enabled(s, a) && p < |s.producers|
    ensures var c, d := s.producers[p], Next(s, a).producers[p];
            d.Offering? || d.Pushing? ==>
              if a.Offer? && a.p == p then d.task == a.task else (c.Offering? || c.Pushing?) && c.task == d.task
  {
  }

  lemma {:induction false} CarriedIsLast(s0: State, acts: seq<Action>, p: nat)
    requires Init(s0) && p < |Exec(s0, acts).producers|
    ensures var c := Exec(s0, acts).producers[p]; c.Offering? || c.Pushing? ==> c.task == LastOffer(s0, acts, p)
  {
    if acts != [] {
      var n := |acts| - 1;
      CarriedIsLast(s0, acts[..n], p);
      if Enabled(Exec(s0, acts[..n]), acts[n]) {
        CarriedStep(Exec(s0, acts[..n]), acts[n], p);
      }
    }
  }

  lemma HistoryStep(s: State, a: Action)
    requires Inv(s) && Enabled(s, a)
    ensures Next(s, a).added == s.added + (if a.Push? then [s.producers[a.p].task] else [])
    ensures |Next(s, a).finished| == |s.finished| + (if a.Finish? then 1 else 0)
  {
    if a.Finish? {
      assert s.workers[a.w].pos !in s.finished;
    }
  }

  /** The pool's history is what the actions say. */
  lemma {:induction false} HistoryIs(s0: State, acts: seq<Action>)
    requires Init(s0)
    ensures Exec(s0, acts).added == Submitted(s0, acts) && |Exec(s0, acts).finished| == Returned(s0, acts)
  {
    if acts != [] {
      var n := |acts| - 1;
      HistoryIs(s0, acts[..n]);
      InitInv(s0);
      Always(s0, acts[..n]);
      var s := Exec(s0, acts[..n]);
      if Enabled(s, acts[n]) {
        HistoryStep(s, acts[n]);
        if acts[n].Push? {
          CarriedIsLast(s0, acts[..n], acts[n].p);
        }
      }
    }
  }

  /** FIFO and exactly once: in every run the dequeued tasks followed by the queue are the tasks given
      to addtask, in the order of their pushes, and each dequeued one is either finished, held by
      nobody, or held by exactly one worker and unfinished; as many are finished as have returned. */
  lemma {:induction false} FifoExactlyOnce(s0: State, acts: seq<Action>)
    requires Init(s0)
    ensures var s := Exec(s0, acts);
            && s.taken + s.queue == Submitted(s0, acts) && |s.finished| == Returned(s0, acts)
            && (forall k :: k in s.finished ==> 0 <= k < |s.taken| && forall w :: !HeldBy(s, k, w))
            && (forall k :: 0 <= k < |s.taken| && k !in s.finished ==> exists w :: HeldOnlyBy(s, k, w))
  {
    InitInv(s0);
    Always(s0, acts);
    HistoryIs(s0, acts);
    var s := Exec(s0, acts);
    forall k | 0 <= k < |s.taken| && k !in s.finished
      ensures exists w :: HeldOnlyBy(s, k, w)
    {
      var w :| HeldBy(s, k, w);
      assert HeldOnlyBy(s, k, w);
    }
  }

  /** How a worker leaves and what it takes: at any step of any run a worker becomes Exited exactly if
      it finds stop_ set at the top of its loop, or comes out of the wait over an empty queue with stop_
      set; out of the wait over a non-empty queue it always dequeues the first task and runs it. */
  lemma {:induction false} LeavesOnlyEmpty(s0: State, acts: seq<Action>, a: Action, w: nat)
    requires Init(s0) && Enabled(Exec(s0, acts), a) && w < |Exec(s0, acts).workers| && Exec(s0, acts).workers[w] != Exited
    ensures var s := Exec(s0, acts); var t := Next(s, a);
            && (t.workers[w] == Exited <==> s.stop && (a == Enter(w) || (a == Take(w) && s.queue == [])))
            && (a == Take(w) && s.queue != [] ==>
                  t.workers[w] == Running(|s.taken|) && t.taken == s.taken + [s.queue[0]] && t.queue == s.queue[1..])
            && (!a.Take? ==> t.taken == s.taken && s.queue <= t.queue)
  {
    InitInv(s0);
    Always(s0, acts);
  }

  /** Never stuck before stop: whenever tasks wait and there is a worker, either some worker is awake
      or some producer still owes its notify_one. */
  lemma {:induction false} NeverSticks(s0: State, acts: seq<Action>)
    requires Init(s0) && s0.workers != []
    ensures var s := Exec(s0, acts);
            !s.stop && s.queue != [] ==> (exists w :: Awake(s, w)) || (exists p :: Owes(s, p))
  {
    InitInv(s0);
    Always(s0, acts);
    SameThreads(s0, acts);
  }

  lemma {:induction false} SameThreads(s: State, acts: seq<Action>)
    ensures |Exec(s, acts).workers| == |s.workers| && |Exec(s, acts).producers| == |s.producers|
  {
    if acts != [] {
      SameThreads(s, acts[..|acts| - 1]);
    }
  }

  lemma BoundedSet(a: set<nat>, n: nat)
    requires forall x :: x in a ==> x < n
    ensures |a| <= n
  {
    if n == 0 {
      assert a == {};
    } else {
      BoundedSet(a - {n - 1}, n - 1);
    }
  }

  lemma {:induction false} StopStays(s0: State, acts: seq<Action>, n: nat)
    requires n <= |acts| && Exec(s0, acts[..n]).stop
    ensures Exec(s0, acts).stop && Exec(s0, acts).cut == Exec(s0, acts[..n]).cut
    decreases |acts|
  {
    if n == |acts| {
      assert acts[..n] == acts;
    } else {
      assert acts[..|acts| - 1][..n] == acts[..n];
      StopStays(s0, acts[..|acts| - 1], n);
    }
  }

  /** Shutdown bound: from any moment on at which stop_ is set at most as many further tasks are
      dequeued as there are workers, because none dequeues twice. */
  lemma {:induction false} ShutdownBound(s0: State, acts: seq<Action>, n: nat)
    requires Init(s0) && n <= |acts| && Exec(s0, acts[..n]).stop
    ensures |Exec(s0, acts[..n]).taken| <= |Exec(s0, acts).taken| <= |Exec(s0, acts[..n]).taken| + |s0.workers|
  {
    InitInv(s0);
    Always(s0, acts);
    Always(s0, acts[..n]);
    StopStays(s0, acts, n);
    SameThreads(s0, acts);
    LateGrows(s0, acts, n);
    BoundedSet(Exec(s0, acts).late, |s0.workers|);
  }

  lemma {:induction false} LateGrows(s0: State, acts: seq<Action>, n: nat)
    requires n <= |acts|
    ensures |Exec(s0, acts[..n]).taken| <= |Exec(s0, acts).taken|
    decreases |acts|
  {
    if n == |acts| {
      assert acts[..n] == acts;
    } else {
      assert acts[..|acts| - 1][..n] == acts[..n];
      LateGrows(s0, acts[..|acts| - 1], n);
    }
  }

  // ---------------------------------------------------------------- progress

  /** Distance of a worker from its next dequeue before stop, from its exit after stop. */
  function WorkerRank(stop: bool, w: Worker): nat
  {
    match w
    case Exited => 0
    case Top => if stop then 1 else 4
    case Running(_) => if stop then 2 else 5
    case Deciding => if stop then 3 else 1
    case Testing => if stop then 4 else 2
    case WantLock => if stop then 5 else 3
    case Woken => if stop then 5 else 3
    case Asleep => if stop then 6 else 4
    case ToBlock => 7
  }

  function ProducerRank(p: Producer): nat
  {
    match p
    case Idle => 0
    case OwesNotify => 1
    case Pushing(_) => 2
    case Offering(_) => 3
  }

  function WorkersRank(stop: bool, ws: seq<Worker>): nat
  {
    if ws == [] then 0 else WorkerRank(stop, ws[0]) + WorkersRank(stop, ws[1..])
  }

  function ProducersRank(ps: seq<Producer>): nat
  {
    if ps == [] then 0 else ProducerRank(ps[0]) + ProducersRank(ps[1..])
  }

  function StopperRank(s: State): nat
  {
    match s.stopper
    case NotCalled => |s.workers| + 2
    case Notifying => |s.workers| + 1
    case Joining(k) => if k <= |s.workers| then |s.workers| - k else 0
  }

  function Rank(s: State): nat
  {
    WorkersRank(s.stop, s.workers) + ProducersRank(s.producers) + StopperRank(s)
  }

  lemma {:induction false} WorkersRankUpdate(stop: bool, ws: seq<Worker>, i: nat, w: Worker)
    requires i < |ws|
    ensures WorkersRank(stop, ws[i := w]) == WorkersRank(stop, ws) - WorkerRank(stop, ws[i]) + WorkerRank(stop, w)
  {
    if i == 0 {
      assert ws[i := w][1..] == ws[1..];
    } else {
      WorkersRankUpdate(stop, ws[1..], i - 1, w);
      assert ws[i := w][1..] == ws[1..][i - 1 := w];
    }
  }

  lemma {:induction false} ProducersRankUpdate(ps: seq<Producer>, i: nat, p: Producer)
    requires i < |ps|
    ensures ProducersRank(ps[i := p]) == ProducersRank(ps) - ProducerRank(ps[i]) + ProducerRank(p)
  {
    if i == 0 {
      assert ps[i := p][1..] == ps[1..];
    } else {
      ProducersRankUpdate(ps[1..], i - 1, p);
      assert ps[i := p][1..] == ps[1..][i - 1 := p];
    }
  }

  lemma {:induction false} WakeAllRank(ws: seq<Worker>)
    ensures WorkersRank(true, WakeAll(ws)) <= WorkersRank(true, ws)
  {
    if ws != [] {
      WakeAllRank(ws[1..]);
      assert WakeAll(ws)[1..] == WakeAll(ws[1..]);
    }
  }

  /** Steps the pool takes on its own: no new addtask, no call of Stop. */
  predicate Internal(a: Action) { !a.Offer? && !a.SetStop? }

  predicate OfWorker(a: Action)
  {
    a.Enter? || a.Lock? || a.Test? || a.Block? || a.Spurious? || a.Take? || a.Finish?
  }

  lemma WorkerRankDrops(s: State, a: Action)
    requires PlacesOk(s) && Enabled(s, a) && OfWorker(a)
    requires s.stop || (s.queue != [] && !a.Take?)
    ensures var t := Next(s, a);
            && t.workers == s.workers[a.w := t.workers[a.w]]
            && WorkerRank(s.stop, t.workers[a.w]) < WorkerRank(s.stop, s.workers[a.w])
            && t.producers == s.producers && t.stopper == s.stopper && t.stop == s.stop
            && (!s.stop ==> t.queue == s.queue)
  {
  }

  lemma WorkerDrops(s: State, a: Action)
    requires PlacesOk(s) && Enabled(s, a) && OfWorker(a)
    requires s.stop || (s.queue != [] && !a.Take?)
    ensures Rank(Next(s, a)) < Rank(s)
  {
    WorkerRankDrops(s, a);
    WorkersRankUpdate(s.stop, s.workers, a.w, Next(s, a).workers[a.w]);
  }

  lemma OtherDrops(s: State, a: Action)
    requires LateOk(s) && Enabled(s, a) && Internal(a) && !OfWorker(a)
    ensures Rank(Next(s, a)) < Rank(s)
    ensures Next(s, a).stop == s.stop && |Next(s, a).queue| >= |s.queue|
  {
    match a
    case Push(p) => ProducersRankUpdate(s.producers, p, OwesNotify);
    case LockToPush(p) => ProducersRankUpdate(s.producers, p, Pushing(s.producers[p].task));
    case Notify(p, w) =>
      ProducersRankUpdate(s.producers, p, Idle);
      if IsAt(s, w, Asleep) { WorkersRankUpdate(s.stop, s.workers, w, Woken); }
    case NotifyAll => WakeAllRank(s.workers);
    case Join =>
  }

  /** Every internal step lowers the rank, except a dequeue before stop. */
  lemma RankDrops(s: State, a: Action)
    requires Inv(s) && Enabled(s, a) && Internal(a)
    requires s.stop || (s.queue != [] && !a.Take?)
    ensures Rank(Next(s, a)) < Rank(s)
    ensures Next(s, a).stop == s.stop
    ensures !s.stop ==> Next(s, a).queue != []
  {
    if OfWorker(a) {
      WorkerRankDrops(s, a);
      WorkerDrops(s, a);
    } else {
      OtherDrops(s, a);
    }
  }

  /** Every action of the sequence happens. */
  ghost predicate Legal(s: State, acts: seq<Action>)
  {
    acts == [] || (Legal(s, acts[..|acts| - 1]) && Enabled(Exec(s, acts[..|acts| - 1]), acts[|acts| - 1]))
  }

  ghost predicate AllInternal(acts: seq<Action>) { forall i :: 0 <= i < |acts| ==> Internal(acts[i]) }

  ghost predicate NoTake(acts: seq<Action>) { forall i :: 0 <= i < |acts| ==> !acts[i].Take? }

  lemma {:induction false} RankBoundsRuns(s: State, acts: seq<Action>)
    requires Inv(s) && Legal(s, acts) && AllInternal(acts)
    requires s.stop || (s.queue != [] && NoTake(acts))
    ensures |acts| + Rank(Exec(s, acts)) <= Rank(s)
    ensures Inv(Exec(s, acts)) && Exec(s, acts).stop == s.stop
    ensures !s.stop ==> Exec(s, acts).queue != []
  {
    if acts != [] {
      RankBoundsRuns(s, acts[..|acts| - 1]);
      var t := Exec(s, acts[..|acts| - 1]);
      RankDrops(t, acts[|acts| - 1]);
      NextKeeps(t, acts[|acts| - 1]);
    }
  }

  /** Whoever holds the mutex can go on. */
  lemma HolderMoves(s: State) returns (a: Action)
    requires Inv(s) && s.mutex != Free
    ensures Enabled(s, a) && Internal(a) && !a.Spurious? && !a.Finish?
  {
    match s.mutex
    case ByProducer(p) => a := Push(p);
    case ByWorker(w) =>
      a := if s.workers[w] == Testing then Test(w) else if s.workers[w] == ToBlock then Block(w) else Take(w);
  }

  lemma WorkerMoves(s: State, w: nat) returns (a: Action)
    requires Inv(s) && s.mutex == Free && w < |s.workers| && s.workers[w] != Asleep && s.workers[w] != Exited
    ensures Enabled(s, a) && Internal(a) && !a.Spurious?
    ensures a.Finish? <==> s.workers[w].Running?
  {
    match s.workers[w]
    case Top => a := Enter(w);
    case Running(_) => a := Finish(w);
    case _ => a := Lock(w);
  }

  lemma NotifierMoves(s: State, p: nat) returns (a: Action)
    requires Owes(s, p)
    ensures Enabled(s, a) && a.Notify?
  {
    if NoneAsleep(s) {
      a := Notify(p, 0);
    } else {
      var w :| 0 <= w < |s.workers| && s.workers[w] == Asleep;
      a := Notify(p, w);
    }
  }

  /** Progress before stop: while tasks wait the pool always has a step of its own, and it cannot
      take more than Rank of them, whatever the interleaving, without dequeuing a task. */
  lemma {:induction false} PoolProgress(s0: State, acts: seq<Action>, more: seq<Action>) returns (a: Action)
    requires Init(s0) && s0.workers != []
    requires var s := Exec(s0, acts);
             !s.stop && s.queue != [] && Legal(s, more) && AllInternal(more) && NoTake(more)
    ensures |more| <= Rank(Exec(s0, acts))
    ensures Enabled(Exec(Exec(s0, acts), more), a) && Internal(a) && !a.Spurious?
  {
    InitInv(s0);
    Always(s0, acts);
    var s := Exec(s0, acts);
    SameThreads(s0, acts);
    SameThreads(s, more);
    RankBoundsRuns(s, more);
    var t := Exec(s, more);
    if t.mutex != Free {
      a := HolderMoves(t);
    } else if exists p :: Owes(t, p) {
      var p :| Owes(t, p);
      a := NotifierMoves(t, p);
    } else {
      var w :| Awake(t, w);
      a := WorkerMoves(t, w);
    }
  }

  // ---------------------------------------------------------------- shutdown

  /** Steps that are bound to come: no new addtask, no spurious wake-up. */
  predicate Settling(a: Action) { Internal(a) && !a.Spurious? }

  ghost predicate AllSettling(acts: seq<Action>) { forall i :: 0 <= i < |acts| ==> Settling(acts[i]) }

  /** Stop has set the flag and not yet notified. */
  ghost predicate AboutToNotify(s: State) { Inv(s) && s.stopper == Notifying }

  /** Every worker has returned and every join too. */
  ghost predicate Stopped(s: State)
  {
    && s.stopper == Joining(|s.workers|)
    && forall w :: 0 <= w < |s.workers| ==> s.workers[w] == Exited
  }

  ghost predicate Blocking(s: State, w: nat) { IsAt(s, w, ToBlock) || IsAt(s, w, Asleep) }

  ghost predicate Offers(s: State, p: nat) { p < |s.producers| && s.producers[p].Offering? }

  ghost predicate Busy(s: State, p: nat) { p < |s.producers| && s.producers[p] != Idle }

  /** After notify_all: joined workers have exited, and at most one worker sleeps or is about to. */
  ghost predicate Notified(s: State)
  {
    && s.stop && s.stopper.Joining? && s.stopper.next <= |s.workers|
    && (forall w :: 0 <= w < s.stopper.next ==> s.workers[w] == Exited)
    && (forall v, w :: Blocking(s, v) && Blocking(s, w) ==> v == w)
  }

  /** Whoever sleeps has a notify_one coming that nobody else can absorb. */
  ghost predicate WillWake(s: State)
  {
    && (forall w :: IsAt(s, w, ToBlock) ==> exists p :: Offers(s, p))
    && (forall w :: IsAt(s, w, Asleep) ==> exists p :: Busy(s, p))
  }

  ghost predicate Leaving(s: State) { Inv(s) && Notified(s) && WillWake(s) }

  lemma NotifiedKeeps(s: State, a: Action)
    requires Notified(s) && Enabled(s, a)
    ensures Notified(Next(s, a))
  {
    var t := Next(s, a);
    assert forall w :: Blocking(t, w) ==> Blocking(s, w);
  }

  lemma ToBlockWakes(s: State, a: Action, w: nat)
    requires MutexOk(s) && Notified(s) && WillWake(s) && Enabled(s, a) && IsAt(Next(s, a), w, ToBlock)
    ensures exists p :: Offers(Next(s, a), p)
  {
    assert IsAt(s, w, ToBlock) && s.mutex == ByWorker(w);
    var p :| Offers(s, p);
    assert Offers(Next(s, a), p);
  }

  lemma AsleepWakes(s: State, a: Action, w: nat)
    requires MutexOk(s) && Notified(s) && WillWake(s) && Enabled(s, a) && IsAt(Next(s, a), w, Asleep)
    ensures exists p :: Busy(Next(s, a), p)
  {
    if a == Block(w) {
      var p :| Offers(s, p);
      assert Busy(Next(s, a), p);
    } else {
      assert IsAt(s, w, Asleep);
      var p :| Busy(s, p);
      forall v: nat | IsAt(s, v, Asleep)
        ensures v == w
      {
        assert Blocking(s, v) && Blocking(s, w);
      }
      assert Busy(Next(s, a), p);
    }
  }

  lemma LeavingKeeps(s: State, a: Action)
    requires Leaving(s) && Enabled(s, a)
    ensures Leaving(Next(s, a))
  {
    NextKeeps(s, a);
    NotifiedKeeps(s, a);
    var t := Next(s, a);
    forall w | IsAt(t, w, ToBlock)
      ensures exists p :: Offers(t, p)
    {
      ToBlockWakes(s, a, w);
    }
    forall w | IsAt(t, w, Asleep)
      ensures exists p :: Busy(t, p)
    {
      AsleepWakes(s, a, w);
    }
  }

  lemma ProducerMoves(s: State, p: nat) returns (a: Action)
    requires Inv(s) && s.mutex == Free && Busy(s, p)
    ensures Enabled(s, a) && (a.LockToPush? || a.Notify?)
  {
    if Owes(s, p) {
      a := NotifierMoves(s, p);
    } else {
      a := LockToPush(p);
    }
  }

  lemma LeavingMoves(s: State) returns (a: Action)
    requires Leaving(s) && !Stopped(s)
    ensures Enabled(s, a) && Settling(a)
  {
    if s.mutex != Free {
      a := HolderMoves(s);
    } else if s.stopper.next == |s.workers| || s.workers[s.stopper.next] == Exited {
      a := Join;
    } else if IsAt(s, s.stopper.next, Asleep) {
      var p :| Busy(s, p);
      a := ProducerMoves(s, p);
    } else {
      a := WorkerMoves(s, s.stopper.next);
    }
  }

  lemma {:induction false} LeavingRun(s: State, acts: seq<Action>)
    requires Leaving(s)
    ensures Leaving(Exec(s, acts))
  {
    if acts != [] {
      LeavingRun(s, acts[..|acts| - 1]);
      var t := Exec(s, acts[..|acts| - 1]);
      if Enabled(t, acts[|acts| - 1]) {
        LeavingKeeps(t, acts[|acts| - 1]);
      }
    }
  }

  lemma {:induction false} ExecStep(s: State, acts: seq<Action>, a: Action)
    ensures Exec(s, acts + [a]) == var t := Exec(s, acts); if Enabled(t, a) then Next(t, a) else t
    ensures Legal(s, acts) && Enabled(Exec(s, acts), a) ==> Legal(s, acts + [a])
  {
    assert (acts + [a])[..|acts|] == acts;
  }

  // ---------------------------------------------------------------- complete runs

  /** Nothing is bound to happen any more. */
  ghost predicate Settled(s: State) { forall a :: Settling(a) ==> !Enabled(s, a) }

  /** A run that takes settling steps until none is left. */
  ghost predicate Complete(s: State, acts: seq<Action>)
  {
    Legal(s, acts) && AllSettling(acts) && Settled(Exec(s, acts))
  }

  ghost predicate CanStop(s: State) { exists acts :: Complete(s, acts) && Stopped(Exec(s, acts)) }

  ghost predicate MustStop(s: State) { forall acts :: Complete(s, acts) ==> Stopped(Exec(s, acts)) }

  /** After stop every settling run can be completed. */
  lemma {:induction false} Completes(s: State, begun: seq<Action>) returns (acts: seq<Action>)
    requires Inv(Exec(s, begun)) && Exec(s, begun).stop && Legal(s, begun) && AllSettling(begun)
    ensures Complete(s, acts) && begun <= acts
  {
    acts := begun;
    while !Settled(Exec(s, acts))
      invariant Legal(s, acts) && AllSettling(acts) && Inv(Exec(s, acts)) && Exec(s, acts).stop && begun <= acts
      decreases Rank(Exec(s, acts))
    {
      var a :| Settling(a) && Enabled(Exec(s, acts), a);
      NextKeeps(Exec(s, acts), a);
      RankDrops(Exec(s, acts), a);
      ExecStep(s, acts, a);
      acts := acts + [a];
    }
  }

  /** From a leaving pool every complete run ends with all workers joined. */
  lemma {:induction false} LeavingStops(s: State, acts: seq<Action>)
    requires Leaving(s) && Settled(Exec(s, acts))
    ensures Stopped(Exec(s, acts))
  {
    LeavingRun(s, acts);
    if !Stopped(Exec(s, acts)) {
      var a := LeavingMoves(Exec(s, acts));
    }
  }

  // ---------------------------------------------------------------- a worker left behind

  /** A worker that had tested the predicate before the store, sleeps only after notify_all, and has
      no notify_one coming. */
  ghost predicate Lost(s: State, w: nat)
  {
    && Inv(s) && s.stopper.Joining? && s.stopper.next <= w && Blocking(s, w)
    && forall p :: !Busy(s, p)
  }

  lemma LostStep(s: State, w: nat, a: Action)
    requires Lost(s, w) && Settling(a) && Enabled(s, a)
    ensures Lost(Next(s, a), w)
  {
    NextKeeps(s, a);
    if a.Join? {
      assert s.stopper.next != w;
    } else if a.Notify? || a.Push? || a.LockToPush? {
      assert Busy(s, a.p);
    }
    assert forall p :: Busy(Next(s, a), p) ==> Busy(s, p);
  }

  lemma {:induction false} LostStaysLost(s: State, w: nat, acts: seq<Action>)
    requires Lost(s, w) && AllSettling(acts)
    ensures Lost(Exec(s, acts), w)
  {
    if acts != [] {
      var a := acts[|acts| - 1];
      LostStaysLost(s, w, acts[..|acts| - 1]);
      var t := Exec(s, acts[..|acts| - 1]);
      if Enabled(t, a) {
        LostStep(t, w, a);
      }
    }
  }

  /** A worker about to block while all producers are past their push: whatever notify_one is still
      owed can come before it sleeps, and then wakes nobody. */
  ghost predicate Losing(s: State, w: nat)
  {
    && Inv(s) && s.stopper.Joining? && s.stopper.next <= w && IsAt(s, w, ToBlock)
    && NoneAsleep(s) && forall p :: Busy(s, p) ==> Owes(s, p)
  }

  lemma {:induction false} Wasted(s: State, w: nat) returns (acts: seq<Action>)
    requires Losing(s, w)
    ensures Legal(s, acts) && AllSettling(acts) && Lost(Exec(s, acts), w)
  {
    acts := [];
    while exists p :: Busy(Exec(s, acts), p)
      invariant Legal(s, acts) && AllSettling(acts) && Losing(Exec(s, acts), w)
      decreases Rank(Exec(s, acts))
    {
      var p :| Busy(Exec(s, acts), p);
      acts := WasteOne(s, w, acts, p);
    }
  }

  lemma NotifyWasted(s: State, w: nat, p: nat)
    requires Losing(s, w) && Busy(s, p)
    ensures Enabled(s, Notify(p, 0)) && Losing(Next(s, Notify(p, 0)), w)
  {
    var a := Notify(p, 0);
    assert Owes(s, p);
    NextKeeps(s, a);
    assert forall q :: Busy(Next(s, a), q) ==> Busy(s, q) && Owes(Next(s, a), q);
  }

  lemma {:induction false} WasteOne(s: State, w: nat, acts: seq<Action>, p: nat) returns (longer: seq<Action>)
    requires Legal(s, acts) && AllSettling(acts) && Losing(Exec(s, acts), w) && Busy(Exec(s, acts), p)
    ensures Legal(s, longer) && AllSettling(longer) && Losing(Exec(s, longer), w)
    ensures Rank(Exec(s, longer)) < Rank(Exec(s, acts))
  {
    var a := Notify(p, 0);
    NotifyWasted(Exec(s, acts), w, p);
    RankDrops(Exec(s, acts), a);
    ExecStep(s, acts, a);
    longer := acts + [a];
  }

  // ---------------------------------------------------------------- theorems about Stop

  ghost predicate SomeToBlock(s: State) { exists w :: IsAt(s, w, ToBlock) }

  lemma AfterNotifyAll(s: State)
    requires AboutToNotify(s)
    ensures var t := Next(s, NotifyAll);
            && Inv(t) && Notified(t) && NoneAsleep(t) && t.producers == s.producers
            && (forall w :: IsAt(t, w, ToBlock) <==> IsAt(s, w, ToBlock))
  {
    NextKeeps(s, NotifyAll);
    var t := Next(s, NotifyAll);
    assert forall w :: Blocking(t, w) ==> t.mutex == ByWorker(w);
  }

  lemma NotifyAllLeaves(s: State)
    requires AboutToNotify(s) && (!SomeToBlock(s) || exists p :: Offers(s, p))
    ensures Leaving(Next(s, NotifyAll))
  {
    AfterNotifyAll(s);
    if p :| Offers(s, p) {
      assert Offers(Next(s, NotifyAll), p);
    }
  }

  lemma NotifyAllLoses(s: State, w: nat)
    requires AboutToNotify(s) && IsAt(s, w, ToBlock) && forall p :: !Offers(s, p)
    ensures Losing(Next(s, NotifyAll), w)
  {
    AfterNotifyAll(s);
    var t := Next(s, NotifyAll);
    assert s.mutex == ByWorker(w);
    forall p: nat | Busy(t, p)
      ensures Owes(t, p)
    {
      assert !Offers(s, p) && !s.producers[p].Pushing?;
    }
  }

  /** Shutdown, exactly: once notify_all has run, every continuation ends with all workers joined if
      and only if no worker stood between its false predicate and its block at that moment, or some
      addtask had yet to get the mutex (its notify_one comes after that worker sleeps). */
  lemma StopReturnsIff(s: State)
    requires AboutToNotify(s)
    ensures MustStop(Next(s, NotifyAll)) <==> !SomeToBlock(s) || exists p :: Offers(s, p)
  {
    var t := Next(s, NotifyAll);
    if !SomeToBlock(s) || exists p :: Offers(s, p) {
      NotifyAllLeaves(s);
      forall acts | Complete(t, acts)
        ensures Stopped(Exec(t, acts))
      {
        LeavingStops(t, acts);
      }
    } else {
      var w :| IsAt(s, w, ToBlock);
      NotifyAllLoses(s, w);
      var begun := Wasted(t, w);
      var acts := Completes(t, begun);
      StaysLost(t, w, begun, acts);
    }
  }

  lemma {:induction false} StaysLost(s: State, w: nat, begun: seq<Action>, acts: seq<Action>)
    requires Lost(Exec(s, begun), w) && begun <= acts && AllSettling(acts)
    ensures Lost(Exec(s, acts), w)
    decreases |acts|
  {
    if begun == acts {
    } else {
      var before := acts[..|acts| - 1];
      StaysLost(s, w, begun, before);
      if Enabled(Exec(s, before), acts[|acts| - 1]) {
        LostStep(Exec(s, before), w, acts[|acts| - 1]);
      }
    }
  }

  /** It can return at all if and only if nobody stood there or some addtask was still under way. */
  lemma StopCanReturnIff(s: State)
    requires AboutToNotify(s)
    ensures CanStop(Next(s, NotifyAll)) <==> !SomeToBlock(s) || exists p :: Busy(s, p)
  {
    var t := Next(s, NotifyAll);
    AfterNotifyAll(s);
    if !SomeToBlock(s) || exists p :: Offers(s, p) {
      NotifyAllLeaves(s);
      var acts := Completes(t, []);
      LeavingStops(t, acts);
      if p :| Offers(s, p) {
        assert Busy(s, p);
      }
    } else {
      var w :| IsAt(s, w, ToBlock);
      if p :| Busy(s, p) {
        SleepFirst(t, w, p);
      } else {
        assert forall p :: !Busy(s, p);
        assert forall p :: Busy(t, p) ==> Busy(s, p);
        assert Lost(t, w);
        forall acts | Complete(t, acts)
          ensures !Stopped(Exec(t, acts))
        {
          LostStaysLost(t, w, acts);
        }
      }
    }
  }

  /** If the worker falls asleep first, the notify_one still owed wakes it. */
  lemma {:induction false} SleepFirst(s: State, w: nat, p: nat)
    requires Inv(s) && Notified(s) && NoneAsleep(s) && IsAt(s, w, ToBlock) && Busy(s, p)
    ensures CanStop(s)
  {
    var a := Block(w);
    ExecStep(s, [], a);
    assert [] + [a] == [a];
    var t := Next(s, a);
    NextKeeps(s, a);
    NotifiedKeeps(s, a);
    assert Busy(t, p);
    assert forall v :: IsAt(t, v, ToBlock) ==> Blocking(s, v) && v == w;
    var acts := Completes(s, [a]);
    LeavingAfter(s, [a], acts);
    if !Stopped(Exec(s, acts)) {
      var b := LeavingMoves(Exec(s, acts));
    }
  }

  lemma {:induction false} LeavingAfter(s: State, begun: seq<Action>, acts: seq<Action>)
    requires Leaving(Exec(s, begun)) && begun <= acts
    ensures Leaving(Exec(s, acts))
    decreases |acts|
  {
    if begun != acts {
      var before := acts[..|acts| - 1];
      LeavingAfter(s, begun, before);
      if Enabled(Exec(s, before), acts[|acts| - 1]) {
        LeavingKeeps(Exec(s, before), acts[|acts| - 1]);
      }
    }
  }

  /** Under the first condition no schedule avoids it, spurious wake-ups included: every legal run
      without a new addtask is at most Rank long, and until all is joined a step is bound to come. */
  lemma {:induction false} StopAlwaysReturns(s: State, acts: seq<Action>) returns (a: Action)
    requires AboutToNotify(s) && (!SomeToBlock(s) || exists p :: Offers(s, p))
    requires Legal(Next(s, NotifyAll), acts) && AllInternal(acts)
    ensures |acts| <= Rank(s)
    ensures var t := Exec(Next(s, NotifyAll), acts); Stopped(t) || (Enabled(t, a) && Settling(a))
  {
    var t := Next(s, NotifyAll);
    NotifyAllLeaves(s);
    RankDrops(s, NotifyAll);
    RankBoundsRuns(t, acts);
    LeavingRun(t, acts);
    a := Join;
    if !Stopped(Exec(t, acts)) {
      a := LeavingMoves(Exec(t, acts));
    }
  }

  /** The losing schedule is reachable with a single worker and no task at all: then no continuation
      stops. */
  lemma {:induction false} StopCanHang(s0: State) returns (acts: seq<Action>)
    requires Init(s0) && |s0.workers| == 1
    ensures var s := Exec(s0, acts); AboutToNotify(s) && !CanStop(Next(s, NotifyAll))
  {
    acts := [Enter(0)];
    ExecStep(s0, [], Enter(0));
    assert [] + [Enter(0)] == acts;
    ExecStep(s0, acts, Lock(0));
    acts := acts + [Lock(0)];
    ExecStep(s0, acts, Test(0));
    acts := acts + [Test(0)];
    ExecStep(s0, acts, SetStop);
    acts := acts + [SetStop];
    InitInv(s0);
    Always(s0, acts);
    assert IsAt(Exec(s0, acts), 0, ToBlock);
    assert forall p :: !Busy(Exec(s0, acts), p);
    StopCanReturnIff(Exec(s0, acts));
  }
}
