/** Stopping the server: `TcpServer::stop` stops every sub-loop and then the pool whose workers run
    them. The pool and the loops are the machines of ThreadPools and LoopHandoff; callbacks of other
    channels are taken to return. */
module Shutdown {
  import P = ThreadPools
  import L = LoopHandoff

  /** Task i of the pool is `run` of sub-loop i. */
  datatype State = State(pool: P.State, loops: seq<L.State>)

  predicate Init(s: State)
  {
    P.Init(s.pool) && forall i :: 0 <= i < |s.loops| ==> L.Init(s.loops[i])
  }

  datatype Action = Pool(pa: P.Action) | Loop(i: nat, la: L.Action)

  /** Worker w is inside `run` of loop i. */
  predicate Runs(s: State, w: nat, i: nat)
  {
    && w < |s.pool.workers| && s.pool.workers[w].Running? && s.pool.workers[w].pos < |s.pool.taken|
    && s.pool.taken[s.pool.workers[w].pos] == i && i < |s.loops|
  }

  predicate IsRun(s: State, i: nat) { exists w :: 0 <= w < |s.pool.workers| && Runs(s, w, i) }

  /** `stop` has returned for every sub-loop. */
  predicate LoopsStopped(s: State) { forall i :: 0 <= i < |s.loops| ==> s.loops[i].stopper == L.Done }

  predicate Enabled(s: State, a: Action)
  {
    match a
    case Pool(pa) =>
      && P.Enabled(s.pool, pa)
      && (pa.Finish? ==> forall i :: 0 <= i < |s.loops| && Runs(s, pa.w, i) ==> s.loops[i].loop == L.Left)
      && (pa.SetStop? ==> LoopsStopped(s))
    case Loop(i, la) => i < |s.loops| && L.Enabled(s.loops[i], la) && (L.OfLoop(la) ==> IsRun(s, i))
  }

  function Next(s: State, a: Action): State
    requires Enabled(s, a)
  {
    match a
    case Pool(pa) => s.(pool := P.Next(s.pool, pa))
    case Loop(i, la) => s.(loops := s.loops[i := L.Next(s.loops[i], la)])
  }

  /** The state after a sequence of actions; an action that is not enabled does not happen. */
  function Exec(s: State, acts: seq<Action>): State
  {
    if acts == [] then s
    else
      var t := Exec(s, acts[..|acts| - 1]);
      if Enabled(t, acts[|acts| - 1]) then Next(t, acts[|acts| - 1]) else t
  }

  // ---------------------------------------------------------------- invariant

  /** The pool is stopped only after all loops are. */
  ghost predicate Inv(s: State)
  {
    && P.Inv(s.pool) && (forall i :: 0 <= i < |s.loops| ==> L.Inv(s.loops[i]))
    && (s.pool.stopper != P.NotCalled ==> LoopsStopped(s))
  }

  lemma DoneStays(l: L.State, la: L.Action)
    requires L.Enabled(l, la) && l.stopper == L.Done
    ensures L.Next(l, la).stopper == L.Done
  {
  }

  lemma StopperStays(p: P.State, pa: P.Action)
    requires P.Enabled(p, pa) && p.stopper == P.NotCalled
    ensures P.Next(p, pa).stopper != P.NotCalled ==> pa.SetStop?
  {
  }

  lemma NextKeeps(s: State, a: Action)
    requires Inv(s) && Enabled(s, a)
    ensures Inv(Next(s, a))
  {
    match a
    case Pool(pa) =>
      P.NextKeeps(s.pool, pa);
      if s.pool.stopper == P.NotCalled { StopperStays(s.pool, pa); }
    case Loop(i, la) =>
      L.NextKeeps(s.loops[i], la);
      if s.loops[i].stopper == L.Done { DoneStays(s.loops[i], la); }
  }

  lemma {:induction false} Always(s: State, acts: seq<Action>)
    requires Inv(s)
    ensures Inv(Exec(s, acts))
  {
    if acts != [] {
      Always(s, acts[..|acts| - 1]);
      var t := Exec(s, acts[..|acts| - 1]);
      if Enabled(t, acts[|acts| - 1]) {
        NextKeeps(t, acts[|acts| - 1]);
      }
    }
  }

  lemma InitInv(s: State)
    requires Init(s)
    ensures Inv(s)
  {
    P.InitInv(s.pool);
    forall i | 0 <= i < |s.loops|
      ensures L.Inv(s.loops[i])
    {
      L.InitInv(s.loops[i]);
    }
  }

  // ---------------------------------------------------------------- complete runs

  /** Steps without a new addtask or queueinloop, and without spurious wake-ups; epoll_wait may report
      any channels. */
  predicate Settling(a: Action)
  {
    match a
    case Pool(pa) => P.Settling(pa)
    case Loop(_, la) => !la.Offer? && !la.SetStop?
  }

  /** Every action of the sequence happens. */
  ghost predicate Legal(s: State, acts: seq<Action>)
  {
    acts == [] || (Legal(s, acts[..|acts| - 1]) && Enabled(Exec(s, acts[..|acts| - 1]), acts[|acts| - 1]))
  }

  ghost predicate AllSettling(acts: seq<Action>) { forall k :: 0 <= k < |acts| ==> Settling(acts[k]) }

  ghost predicate Settled(s: State) { forall a :: Settling(a) ==> !Enabled(s, a) }

  /** A run that takes settling steps until none is left. */
  ghost predicate Complete(s: State, acts: seq<Action>)
  {
    Legal(s, acts) && AllSettling(acts) && Settled(Exec(s, acts))
  }

  /** Every complete run ends with all workers of the pool joined: `TcpServer::stop` returns. */
  ghost predicate MustReturn(s: State) { forall acts :: Complete(s, acts) ==> P.Stopped(Exec(s, acts).pool) }

  // ---------------------------------------------------------------- when nobody is left behind

  /** notify_all has run and whoever sleeps will be woken. */
  ghost predicate Leaving(s: State) { Inv(s) && P.Leaving(s.pool) && LoopsStopped(s) }

  lemma LeavingKeeps(s: State, a: Action)
    requires Leaving(s) && Enabled(s, a)
    ensures Leaving(Next(s, a))
  {
    NextKeeps(s, a);
    match a
    case Pool(pa) => P.LeavingKeeps(s.pool, pa);
    case Loop(i, la) => DoneStays(s.loops[i], la);
  }

  lemma {:induction false} LeavingRun(s: State, acts: seq<Action>)
    requires Leaving(s)
    ensures Leaving(Exec(s, acts))
  {
    if acts != [] {
      LeavingRun(s, acts[..|acts| - 1]);
      var t := Exec(s, acts[..|acts| - 1]);
      if Enabled(t, acts[|acts| - 1]) {
        LeavingKeeps(t, acts[|acts| - 1]);
      }
    }
  }

  /** A loop that is being run and has not left can be stepped. */
  lemma RunMoves(s: State, w: nat, i: nat) returns (a: Action)
    requires Inv(s) && LoopsStopped(s) && Runs(s, w, i) && s.loops[i].loop != L.Left
    ensures Enabled(s, a) && Settling(a)
  {
    var la := L.StoppedMoves(s.loops[i]);
    a := Loop(i, la);
  }

  lemma LeavingMoves(s: State) returns (a: Action)
    requires Leaving(s) && !P.Stopped(s.pool)
    ensures Enabled(s, a) && Settling(a)
  {
    var pa := P.LeavingMoves(s.pool);
    a := Pool(pa);
    if pa.Finish? {
      if i :| 0 <= i < |s.loops| && Runs(s, pa.w, i) && s.loops[i].loop != L.Left {
        a := RunMoves(s, pa.w, i);
      }
    }
  }

  // ---------------------------------------------------------------- every run can be completed

  /** The settling steps with which epoll_wait reports nothing but the eventfd. */
  predicate Internal(a: Action) { Settling(a) && (a.Loop? ==> L.Internal(a.la)) }

  function LoopsWeight(ls: seq<L.State>): nat
  {
    if ls == [] then 0 else L.Weight(ls[0]) + LoopsWeight(ls[1..])
  }

  lemma {:induction false} LoopsUpdate(ls: seq<L.State>, i: nat, l: L.State)
    requires i < |ls|
    ensures LoopsWeight(ls[i := l]) == LoopsWeight(ls) - L.Weight(ls[i]) + L.Weight(l)
  {
    if i == 0 {
      assert ls[i := l][1..] == ls[1..];
    } else {
      LoopsUpdate(ls[1..], i - 1, l);
      assert ls[i := l][1..] == ls[1..][i - 1 := l];
    }
  }

  function Rank(s: State): nat { P.Rank(s.pool) + LoopsWeight(s.loops) }

  /** The pool has been told to stop, hence all loops before. */
  ghost predicate Stopping(s: State) { Inv(s) && s.pool.stop && LoopsStopped(s) }

  lemma RankDrops(s: State, a: Action)
    requires Stopping(s) && Enabled(s, a) && Internal(a)
    ensures Stopping(Next(s, a)) && Rank(Next(s, a)) < Rank(s)
  {
    NextKeeps(s, a);
    match a
    case Pool(pa) => P.RankDrops(s.pool, pa);
    case Loop(i, la) =>
      DoneStays(s.loops[i], la);
      L.WeightDrops(s.loops[i], la);
      LoopsUpdate(s.loops, i, L.Next(s.loops[i], la));
  }

  /** If any settling step is possible, one is that reports nothing but the eventfd. */
  lemma InternalToo(s: State, a: Action) returns (b: Action)
    requires Stopping(s) && Enabled(s, a) && Settling(a)
    ensures Enabled(s, b) && Internal(b)
  {
    b := a;
    if a.Loop? && a.la.Return? {
      b := Loop(a.i, L.Return([L.Wake]));
    }
  }

  lemma {:induction false} ExecStep(s: State, acts: seq<Action>, a: Action)
    ensures Exec(s, acts + [a]) == var t := Exec(s, acts); if Enabled(t, a) then Next(t, a) else t
    ensures Legal(s, acts) && Enabled(Exec(s, acts), a) ==> Legal(s, acts + [a])
  {
    assert (acts + [a])[..|acts|] == acts;
  }

  lemma {:induction false} Completes(s: State, begun: seq<Action>) returns (acts: seq<Action>)
    requires Stopping(Exec(s, begun)) && Legal(s, begun) && AllSettling(begun)
    ensures Complete(s, acts) && begun <= acts
  {
    acts := begun;
    while !Settled(Exec(s, acts))
      invariant Legal(s, acts) && AllSettling(acts) && Stopping(Exec(s, acts)) && begun <= acts
      decreases Rank(Exec(s, acts))
    {
      var a :| Settling(a) && Enabled(Exec(s, acts), a);
      var b := InternalToo(Exec(s, acts), a);
      RankDrops(Exec(s, acts), b);
      ExecStep(s, acts, b);
      acts := acts + [b];
    }
  }

  // ---------------------------------------------------------------- a worker left behind

  lemma LostStep(s: State, w: nat, a: Action)
    requires P.Lost(s.pool, w) && Settling(a) && Enabled(s, a)
    ensures P.Lost(Next(s, a).pool, w)
  {
    if a.Pool? { P.LostStep(s.pool, w, a.pa); }
  }

  lemma {:induction false} LostStays(s: State, w: nat, begun: seq<Action>, acts: seq<Action>)
    requires P.Lost(Exec(s, begun).pool, w) && begun <= acts && AllSettling(acts)
    ensures P.Lost(Exec(s, acts).pool, w)
    decreases |acts|
  {
    if begun != acts {
      var before := acts[..|acts| - 1];
      LostStays(s, w, begun, before);
      if Enabled(Exec(s, before), acts[|acts| - 1]) {
        LostStep(Exec(s, before), w, acts[|acts| - 1]);
      }
    }
  }

  /** The notify_one calls still owed, one after the other, before the worker sleeps. */
  lemma {:induction false} Wasted(s: State, w: nat) returns (acts: seq<Action>)
    requires Stopping(s) && P.Losing(s.pool, w)
    ensures Legal(s, acts) && AllSettling(acts) && Stopping(Exec(s, acts)) && P.Lost(Exec(s, acts).pool, w)
  {
    acts := [];
    while exists p :: P.Busy(Exec(s, acts).pool, p)
      invariant Legal(s, acts) && AllSettling(acts) && Stopping(Exec(s, acts)) && P.Losing(Exec(s, acts).pool, w)
      decreases Rank(Exec(s, acts))
    {
      var p :| P.Busy(Exec(s, acts).pool, p);
      acts := WasteOne(s, w, acts, p);
    }
  }

  lemma {:induction false} WasteOne(s: State, w: nat, acts: seq<Action>, p: nat) returns (longer: seq<Action>)
    requires Legal(s, acts) && AllSettling(acts) && Stopping(Exec(s, acts))
    requires P.Losing(Exec(s, acts).pool, w) && P.Busy(Exec(s, acts).pool, p)
    ensures Legal(s, longer) && AllSettling(longer) && Stopping(Exec(s, longer)) && P.Losing(Exec(s, longer).pool, w)
    ensures Rank(Exec(s, longer)) < Rank(Exec(s, acts))
  {
    var t := Exec(s, acts);
    var a := Pool(P.Notify(p, 0));
    P.NotifyWasted(t.pool, w, p);
    RankDrops(t, a);
    ExecStep(s, acts, a);
    longer := acts + [a];
  }

  // ---------------------------------------------------------------- the theorem

  /** When `TcpServer::stop` returns, exactly. It has stopped every sub-loop and set the pool's flag;
      once the pool's notify_all has run, every complete run ends with all workers joined if and only
      if no worker, its run having returned, stood between its false predicate and its block, or some
      addtask had yet to take the mutex. */
  lemma {:induction false} StopReturnsIff(s0: State, acts: seq<Action>)
    requires Init(s0) && Exec(s0, acts).pool.stopper == P.Notifying
    ensures var s := Exec(s0, acts);
            && Enabled(s, Pool(P.NotifyAll))
            && (MustReturn(Next(s, Pool(P.NotifyAll))) <==> !P.SomeToBlock(s.pool) || exists p :: P.Offers(s.pool, p))
  {
    InitInv(s0);
    Always(s0, acts);
    var s := Exec(s0, acts);
    var a := Pool(P.NotifyAll);
    NextKeeps(s, a);
    P.AfterNotifyAll(s.pool);
    var t := Next(s, a);
    if !P.SomeToBlock(s.pool) || exists p :: P.Offers(s.pool, p) {
      P.NotifyAllLeaves(s.pool);
      MustReturnFrom(t);
    } else {
      var w :| P.IsAt(s.pool, w, P.ToBlock);
      P.NotifyAllLoses(s.pool, w);
      Hangs(t, w);
    }
  }

  lemma Hangs(s: State, w: nat)
    requires Stopping(s) && P.Losing(s.pool, w)
    ensures !MustReturn(s)
  {
    var begun := Wasted(s, w);
    var acts := Completes(s, begun);
    LostStays(s, w, begun, acts);
    assert !P.Stopped(Exec(s, acts).pool);
  }

  lemma MustReturnFrom(s: State)
    requires Leaving(s)
    ensures MustReturn(s)
  {
    forall acts | Complete(s, acts)
      ensures P.Stopped(Exec(s, acts).pool)
    {
      LeavingRun(s, acts);
      if !P.Stopped(Exec(s, acts).pool) {
        var a := LeavingMoves(Exec(s, acts));
      }
    }
  }

  // ---------------------------------------------------------------- the loops have then left

  /** The run of a finished task's loop has returned. */
  ghost predicate FinishedLeft(s: State)
  {
    forall k :: k in s.pool.finished && 0 <= k < |s.pool.taken| && s.pool.taken[k] < |s.loops| ==>
      s.loops[s.pool.taken[k]].loop == L.Left
  }

  lemma LeftStays(l: L.State, la: L.Action)
    requires L.Enabled(l, la) && l.loop == L.Left
    ensures L.Next(l, la).loop == L.Left
  {
  }

  lemma FinishStep(p: P.State, pa: P.Action, k: nat)
    requires P.Inv(p) && P.Enabled(p, pa) && k in P.Next(p, pa).finished && k < |P.Next(p, pa).taken|
    ensures k < |p.taken| && P.Next(p, pa).taken[k] == p.taken[k]
    ensures k in p.finished || (pa.Finish? && p.workers[pa.w] == P.Running(k))
  {
  }

  lemma FinishedStep(s: State, a: Action)
    requires Inv(s) && Enabled(s, a) && FinishedLeft(s)
    ensures FinishedLeft(Next(s, a))
  {
    var t := Next(s, a);
    forall k: nat | k in t.pool.finished && k < |t.pool.taken| && t.pool.taken[k] < |t.loops|
      ensures t.loops[t.pool.taken[k]].loop == L.Left
    {
      match a
      case Pool(pa) =>
        FinishStep(s.pool, pa, k);
        if k !in s.pool.finished {
          assert Runs(s, pa.w, s.pool.taken[k]);
        }
      case Loop(i, la) => if s.loops[i].loop == L.Left { LeftStays(s.loops[i], la); }
    }
  }

  lemma {:induction false} FinishedAlways(s0: State, acts: seq<Action>)
    requires Init(s0)
    ensures FinishedLeft(Exec(s0, acts))
  {
    if acts != [] {
      var n := |acts| - 1;
      FinishedAlways(s0, acts[..n]);
      InitInv(s0);
      Always(s0, acts[..n]);
      if Enabled(Exec(s0, acts[..n]), acts[n]) {
        FinishedStep(Exec(s0, acts[..n]), acts[n]);
      }
    }
  }

  /** When the pool's Stop has returned, every loop whose run a worker had started has left it. */
  lemma {:induction false} StoppedLeft(s0: State, acts: seq<Action>, k: nat)
    requires Init(s0) && P.Stopped(Exec(s0, acts).pool) && k < |Exec(s0, acts).pool.taken|
    ensures var s := Exec(s0, acts); s.pool.taken[k] < |s.loops| ==> s.loops[s.pool.taken[k]].loop == L.Left
  {
    InitInv(s0);
    Always(s0, acts);
    FinishedAlways(s0, acts);
    var p := Exec(s0, acts).pool;
    assert P.NoneLost(p);
    assert forall w :: !P.HeldBy(p, k, w);
  }

  // ---------------------------------------------------------------- it can hang

  lemma Step(s0: State, acts: seq<Action>, a: Action) returns (longer: seq<Action>)
    requires Enabled(Exec(s0, acts), a)
    ensures Exec(s0, longer) == Next(Exec(s0, acts), a)
  {
    longer := acts + [a];
    assert longer[..|acts|] == acts;
  }

  /** The steps of an undisturbed addtask while no worker sleeps. */
  lemma AddTask(p: P.State)
    requires p.producers == [P.Idle] && p.mutex == P.Free && p.workers == [P.Top] && p.queue == [] && p.added == []
    ensures P.Enabled(p, P.Offer(0, 0))
    ensures var q := P.Next(p, P.Offer(0, 0));
            && P.Enabled(q, P.LockToPush(0))
            && var r := P.Next(q, P.LockToPush(0));
               && P.Enabled(r, P.Push(0))
               && var t := P.Next(r, P.Push(0));
                  P.Enabled(t, P.Notify(0, 0)) && P.Next(t, P.Notify(0, 0)) == p.(queue := [0], added := [0])
  {
    var q := P.Next(p, P.Offer(0, 0));
    assert q == p.(producers := [P.Offering(0)]);
    var r := P.Next(q, P.LockToPush(0));
    assert r == p.(producers := [P.Pushing(0)], mutex := P.ByProducer(0));
    var t := P.Next(r, P.Push(0));
    assert t == p.(producers := [P.OwesNotify], queue := [0], added := [0]);
    assert t.producers[0 := P.Idle] == p.producers;
  }

  lemma PoolStep(s0: State, acts: seq<Action>, pa: P.Action) returns (longer: seq<Action>)
    requires P.Enabled(Exec(s0, acts).pool, pa) && !pa.Finish? && !pa.SetStop?
    ensures Exec(s0, longer) == Exec(s0, acts).(pool := P.Next(Exec(s0, acts).pool, pa))
  {
    longer := Step(s0, acts, Pool(pa));
  }

  /** One worker, one producer, one loop, its task added to the pool. */
  lemma AddRun(s0: State) returns (acts: seq<Action>)
    requires Init(s0) && |s0.pool.workers| == 1 && |s0.pool.producers| == 1 && |s0.loops| == 1
    ensures Exec(s0, acts) == s0.(pool := s0.pool.(queue := [0], added := [0]))
  {
    assert s0.pool.producers == [P.Idle] && s0.pool.workers == [P.Top];
    AddTask(s0.pool);
    acts := PoolStep(s0, [], P.Offer(0, 0));
    acts := PoolStep(s0, acts, P.LockToPush(0));
    acts := PoolStep(s0, acts, P.Push(0));
    acts := PoolStep(s0, acts, P.Notify(0, 0));
  }

  /** A worker at the top of its loop comes to its predicate. */
  lemma Approach(s0: State, before: seq<Action>) returns (acts: seq<Action>)
    requires var s := Exec(s0, before); s.pool.workers == [P.Top] && s.pool.mutex == P.Free && !s.pool.stop
    ensures var s := Exec(s0, before);
            Exec(s0, acts) == s.(pool := s.pool.(workers := [if s.pool.queue != [] then P.Deciding else P.ToBlock],
                                                 mutex := P.ByWorker(0)))
  {
    var p := Exec(s0, before).pool;
    acts := Step(s0, before, Pool(P.Enter(0)));
    assert Exec(s0, acts).pool == p.(workers := [P.WantLock]);
    acts := Step(s0, acts, Pool(P.Lock(0)));
    assert Exec(s0, acts).pool == p.(workers := [P.Testing], mutex := P.ByWorker(0));
    acts := Step(s0, acts, Pool(P.Test(0)));
  }

  /** The worker is inside `run` of the loop. */
  lemma StartRun(s0: State) returns (acts: seq<Action>)
    requires Init(s0) && |s0.pool.workers| == 1 && |s0.pool.producers| == 1 && |s0.loops| == 1
    ensures var s := Exec(s0, acts);
            && s.pool.workers == [P.Running(0)] && s.pool.taken == [0] && s.pool.queue == [] && s.pool.mutex == P.Free
            && !s.pool.stop && s.pool.stopper == P.NotCalled && s.pool.producers == [P.Idle] && s.loops == s0.loops
  {
    acts := AddRun(s0);
    assert s0.pool.workers == [P.Top] && s0.pool.producers == [P.Idle];
    acts := Approach(s0, acts);
    acts := PoolStep(s0, acts, P.Take(0));
  }

  /** stop is called for the loop, and its run returns. */
  lemma StopLoop(s0: State, before: seq<Action>) returns (acts: seq<Action>)
    requires var s := Exec(s0, before);
             |s.loops| == 1 && L.Init(s.loops[0]) && s.pool.workers == [P.Running(0)] && s.pool.taken == [0]
    ensures var s, t := Exec(s0, before), Exec(s0, acts);
            && t.pool == s.pool && |t.loops| == 1 && t.loops[0].stopper == L.Done && t.loops[0].loop == L.Left
  {
    acts := Step(s0, before, Loop(0, L.SetStop));
    acts := Step(s0, acts, Loop(0, L.StopWake));
    assert Runs(Exec(s0, acts), 0, 0);
    acts := Step(s0, acts, Loop(0, L.CheckStop));
  }

  /** With one sub-loop and one worker: the run returns, the worker finds no further task, and stop sets
      the flag just then. */
  lemma ShutdownCanHang(s0: State) returns (acts: seq<Action>)
    requires Init(s0) && |s0.pool.workers| == 1 && |s0.pool.producers| == 1 && |s0.loops| == 1
    ensures var s := Exec(s0, acts);
            s.pool.stopper == P.Notifying && Enabled(s, Pool(P.NotifyAll)) && !MustReturn(Next(s, Pool(P.NotifyAll)))
  {
    acts := StartRun(s0);
    acts := StopLoop(s0, acts);
    acts := Step(s0, acts, Pool(P.Finish(0)));
    assert Exec(s0, acts).pool.workers == [P.Top];
    acts := Approach(s0, acts);
    acts := Step(s0, acts, Pool(P.SetStop));
    var s := Exec(s0, acts);
    assert P.IsAt(s.pool, 0, P.ToBlock) && P.SomeToBlock(s.pool);
    assert forall p :: !P.Offers(s.pool, p);
    StopReturnsIff(s0, acts);
  }
}
