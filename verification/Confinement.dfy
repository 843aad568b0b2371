/** Thread confinement: the I/O pool runs each sub-loop on one thread, and only that thread touches the
    output buffers of the sub-loop's connections, whichever thread calls `send`. */
module Confinement {
  import opened Options
  import P = ThreadPools

  /** A worker of the I/O pool, or any other thread: main loop, worker of the business pool. */
  datatype Thread = Io(w: nat) | Foreign(k: nat)

  /** One change of an output buffer: appending in sendinloop or erasing in writecallback. */
  datatype Touch = Touch(loop: nat, who: Thread)

  /** Task i of the I/O pool is `run` of sub-loop i. `threadid[i]` is what that run stored, `queued[i]`
      the sendinloop tasks waiting on loop i, `offered` the constructor loop's counter. */
  datatype State = State(pool: P.State, offered: nat, threadid: seq<Option<Thread>>, queued: seq<nat>, touches: seq<Touch>)

  predicate Init(s: State)
  {
    && P.Init(s.pool) && |s.pool.producers| == 1
    && s.offered == 0 && |s.queued| == |s.threadid| && s.touches == []
    && (forall i :: 0 <= i < |s.queued| ==> s.queued[i] == 0)
    && forall i :: 0 <= i < |s.threadid| ==> s.threadid[i] == None
  }

  datatype Action =
    | Pool(pa: P.Action)
    | EnterRun(w: nat)                    // run() stores its thread id
    | Send(who: Thread, loop: nat)         // Connection::send on a connection of that loop
    | RunQueued(w: nat)                   // handlewakeup runs a queued sendinloop
    | WriteOut(w: nat)                    // writecallback

  /** Worker w is inside `run` of loop i. */
  predicate RunsLoop(s: State, w: nat, i: nat)
  {
    && w < |s.pool.workers| && s.pool.workers[w].Running?
    && s.pool.workers[w].pos < |s.pool.taken| && s.pool.taken[s.pool.workers[w].pos] == i
    && i < |s.threadid| && i < |s.queued|
  }

  /** The same, past the first statement of `run`, which stores a thread id. */
  predicate InRun(s: State, w: nat, i: nat) { RunsLoop(s, w, i) && s.threadid[i].Some? }

  function LoopOf(s: State, w: nat): nat
  {
    if w < |s.pool.workers| && s.pool.workers[w].Running? && s.pool.workers[w].pos < |s.pool.taken|
    then s.pool.taken[s.pool.workers[w].pos] else 0
  }

  predicate Enabled(s: State, a: Action)
  {
    match a
    case Pool(pa) =>
      && P.Enabled(s.pool, pa)
      && (pa.Offer? ==> pa.task == s.offered && s.offered < |s.threadid|)
    case EnterRun(w) => RunsLoop(s, w, LoopOf(s, w))
    case Send(_, i) => i < |s.threadid| && i < |s.queued|
    case RunQueued(w) => InRun(s, w, LoopOf(s, w)) && s.queued[LoopOf(s, w)] > 0
    case WriteOut(w) => InRun(s, w, LoopOf(s, w))
  }

  function Next(s: State, a: Action): State
    requires Enabled(s, a)
  {
    match a
    case Pool(pa) => s.(pool := P.Next(s.pool, pa), offered := if pa.Offer? then s.offered + 1 else s.offered)
    case EnterRun(w) => s.(threadid := s.threadid[LoopOf(s, w) := Some(Io(w))])
    case Send(th, i) =>
      if s.threadid[i] == Some(th) then s.(touches := s.touches + [Touch(i, th)])
      else s.(queued := s.queued[i := s.queued[i] + 1])
    case RunQueued(w) =>
      var i := LoopOf(s, w);
      s.(queued := s.queued[i := s.queued[i] - 1], touches := s.touches + [Touch(i, Io(w))])
    case WriteOut(w) => s.(touches := s.touches + [Touch(LoopOf(s, w), Io(w))])
  }

  /** The state after a sequence of actions; an action that is not enabled does not happen. */
  function Exec(s: State, acts: seq<Action>): State
  {
    if acts == [] then s
    else
      var t := Exec(s, acts[..|acts| - 1]);
      if Enabled(t, acts[|acts| - 1]) then Next(t, acts[|acts| - 1]) else t
  }

  // ---------------------------------------------------------------- invariant

  /** The run tasks enter the pool in order, each once. */
  ghost predicate OfferedOnce(s: State)
  {
    && |s.pool.producers| == 1
    && (forall k :: 0 <= k < |s.pool.added| ==> s.pool.added[k] == k)
    && (match s.pool.producers[0]
        case Offering(t) => t == |s.pool.added| && s.offered == t + 1
        case Pushing(t) => t == |s.pool.added| && s.offered == t + 1
        case _ => s.offered == |s.pool.added|)
  }

  /** A stored thread id is that of the worker running the loop, or the loop's run has returned. */
  ghost predicate StoredBy(s: State, i: nat)
    requires i < |s.threadid|
  {
    s.threadid[i].Some? ==>
      && s.threadid[i].value.Io?
      && i < |s.pool.taken|
      && (P.IsAt(s.pool, s.threadid[i].value.w, P.Running(i)) || i in s.pool.finished)
  }

  ghost predicate Confined(s: State)
  {
    forall k :: 0 <= k < |s.touches| ==>
      s.touches[k].loop < |s.threadid| && s.threadid[s.touches[k].loop] == Some(s.touches[k].who)
  }

  ghost predicate Inv(s: State)
  {
    && P.Inv(s.pool) && OfferedOnce(s) && |s.queued| == |s.threadid|
    && (forall i :: 0 <= i < |s.threadid| ==> StoredBy(s, i))
    && Confined(s)
  }

  lemma TakenInOrder(s: State, k: nat)
    requires P.Fifo(s.pool) && OfferedOnce(s) && k < |s.pool.taken|
    ensures s.pool.taken[k] == k
  {
    assert s.pool.added[k] == s.pool.taken[k];
  }

  lemma OfferedKeeps(s: State, pa: P.Action)
    requires OfferedOnce(s) && Enabled(s, Pool(pa))
    ensures OfferedOnce(Next(s, Pool(pa)))
  {
  }

  lemma StoredKeeps(s: State, pa: P.Action, i: nat)
    requires i < |s.threadid| && StoredBy(s, i) && Enabled(s, Pool(pa))
    ensures StoredBy(Next(s, Pool(pa)), i)
  {
  }

  /** Entering run never changes a thread id already stored. */
  lemma EnterKeeps(s: State, w: nat)
    requires Inv(s) && Enabled(s, EnterRun(w))
    ensures var i := LoopOf(s, w);
            && s.pool.workers[w] == P.Running(i)
            && (s.threadid[i].Some? ==> s.threadid[i] == Some(Io(w)))
  {
    var i := LoopOf(s, w);
    TakenInOrder(s, s.pool.workers[w].pos);
    assert StoredBy(s, i);
  }

  /** The id stored for a loop is that of the worker inside its run. */
  lemma RunnerStored(s: State, w: nat, i: nat)
    requires Inv(s) && InRun(s, w, i)
    ensures s.threadid[i] == Some(Io(w))
  {
    TakenInOrder(s, s.pool.workers[w].pos);
    assert StoredBy(s, i);
    assert P.HeldOnce(s.pool);
  }

  lemma NextKeeps(s: State, a: Action)
    requires Inv(s) && Enabled(s, a)
    ensures Inv(Next(s, a))
    ensures |Next(s, a).threadid| == |s.threadid|
    ensures forall i :: 0 <= i < |s.threadid| && s.threadid[i].Some? ==> Next(s, a).threadid[i] == s.threadid[i]
  {
    var t := Next(s, a);
    match a
    case Pool(pa) =>
      P.NextKeeps(s.pool, pa);
      OfferedKeeps(s, pa);
      forall i | 0 <= i < |t.threadid|
        ensures StoredBy(t, i)
      {
        StoredKeeps(s, pa, i);
      }
    case EnterRun(w) =>
      EnterKeeps(s, w);
      forall i | 0 <= i < |t.threadid|
        ensures StoredBy(t, i)
      {
        assert StoredBy(s, i);
      }
    case Send(_, _) => StoredSame(s, t);
    case RunQueued(w) =>
      RunnerStored(s, w, LoopOf(s, w));
      StoredSame(s, t);
    case WriteOut(w) =>
      RunnerStored(s, w, LoopOf(s, w));
      StoredSame(s, t);
  }

  lemma StoredSame(s: State, t: State)
    requires Inv(s) && t.pool == s.pool && t.threadid == s.threadid
    ensures forall i :: 0 <= i < |t.threadid| ==> StoredBy(t, i)
  {
    forall i | 0 <= i < |t.threadid|
      ensures StoredBy(t, i)
    {
      assert StoredBy(s, i);
    }
  }

  lemma {:induction false} Always(s: State, acts: seq<Action>)
    requires Inv(s)
    ensures Inv(Exec(s, acts)) && |Exec(s, acts).threadid| == |s.threadid|
    ensures forall i :: 0 <= i < |s.threadid| && s.threadid[i].Some? ==> Exec(s, acts).threadid[i] == s.threadid[i]
  {
    if acts != [] {
      Always(s, acts[..|acts| - 1]);
      var t := Exec(s, acts[..|acts| - 1]);
      if Enabled(t, acts[|acts| - 1]) {
        NextKeeps(t, acts[|acts| - 1]);
      }
    }
  }

  lemma InitInv(s: State)
    requires Init(s)
    ensures Inv(s)
  {
    P.InitInv(s.pool);
  }

  /** No two workers are ever inside `run` of the same sub-loop. */
  lemma {:induction false} OneRunner(s0: State, acts: seq<Action>, v: nat, w: nat, i: nat)
    requires Init(s0) && RunsLoop(Exec(s0, acts), v, i) && RunsLoop(Exec(s0, acts), w, i)
    ensures v == w
  {
    InitInv(s0);
    Always(s0, acts);
    var s := Exec(s0, acts);
    TakenInOrder(s, s.pool.workers[v].pos);
    TakenInOrder(s, s.pool.workers[w].pos);
    assert P.HeldOnce(s.pool);
  }

  /** A touch of a sub-loop's connection, by the thread that sub-loop's run stored. */
  ghost predicate ByOwnThread(s: State, x: Touch)
  {
    x.loop < |s.threadid| && x.who.Io? && s.threadid[x.loop] == Some(x.who)
  }

  /** Confinement over every run: every change ever made to an output buffer of a sub-loop's
      connection is made by the thread that runs the sub-loop, a worker of the I/O pool, and that
      thread never changes: earlier and later touches of one sub-loop are by one thread. */
  lemma {:induction false} ThreadConfinement(s0: State, acts: seq<Action>, more: seq<Action>)
    requires Init(s0)
    ensures var s, t := Exec(s0, acts), Exec(Exec(s0, acts), more);
            && (forall k :: 0 <= k < |t.touches| ==> ByOwnThread(t, t.touches[k]))
            && (forall j :: 0 <= j < |s.touches| ==> ByOwnThread(t, s.touches[j]))
  {
    InitInv(s0);
    Always(s0, acts);
    var s := Exec(s0, acts);
    Always(s, more);
    var t := Exec(s, more);
    forall k | 0 <= k < |t.touches|
      ensures ByOwnThread(t, t.touches[k])
    {
      assert StoredBy(t, t.touches[k].loop);
    }
    forall j | 0 <= j < |s.touches|
      ensures ByOwnThread(t, s.touches[j])
    {
      assert StoredBy(s, s.touches[j].loop);
    }
  }

  // ---------------------------------------------------------------- nothing sent is lost

  /** Sends on connections of sub-loop i, told from the actions. */
  function Sends(s0: State, acts: seq<Action>, i: nat): nat
  {
    if acts == [] then 0
    else
      var before, a := acts[..|acts| - 1], acts[|acts| - 1];
      Sends(s0, before, i) + (if a.Send? && a.loop == i && Enabled(Exec(s0, before), a) then 1 else 0)
  }

  /** Write callbacks of sub-loop i. */
  function Writes(s0: State, acts: seq<Action>, i: nat): nat
  {
    if acts == [] then 0
    else
      var before, a := acts[..|acts| - 1], acts[|acts| - 1];
      var s := Exec(s0, before);
      Writes(s0, before, i) + (if a.WriteOut? && Enabled(s, a) && LoopOf(s, a.w) == i then 1 else 0)
  }

  function Touches(ts: seq<Touch>, i: nat): nat
  {
    if ts == [] then 0 else Touches(ts[..|ts| - 1], i) + (if ts[|ts| - 1].loop == i then 1 else 0)
  }

  lemma TouchesPush(ts: seq<Touch>, x: Touch, i: nat)
    ensures Touches(ts + [x], i) == Touches(ts, i) + (if x.loop == i then 1 else 0)
  {
    assert (ts + [x])[..|ts|] == ts;
  }

  lemma SentStep(s: State, a: Action, i: nat)
    requires Enabled(s, a) && i < |s.queued|
    ensures |Next(s, a).queued| == |s.queued|
    ensures Touches(Next(s, a).touches, i) + Next(s, a).queued[i]
         == Touches(s.touches, i) + s.queued[i] + (if a.Send? && a.loop == i then 1 else 0)
            + (if a.WriteOut? && LoopOf(s, a.w) == i then 1 else 0)
  {
    match a
    case Send(th, j) => TouchesPush(s.touches, Touch(j, th), i);
    case RunQueued(w) => TouchesPush(s.touches, Touch(LoopOf(s, w), Io(w)), i);
    case WriteOut(w) => TouchesPush(s.touches, Touch(LoopOf(s, w), Io(w)), i);
    case _ =>
  }

  /** Every send becomes one change of an output buffer or is still queued, and every write callback is
      one: no other change is ever made. */
  lemma {:induction false} SendsAccounted(s0: State, acts: seq<Action>, i: nat)
    requires Init(s0) && i < |s0.queued|
    ensures var s := Exec(s0, acts);
            && |s.queued| == |s0.queued|
            && Touches(s.touches, i) + s.queued[i] == Sends(s0, acts, i) + Writes(s0, acts, i)
  {
    if acts != [] {
      var n := |acts| - 1;
      SendsAccounted(s0, acts[..n], i);
      if Enabled(Exec(s0, acts[..n]), acts[n]) {
        SentStep(Exec(s0, acts[..n]), acts[n], i);
      }
    }
  }
}
