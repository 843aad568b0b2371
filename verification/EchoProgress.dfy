/** Progress of the composed service: when a read callback returns, and that before shutdown the steps
    of callbacks, pool, workers and loops that are bound to come are bounded, and one of them is
    possible while a delivered job is under way. */
module EchoProgress {
  import opened Options
  import opened Framing
  import opened EndToEnd
  import opened EchoPlaces
  import opened EchoOrder
  import opened EchoCallbacks
  import opened EchoHistory
  import EchoContent
  import P = ThreadPools
  import L = LoopHandoff

  /** Steps bound to come: no byte arrives, no timer sweeps, nobody stops anything, and no wake-up is
      spurious. A read that finds nothing more finds EAGAIN or end of file. */
  predicate Internal(a: Action)
  {
    match a
    case Back(b) => !b.Read? && !b.Sweep?
    case Deliver(_) => true
    case Pool(pa) => P.Settling(pa)
    case CheckOpen(_) => true
    case Return(_) => true
    case Loop(_, la) => L.Internal(la)
  }

  /** Nobody has called Stop. */
  predicate Serving(s: State)
  {
    !s.pool.stop && forall i :: 0 <= i < |s.loops| ==> !s.loops[i].stop
  }

  // ---------------------------------------------------------------- the rank

  function WorkerWeight(w: P.Worker, g: Stage): nat
  {
    match w
    case Exited => 0
    case Asleep => 0
    case ToBlock => 1
    case Deciding => 2
    case Testing => 3
    case WantLock => 4
    case Woken => 4
    case Top => 5
    case Running(_) => if g == Fresh then 37 else 6
  }

  function WorkersWeight(ws: seq<P.Worker>, gs: seq<Stage>): nat
    requires |ws| == |gs|
  {
    if ws == [] then 0 else WorkerWeight(ws[0], gs[0]) + WorkersWeight(ws[1..], gs[1..])
  }

  function ProducerWeight(p: P.Producer): nat
  {
    match p
    case Idle => 0
    case OwesNotify => 5
    case Pushing(_) => 42
    case Offering(_) => 43
  }

  function ProducersWeight(ps: seq<P.Producer>): nat
  {
    if ps == [] then 0 else ProducerWeight(ps[0]) + ProducersWeight(ps[1..])
  }

  function LoopsWeight(ls: seq<L.State>): nat
  {
    if ls == [] then 0 else L.Weight(ls[0]) + LoopsWeight(ls[1..])
  }

  function PhaseWeight(p: Phase): nat
  {
    match p
    case Before => 2
    case Reading => 2
    case Extracting => 1
    case Over => 0
  }

  function PhasesWeight(ps: seq<Phase>): nat
  {
    if ps == [] then 0 else PhaseWeight(ps[0]) + PhasesWeight(ps[1..])
  }

  /** Messages complete in the input buffers. */
  function Messages(xs: seq<Conn>): nat
  {
    if xs == [] then 0 else |Drain(xs[0].input).msgs| + Messages(xs[1..])
  }

  function Rank(s: State): nat
    requires Sized(s)
  {
    WorkersWeight(s.pool.workers, s.stage) + ProducersWeight(s.pool.producers) + 36 * |s.pool.queue|
    + 3 * LoopsWeight(s.loops) + PhasesWeight(s.phase) + 44 * Messages(s.conns) + One(s.fate == Going)
  }

  lemma {:induction false} WorkersUpdate(ws: seq<P.Worker>, gs: seq<Stage>, i: nat, w: P.Worker, g: Stage)
    requires |ws| == |gs| && i < |ws|
    ensures WorkersWeight(ws[i := w], gs[i := g])
         == WorkersWeight(ws, gs) - WorkerWeight(ws[i], gs[i]) + WorkerWeight(w, g)
  {
    if i == 0 {
      assert ws[i := w][1..] == ws[1..] && gs[i := g][1..] == gs[1..];
    } else {
      WorkersUpdate(ws[1..], gs[1..], i - 1, w, g);
      assert ws[i := w][1..] == ws[1..][i - 1 := w] && gs[i := g][1..] == gs[1..][i - 1 := g];
    }
  }

  lemma {:induction false} ProducersUpdate(ps: seq<P.Producer>, i: nat, p: P.Producer)
    requires i < |ps|
    ensures ProducersWeight(ps[i := p]) == ProducersWeight(ps) - ProducerWeight(ps[i]) + ProducerWeight(p)
  {
    if i == 0 {
      assert ps[i := p][1..] == ps[1..];
    } else {
      ProducersUpdate(ps[1..], i - 1, p);
      assert ps[i := p][1..] == ps[1..][i - 1 := p];
    }
  }

  lemma {:induction false} LoopsUpdate(ls: seq<L.State>, i: nat, l: L.State)
    requires i < |ls|
    ensures LoopsWeight(ls[i := l]) == LoopsWeight(ls) - L.Weight(ls[i]) + L.Weight(l)
  {
    if i == 0 {
      assert ls[i := l][1..] == ls[1..];
    } else {
      LoopsUpdate(ls[1..], i - 1, l);
      assert ls[i := l][1..] == ls[1..][i - 1 := l];
    }
  }

  lemma {:induction false} PhasesUpdate(ps: seq<Phase>, i: nat, p: Phase)
    requires i < |ps|
    ensures PhasesWeight(ps[i := p]) == PhasesWeight(ps) - PhaseWeight(ps[i]) + PhaseWeight(p)
  {
    if i == 0 {
      assert ps[i := p][1..] == ps[1..];
    } else {
      PhasesUpdate(ps[1..], i - 1, p);
      assert ps[i := p][1..] == ps[1..][i - 1 := p];
    }
  }

  lemma {:induction false} MessagesUpdate(xs: seq<Conn>, c: nat, x: Conn)
    requires c < |xs|
    ensures Messages(xs[c := x]) == Messages(xs) - |Drain(xs[c].input).msgs| + |Drain(x.input).msgs|
  {
    if c == 0 {
      assert xs[c := x][1..] == xs[1..];
    } else {
      MessagesUpdate(xs[1..], c - 1, x);
      assert xs[c := x][1..] == xs[1..][c - 1 := x];
    }
  }

  // ---------------------------------------------------------------- every internal step lowers it

  /** A worker's own step inside the pool, other than taking a task. */
  lemma WorkerStep(p: P.State, pa: P.Action, g: Stage)
    requires P.Enabled(p, pa) && (pa.Enter? || pa.Lock? || pa.Test? || pa.Block?) && !p.stop
    ensures var q := P.Next(p, pa);
            && q.workers == p.workers[pa.w := q.workers[pa.w]] && q.producers == p.producers
            && q.queue == p.queue && q.taken == p.taken && !q.stop
            && WorkerWeight(q.workers[pa.w], g) < WorkerWeight(p.workers[pa.w], g)
  {
  }

  lemma WorkerDrops(s: State, pa: P.Action)
    requires Enabled(s, Pool(pa)) && (pa.Enter? || pa.Lock? || pa.Test? || pa.Block?) && !s.pool.stop
    ensures Sized(NextPool(s, pa)) && Rank(NextPool(s, pa)) < Rank(s) && !NextPool(s, pa).pool.stop
  {
    SizedKeeps(s, Pool(pa));
    var w, q := pa.w, P.Next(s.pool, pa);
    WorkerStep(s.pool, pa, s.stage[w]);
    WorkersUpdate(s.pool.workers, s.stage, w, q.workers[w], s.stage[w]);
    assert s.stage[w := s.stage[w]] == s.stage;
  }

  lemma TakeDrops(s: State, w: nat)
    requires Enabled(s, Pool(P.Take(w))) && !s.pool.stop
    ensures var t := NextPool(s, P.Take(w)); Sized(t) && Rank(t) < Rank(s) && !t.pool.stop
  {
    SizedKeeps(s, Pool(P.Take(w)));
    var t := NextPool(s, P.Take(w));
    WorkersUpdate(s.pool.workers, s.stage, w, P.Running(|s.pool.taken|), Fresh);
    assert |t.pool.queue| == |s.pool.queue| - 1;
  }

  lemma ProducerDrops(s: State, pa: P.Action)
    requires Enabled(s, Pool(pa)) && (pa.LockToPush? || pa.Push?) && !s.pool.stop
    ensures Sized(NextPool(s, pa)) && Rank(NextPool(s, pa)) < Rank(s) && !NextPool(s, pa).pool.stop
  {
    SizedKeeps(s, Pool(pa));
    ProducersUpdate(s.pool.producers, pa.p, P.Next(s.pool, pa).producers[pa.p]);
  }

  lemma NotifyDrops(s: State, pa: P.Action)
    requires Enabled(s, Pool(pa)) && pa.Notify? && !s.pool.stop
    ensures Sized(NextPool(s, pa)) && Rank(NextPool(s, pa)) < Rank(s) && !NextPool(s, pa).pool.stop
  {
    SizedKeeps(s, Pool(pa));
    ProducersUpdate(s.pool.producers, pa.p, P.Idle);
    if P.IsAt(s.pool, pa.w, P.Asleep) {
      WorkersUpdate(s.pool.workers, s.stage, pa.w, P.Woken, s.stage[pa.w]);
      assert s.stage[pa.w := s.stage[pa.w]] == s.stage;
    }
  }

  lemma PoolDrops(s: State, pa: P.Action)
    requires PartsOk(s) && Enabled(s, Pool(pa)) && P.Settling(pa) && !s.pool.stop
    ensures Sized(NextPool(s, pa)) && Rank(NextPool(s, pa)) < Rank(s) && !NextPool(s, pa).pool.stop
  {
    if pa.Enter? || pa.Lock? || pa.Test? || pa.Block? {
      WorkerDrops(s, pa);
    } else if pa.Take? {
      TakeDrops(s, pa.w);
    } else if pa.Notify? {
      NotifyDrops(s, pa);
    } else {
      NotStopping(s.pool, pa);
      ProducerDrops(s, pa);
    }
  }

  lemma NotStopping(p: P.State, pa: P.Action)
    requires P.Inv(p) && !p.stop && P.Enabled(p, pa)
    ensures !pa.NotifyAll? && !pa.Join?
  {
  }

  lemma OfferWeight(l: L.State, w: nat, t: nat)
    requires L.Enabled(l, L.Offer(w, t))
    ensures L.Weight(L.Next(l, L.Offer(w, t))) == L.Weight(l) + 10 && L.Next(l, L.Offer(w, t)).stop == l.stop
  {
    L.ProducersWeightUpdate(l.producers, w, L.Offering(t));
  }

  lemma SettleDrops(s: State, t: State, w: nat)
    requires Sized(s) && Sized(t) && w < |s.stage| && s.pool.workers[w].Running? && s.stage[w] == Fresh
    requires t.pool == s.pool && t.loops == s.loops && t.stage == s.stage[w := Settled]
    requires t.phase == s.phase && t.conns == s.conns && t.fate == s.fate
    ensures Rank(t) < Rank(s)
  {
    var ws := s.pool.workers;
    assert ws[w := ws[w]] == ws;
    WorkersUpdate(ws, s.stage, w, ws[w], Settled);
  }

  lemma SendDrops(s: State, t: State, w: nat, h: nat, k: nat)
    requires Sized(s) && Sized(t) && w < |s.stage| && s.pool.workers[w].Running? && s.stage[w] == Fresh
    requires h < |s.loops| && L.Enabled(s.loops[h], L.Offer(w, k))
    requires t.pool == s.pool && t.loops == s.loops[h := L.Next(s.loops[h], L.Offer(w, k))] && t.stage == s.stage[w := Sending]
    requires t.phase == s.phase && t.conns == s.conns && t.fate == s.fate
    ensures Rank(t) < Rank(s)
  {
    var ws := s.pool.workers;
    assert ws[w := ws[w]] == ws;
    WorkersUpdate(ws, s.stage, w, ws[w], Sending);
    OfferWeight(s.loops[h], w, k);
    LoopsUpdate(s.loops, h, L.Next(s.loops[h], L.Offer(w, k)));
  }

  lemma CheckDrops(s: State, w: nat)
    requires Enabled(s, CheckOpen(w)) && Serving(s)
    ensures Sized(NextCheck(s, w)) && Rank(NextCheck(s, w)) < Rank(s) && Serving(NextCheck(s, w))
  {
    SizedKeeps(s, CheckOpen(w));
    var t := JobOf(s, w);
    if ConnOf(s.jobs, t) in s.closed {
      SettleDrops(s, NextCheck(s, w), w);
    } else {
      SendDrops(s, NextCheck(s, w), w, Home(s, ConnOf(s.jobs, t)), t);
    }
  }

  lemma ReturnDrops(s: State, w: nat)
    requires Enabled(s, Return(w)) && Serving(s)
    ensures Sized(Next(s, Return(w))) && Rank(Next(s, Return(w))) < Rank(s) && Serving(Next(s, Return(w)))
  {
    SizedKeeps(s, Return(w));
    WorkersUpdate(s.pool.workers, s.stage, w, P.Top, s.stage[w]);
    assert s.stage[w := s.stage[w]] == s.stage;
  }

  /** Appending to a stream or ending the process adds nothing to the rank. */
  lemma LoopConns(s: State, i: nat, la: L.Action)
    requires Enabled(s, Loop(i, la))
    ensures Messages(NextLoop(s, i, la).conns) == Messages(s.conns)
  {
    var t := NextLoop(s, i, la);
    if la.RunTask? {
      var c := ConnOf(s.jobs, s.loops[i].queue[0]);
      if c < |s.conns| {
        MessagesUpdate(s.conns, c, t.conns[c]);
      }
    }
  }

  lemma LoopMovesDrop(s: State, t: State, i: nat, la: L.Action)
    requires PartsOk(s) && Sized(t) && i < |s.loops| && L.Enabled(s.loops[i], la) && L.Internal(la) && Serving(s)
    requires t.loops == s.loops[i := L.Next(s.loops[i], la)] && t.pool == s.pool && t.stage == s.stage
    requires t.phase == (if la.HandleOther? then s.phase[i := Before] else s.phase) && s.fate == Going
    requires Messages(t.conns) == Messages(s.conns)
    ensures Rank(t) < Rank(s) && Serving(t)
  {
    L.WeightDrops(s.loops[i], la);
    LoopsUpdate(s.loops, i, L.Next(s.loops[i], la));
    PhasesUpdate(s.phase, i, Before);
  }

  lemma LoopDrops(s: State, i: nat, la: L.Action)
    requires PartsOk(s) && Enabled(s, Loop(i, la)) && L.Internal(la) && Serving(s)
    ensures var t := NextLoop(s, i, la); Sized(t) && Rank(t) < Rank(s) && Serving(t)
  {
    SizedKeeps(s, Loop(i, la));
    LoopFrame(s, i, la);
    LoopConns(s, i, la);
    LoopMovesDrop(s, NextLoop(s, i, la), i, la);
  }

  lemma BackDrops(s: State, b: Step)
    requires Enabled(s, Back(b)) && !b.Read? && !b.Sweep? && Serving(s)
    ensures var t := NextStep(s, b); Sized(t) && Rank(t) < Rank(s) && Serving(t)
  {
    SizedKeeps(s, Back(b));
    match b
    case Again(c) => PhasesUpdate(s.phase, Home(s, c), Extracting);
    case Leave(c) => PhasesUpdate(s.phase, Home(s, c), Over);
    case Close(c) => PhasesUpdate(s.phase, Home(s, c), Over);
    case Write(c, n) =>
      PhasesUpdate(s.phase, Home(s, c), Over);
      MessagesUpdate(s.conns, c, NextStep(s, b).conns[c]);
    case Dangle(_) =>
  }

  lemma DeliverRank(s: State, t: State, c: nat, h: nat, k: nat)
    requires Sized(s) && Sized(t) && c < |s.conns| && h < |s.pool.producers| && s.pool.producers[h] == P.Idle
    requires Pick(s.conns[c].input).Message? && Header(s.conns[c].input) != -4
    requires t.pool == s.pool.(producers := s.pool.producers[h := P.Offering(k)])
    requires t.loops == s.loops && t.stage == s.stage && t.phase == s.phase && t.fate == s.fate
    requires |t.conns| == |s.conns| && t.conns == s.conns[c := t.conns[c]]
    requires t.conns[c].input == Pick(s.conns[c].input).rest
    ensures Rank(t) < Rank(s)
  {
    DrainStep(s.conns[c].input);
    MessagesUpdate(s.conns, c, t.conns[c]);
    ProducersUpdate(s.pool.producers, h, P.Offering(k));
  }

  lemma DeliverDrops(s: State, c: nat)
    requires Enabled(s, Deliver(c)) && Header(s.conns[c].input) != -4 && Serving(s)
    ensures var t := Next(s, Deliver(c)); Sized(t) && Rank(t) < Rank(s) && Serving(t)
  {
    SizedKeeps(s, Deliver(c));
    DeliverRank(s, Next(s, Deliver(c)), c, Home(s, c), |s.jobs|);
  }

  /** The step delivers under header -4 and erases nothing. */
  predicate Spins(s: State, a: Action)
    requires Enabled(s, a)
  {
    a.Deliver? && Header(s.conns[a.c].input) == -4
  }

  /** Every step bound to come lowers the rank, but a delivery under header -4; none is a shutdown. */
  lemma RankDrops(s: State, a: Action)
    requires PartsOk(s) && Serving(s) && Enabled(s, a) && Internal(a) && !Spins(s, a)
    ensures Sized(Next(s, a)) && Rank(Next(s, a)) < Rank(s) && Serving(Next(s, a))
  {
    match a
    case Back(b) => BackDrops(s, b);
    case Deliver(c) => DeliverDrops(s, c);
    case Pool(pa) => PoolDrops(s, pa);
    case CheckOpen(w) => CheckDrops(s, w);
    case Return(w) => ReturnDrops(s, w);
    case Loop(i, la) => LoopDrops(s, i, la);
  }

  // ---------------------------------------------------------------- one more invariant

  /** A worker that is sending and still holds its job is inside queueinloop. */
  ghost predicate SendingOk(s: State, w: nat)
    requires Sized(s) && w < |s.hand|
  {
    RunsJob(s, w) && s.stage[w] == Sending && s.hand[w].Some? ==>
      var p := s.loops[Home(s, ConnOf(s.jobs, JobOf(s, w)))].producers[w]; p.Offering? || p.Pushing?
  }

  ghost predicate ProgressInv(s: State)
  {
    && CallbackInv(s)
    && (forall w :: 0 <= w < |s.hand| ==> SendingOk(s, w))
  }

  lemma SendingPool(s: State, pa: P.Action, w: nat)
    requires PartsOk(s) && Enabled(s, Pool(pa)) && w < |s.hand| && SendingOk(s, w)
    ensures Sized(NextPool(s, pa)) && SendingOk(NextPool(s, pa), w)
  {
    SizedKeeps(s, Pool(pa));
    PoolStepLocal(s.pool, pa, w);
  }

  lemma SendingCheck(s: State, v: nat, w: nat)
    requires Inv(s) && Enabled(s, CheckOpen(v)) && w < |s.hand| && SendingOk(s, w)
    ensures Sized(NextCheck(s, v)) && SendingOk(NextCheck(s, v), w)
  {
    SizedKeeps(s, CheckOpen(v));
  }

  lemma CarriedStays(l: L.State, la: L.Action, w: nat)
    requires L.Enabled(l, la) && !la.Offer? && w < |l.producers| && (l.producers[w].Offering? || l.producers[w].Pushing?)
    ensures var p := L.Next(l, la).producers[w]; la == L.Push(w) || p.Offering? || p.Pushing?
  {
  }

  lemma SendingLoop(s: State, i: nat, la: L.Action, w: nat)
    requires Inv(s) && Enabled(s, Loop(i, la)) && w < |s.hand| && SendingOk(s, w)
    ensures Sized(NextLoop(s, i, la)) && SendingOk(NextLoop(s, i, la), w)
  {
    SizedKeeps(s, Loop(i, la));
    LoopFrame(s, i, la);
    var p := s.loops[i].producers[w];
    if p.Offering? || p.Pushing? {
      CarriedStays(s.loops[i], la, w);
    }
    assert la == L.Push(w) ==> NextLoop(s, i, la).hand[w] == None;
  }

  lemma SendingDeliver(s: State, c: nat, w: nat)
    requires Inv(s) && Enabled(s, Deliver(c)) && w < |s.hand| && SendingOk(s, w)
    ensures Sized(Next(s, Deliver(c))) && SendingOk(Next(s, Deliver(c)), w)
  {
    SizedKeeps(s, Deliver(c));
    if RunsJob(s, w) {
      TakenKnown(s, s.pool.workers[w].pos);
    }
  }

  lemma SendingBack(s: State, b: Step, w: nat)
    requires Enabled(s, Back(b)) && w < |s.hand| && SendingOk(s, w)
    ensures var t := NextStep(s, b); Sized(t) && w < |t.hand| && SendingOk(t, w)
  {
    SizedKeeps(s, Back(b));
    BackFrame(s, b);
  }

  lemma SendingKeeps(s: State, a: Action, w: nat)
    requires Inv(s) && Enabled(s, a) && w < |s.hand| && SendingOk(s, w)
    ensures Sized(Next(s, a)) && |Next(s, a).hand| == |s.hand| && SendingOk(Next(s, a), w)
  {
    SizedKeeps(s, a);
    match a
    case Back(b) =>
      BackFrame(s, b);
      SendingBack(s, b, w);
    case Pool(pa) => SendingPool(s, pa, w);
    case CheckOpen(v) => SendingCheck(s, v, w);
    case Loop(i, la) => SendingLoop(s, i, la, w);
    case Deliver(c) => SendingDeliver(s, c, w);
    case Return(_) =>
  }

  lemma ProgressKeeps(s: State, a: Action)
    requires ProgressInv(s) && Enabled(s, a)
    ensures ProgressInv(Next(s, a))
  {
    CallbackKeeps(s, a);
    forall w | 0 <= w < |Next(s, a).hand|
      ensures SendingOk(Next(s, a), w)
    {
      SendingKeeps(s, a, w);
    }
  }

  lemma {:induction false} ProgressAlways(s: State, acts: seq<Action>)
    requires ProgressInv(s)
    ensures ProgressInv(Exec(s, acts))
  {
    if acts != [] {
      ProgressAlways(s, acts[..|acts| - 1]);
      var t := Exec(s, acts[..|acts| - 1]);
      if Enabled(t, acts[|acts| - 1]) {
        ProgressKeeps(t, acts[|acts| - 1]);
      }
    }
  }

  lemma ProgressInit(s: State)
    requires Init(s)
    ensures ProgressInv(s)
  {
    CallbackInit(s);
  }

  // ---------------------------------------------------------------- someone can move

  ghost predicate Ready(s: State) { ProgressInv(s) && Serving(s) && s.fate == Going }

  lemma PoolHolderMoves(s: State) returns (a: Action)
    requires Ready(s) && s.pool.mutex != P.Free
    ensures Enabled(s, a) && Internal(a)
  {
    var pa := P.HolderMoves(s.pool);
    a := Pool(pa);
  }

  lemma ProducerMoves(s: State, p: nat) returns (a: Action)
    requires Ready(s) && p < |s.pool.producers| && s.pool.producers[p] != P.Idle
    ensures Enabled(s, a) && Internal(a)
  {
    if s.pool.mutex != P.Free {
      a := PoolHolderMoves(s);
    } else {
      var pa := P.ProducerMoves(s.pool, p);
      a := Pool(pa);
    }
  }

  lemma LoopHolderMoves(s: State, i: nat) returns (a: Action)
    requires Ready(s) && i < |s.loops| && s.loops[i].mutex != L.Free
    ensures Enabled(s, a) && Internal(a)
  {
    assert L.Inv(s.loops[i]) && LoopOk(s, i);
    var la := L.HolderMoves(s.loops[i]);
    a := Loop(i, la);
  }

  /** A worker running a job can go on with it, or someone it waits for can. */
  lemma JobMoves(s: State, w: nat) returns (a: Action)
    requires Ready(s) && RunsJob(s, w)
    ensures Enabled(s, a) && Internal(a)
  {
    var h := Home(s, ConnOf(s.jobs, JobOf(s, w)));
    var p := s.loops[h].producers[w];
    assert HandOk(s, w) && SendsHand(s, h, w) && SendingOk(s, w);
    match p
    case Offering(_) =>
      if s.loops[h].mutex == L.Free { a := Loop(h, L.LockToPush(w)); } else { a := LoopHolderMoves(s, h); }
    case Pushing(_) => a := Loop(h, L.Push(w));
    case OwesWake => a := Loop(h, L.WriteWake(w));
    case Idle => a := if s.stage[w] == Fresh then CheckOpen(w) else Return(w);
  }

  lemma WorkerMoves(s: State, w: nat) returns (a: Action)
    requires Ready(s) && s.pool.mutex == P.Free && w < |s.pool.workers| && s.pool.workers[w] != P.Asleep
    ensures Enabled(s, a) && Internal(a)
  {
    if s.pool.workers[w].Running? {
      a := JobMoves(s, w);
    } else {
      var pa := P.WorkerMoves(s.pool, w);
      a := Pool(pa);
    }
  }

  lemma QueueMoves(s: State) returns (a: Action)
    requires Ready(s) && s.pool.workers != [] && s.pool.queue != []
    ensures Enabled(s, a) && Internal(a)
  {
    if s.pool.mutex != P.Free {
      a := PoolHolderMoves(s);
    } else if p :| P.Owes(s.pool, p) {
      a := ProducerMoves(s, p);
    } else {
      var w :| P.Awake(s.pool, w);
      a := WorkerMoves(s, w);
    }
  }

  /** No open connection holds bytes that the extraction loop does not finish with. */
  ghost predicate Clear(s: State)
  {
    forall c :: 0 <= c < |s.conns| && c !in s.closed ==> Drain(s.conns[c].input).verdict == Waiting
  }

  /** In the callback of a client channel the loop can go on. */
  lemma ClientMoves(s: State, i: nat) returns (a: Action)
    requires Ready(s) && i < |s.loops| && s.pool.producers[i] == P.Idle
    requires s.loops[i].loop.Batch? && s.loops[i].loop.rest != [] && OfClient(s.loops[i].loop.rest[0]) && s.phase[i] != Over
    requires var c := s.loops[i].loop.rest[0].conn;
             c < |s.conns| && Drain(s.conns[c].input).verdict == Waiting
    ensures Enabled(s, a) && Internal(a) && (a.Deliver? || (a.Back? && !a.step.Read? && !a.step.Sweep?))
    ensures s.loops[i].loop.rest[0].conn in s.subs && s.phase[i] == Extracting ==>
              a in {Deliver(s.loops[i].loop.rest[0].conn), Back(Leave(s.loops[i].loop.rest[0].conn))}
  {
    var e := s.loops[i].loop.rest[0];
    var c := e.conn;
    assert LoopOk(s, i) && ListedAt(s, i, 0);
    DrainEnds(s.conns[c].input);
    if !Referenced(s, c) {
      a := Back(Dangle(i));
    } else {
      assert InCallback(s, e);
      match e
      case Writable(_) => a := Back(Write(c, 0));
      case Broken(_) => a := Back(Close(c));
      case Readable(_) =>
        a := if s.phase[i] != Extracting then Back(Again(c))
             else if Pick(s.conns[c].input).Message? then Deliver(c) else Back(Leave(c));
    }
  }

  lemma BatchMoves(s: State, i: nat) returns (a: Action)
    requires Ready(s) && Clear(s) && i < |s.loops| && s.pool.producers[i] == P.Idle && s.loops[i].loop.Batch?
    ensures Enabled(s, a) && Internal(a)
  {
    var rest := s.loops[i].loop.rest;
    if rest == [] {
      a := Loop(i, L.EndBatch);
    } else if rest[0] == L.Wake {
      a := Loop(i, L.ReadWake);
    } else if rest[0] == L.Timer || s.phase[i] == Over {
      a := Loop(i, L.HandleOther);
    } else {
      assert LoopOk(s, i) && ListedAt(s, i, 0);
      a := ClientMoves(s, i);
    }
  }

  lemma LoopMoves(s: State, i: nat) returns (a: Action)
    requires Ready(s) && Clear(s) && i < |s.loops| && s.loops[i].queue != []
    ensures Enabled(s, a) && Internal(a)
  {
    var l := s.loops[i];
    assert L.Inv(l) && LoopOk(s, i);
    if p :| L.Owes(l, p) {
      a := Loop(i, L.WriteWake(p));
    } else if s.pool.producers[i] != P.Idle {
      a := ProducerMoves(s, i);
    } else if l.loop.Batch? {
      a := BatchMoves(s, i);
    } else {
      var la := L.LoopMoves(l);
      a := Loop(i, la);
    }
  }

  // ---------------------------------------------------------------- where a job under way is

  lemma {:induction false} Carrier(ps: seq<P.Producer>, t: nat) returns (p: nat)
    requires Carriers(ps, t) > 0
    ensures p < |ps| && Carries(ps[p], t)
  {
    if Carries(ps[0], t) {
      p := 0;
    } else {
      var q := Carrier(ps[1..], t);
      p := q + 1;
    }
  }

  lemma {:induction false} Holder(hs: seq<Option<nat>>, t: nat) returns (w: nat)
    requires Holders(hs, t) > 0
    ensures w < |hs| && hs[w] == Some(t)
  {
    if hs[0] == Some(t) {
      w := 0;
    } else {
      var v := Holder(hs[1..], t);
      w := v + 1;
    }
  }

  lemma {:induction false} QueuedAt(ls: seq<L.State>, t: nat) returns (i: nat)
    requires QueuedOn(ls, t) > 0
    ensures i < |ls| && ls[i].queue != []
  {
    if ls[0].queue != [] {
      i := 0;
    } else {
      var j := QueuedAt(ls[1..], t);
      i := j + 1;
    }
  }

  /** A delivered job that is neither appended nor dropped can be moved on. */
  lemma UnderWayMoves(s: State, t: nat) returns (a: Action)
    requires Ready(s) && Clear(s) && s.pool.workers != [] && t < |s.jobs| && AppendedTo(s.conns, t) + Count(s.dropped, t) == 0
    ensures Enabled(s, a) && Internal(a)
  {
    FoundOnce(s, t);
    assert s.fatal == [];
    if Carriers(s.pool.producers, t) > 0 {
      var p := Carrier(s.pool.producers, t);
      a := ProducerMoves(s, p);
    } else if s.pool.queue != [] {
      a := QueueMoves(s);
    } else if Holders(s.hand, t) > 0 {
      var w := Holder(s.hand, t);
      assert HandOk(s, w);
      a := JobMoves(s, w);
    } else {
      var i := QueuedAt(s.loops, t);
      a := LoopMoves(s, i);
    }
  }

  // ---------------------------------------------------------------- theorems

  /** Every action of the sequence happens. */
  ghost predicate Legal(s: State, acts: seq<Action>)
  {
    acts == [] || (Legal(s, acts[..|acts| - 1]) && Enabled(Exec(s, acts[..|acts| - 1]), acts[|acts| - 1]))
  }

  ghost predicate AllInternal(acts: seq<Action>) { forall i :: 0 <= i < |acts| ==> Internal(acts[i]) }

  lemma ClearKeeps(s: State, a: Action)
    requires Clear(s) && Enabled(s, a) && Internal(a)
    ensures Clear(Next(s, a)) && !Spins(s, a)
  {
    match a
    case Deliver(c) => DrainStep(s.conns[c].input);
    case Loop(i, la) => LoopFrameConns(s, i, la);
    case Back(b) =>
    case _ => WorkFrame(s, a);
  }

  lemma {:induction false} RankBoundsRuns(s: State, acts: seq<Action>)
    requires ProgressInv(s) && Serving(s) && Clear(s) && Legal(s, acts) && AllInternal(acts)
    ensures ProgressInv(Exec(s, acts)) && Serving(Exec(s, acts)) && Clear(Exec(s, acts))
    ensures |acts| + Rank(Exec(s, acts)) <= Rank(s)
  {
    if acts != [] {
      RankBoundsRuns(s, acts[..|acts| - 1]);
      var t := Exec(s, acts[..|acts| - 1]);
      ClearKeeps(t, acts[|acts| - 1]);
      RankDrops(t, acts[|acts| - 1]);
      ProgressKeeps(t, acts[|acts| - 1]);
    }
  }

  lemma {:induction false} SameWorkers(s: State, acts: seq<Action>)
    ensures |Exec(s, acts).pool.workers| == |s.pool.workers|
  {
    if acts != [] {
      SameWorkers(s, acts[..|acts| - 1]);
      var t := Exec(s, acts[..|acts| - 1]);
      if Enabled(t, acts[|acts| - 1]) && acts[|acts| - 1].Back? {
        BackFrame(t, acts[|acts| - 1].step);
      }
    }
  }

  /** Composed progress: before anyone calls Stop, from every reachable state whose open connections
      hold no bytes the extraction loop would not finish with, the steps bound to come of callbacks,
      pool, workers and loops are at most Rank many in any interleaving; and as long as the process
      lives and some delivered job is neither appended to its connection's stream nor dropped, one of
      them is possible. */
  lemma {:induction false} JobsSettle(s0: State, acts: seq<Action>, more: seq<Action>, t: nat) returns (a: Action)
    requires Init(s0) && Serving(Exec(s0, acts)) && Sized(Exec(s0, acts)) && Clear(Exec(s0, acts))
    requires Legal(Exec(s0, acts), more) && AllInternal(more)
    ensures |more| <= Rank(Exec(s0, acts))
    ensures var u := Exec(Exec(s0, acts), more);
            t < |u.jobs| && u.fate == Going && AppendedTo(u.conns, t) + Count(u.dropped, t) == 0 ==>
              Enabled(u, a) && Internal(a)
  {
    ProgressInit(s0);
    ProgressAlways(s0, acts);
    var s := Exec(s0, acts);
    RankBoundsRuns(s, more);
    var u := Exec(s, more);
    SameWorkers(s0, acts);
    SameWorkers(s, more);
    a := CheckOpen(0);
    if t < |u.jobs| && u.fate == Going && AppendedTo(u.conns, t) + Count(u.dropped, t) == 0 {
      a := UnderWayMoves(u, t);
    }
  }

  /** No step is bound to come. */
  ghost predicate Quiet(s: State) { forall a :: Internal(a) ==> !Enabled(s, a) }

  /** In a quiet living service no input buffer spins and nothing is behind the jobs appended. */
  lemma QuietMeans(s: State, c: nat)
    requires Ready(s) && Clear(s) && Quiet(s) && |s.hand| == 1
    ensures Behind(s, c) == []
  {
    var h := Home(s, c);
    if s.pool.producers[h] != P.Idle {
      var a := ProducerMoves(s, h);
    }
    if s.pool.queue != [] {
      var a := QueueMoves(s);
    }
    if s.hand[0].Some? {
      assert HandOk(s, 0);
      var a := JobMoves(s, 0);
    }
    if s.loops[h].queue != [] {
      var a := LoopMoves(s, h);
    }
    assert s.fatal == [];
  }

  /** In a quiet service all bytes of an open connection are parsed. */
  lemma QuietInput(s: State, c: nat)
    requires Ready(s) && Clear(s) && Quiet(s) && c < |s.conns| && c !in s.closed
    ensures Pick(s.conns[c].input) == Incomplete
  {
    var h := Home(s, c);
    assert InputOk(s, c);
    if InMessage(s, c) {
      if s.pool.producers[h] != P.Idle {
        var a := ProducerMoves(s, h);
      } else {
        var a := BatchMoves(s, h);
      }
    }
  }

  /** The echo service completes: with one worker, once all framed requests ms of an open connection
      have been read, everything queued is written and no step is bound to come (at most Rank of them
      can), the client decodes exactly one answer to each of ms, in order: the text and the request. */
  lemma {:induction false} EchoCompletes(s0: State, acts: seq<Action>, c: nat, ms: seq<Bytes>)
    requires Init(s0) && |s0.pool.workers| == 1 && c < |s0.conns| && c < |Exec(s0, acts).conns|
    requires var s := Exec(s0, acts);
             && Serving(s) && s.fate == Going && Clear(s) && Quiet(s) && c !in s.closed
             && BytesRead(s0, acts, c) == EncodeAll(ms) && s.conns[c].output == []
    requires EchoContent.Short(ms)
    ensures EchoContent.AllAnswered(Exec(s0, acts).conns[c].wire, ms)
    ensures EchoContent.Answerable(ms)
  {
    ProgressInit(s0);
    ProgressAlways(s0, acts);
    AnswersInOrder(s0, acts, c);
    var s := Exec(s0, acts);
    QuietMeans(s, c);
    QuietInput(s, c);
    assert s.conns[c].done + [] == s.conns[c].done;
    EchoContent.EchoCorrect(s0, acts, c, ms);
  }

  // ---------------------------------------------------------------- when a read callback returns

  /** Loop i extracts from connection c, which is still listed. */
  ghost predicate Extracts(s: State, i: nat, c: nat)
  {
    && Sized(s) && c < |s.conns| && Home(s, c) == i && AtHead(s, i, L.Readable(c)) && s.phase[i] == Extracting
    && c in s.subs
  }

  /** A finite run of steps bound to come ends the callback. */
  ghost predicate CanLeave(s: State, i: nat)
  {
    exists acts :: Legal(s, acts) && AllInternal(acts) && i < |Exec(s, acts).phase| && Exec(s, acts).phase[i] == Over
  }

  lemma LeavingMoves(s: State, i: nat, c: nat) returns (a: Action)
    requires Ready(s) && Extracts(s, i, c) && Drain(s.conns[c].input).verdict == Waiting
    ensures Enabled(s, a) && Internal(a)
    ensures a in {Deliver(c), Back(Leave(c))} || a.Pool?
  {
    if s.pool.producers[i] != P.Idle {
      a := ProducerMovesPool(s, i);
    } else {
      a := ClientMoves(s, i);
    }
  }

  lemma ProducerMovesPool(s: State, p: nat) returns (a: Action)
    requires Ready(s) && p < |s.pool.producers| && s.pool.producers[p] != P.Idle
    ensures Enabled(s, a) && Internal(a) && a.Pool?
  {
    if s.pool.mutex != P.Free {
      var pa := P.HolderMoves(s.pool);
      a := Pool(pa);
    } else {
      var pa := P.ProducerMoves(s.pool, p);
      a := Pool(pa);
    }
  }

  lemma LeavingStep(s: State, i: nat, c: nat, a: Action)
    requires Ready(s) && Extracts(s, i, c) && Drain(s.conns[c].input).verdict == Waiting
    requires Enabled(s, a) && Internal(a) && (a in {Deliver(c), Back(Leave(c))} || a.Pool?)
    ensures var t := Next(s, a);
            && Ready(t) && Rank(t) < Rank(s)
            && (a == Back(Leave(c)) ==> i < |t.phase| && t.phase[i] == Over)
            && (a != Back(Leave(c)) ==> Extracts(t, i, c) && Drain(t.conns[c].input).verdict == Waiting)
  {
    SizedKeeps(s, a);
    ProgressKeeps(s, a);
    if a == Deliver(c) {
      DrainStep(s.conns[c].input);
    } else if a.Pool? {
      WorkFrame(s, a);
    }
    RankDrops(s, a);
  }

  ghost predicate OnTheWay(s: State, i: nat, c: nat)
  {
    Ready(s) && Extracts(s, i, c) && Drain(s.conns[c].input).verdict == Waiting
  }

  /** A run on the way to the end of the callback. */
  ghost predicate Leaving(s: State, i: nat, c: nat, acts: seq<Action>)
  {
    Legal(s, acts) && AllInternal(acts) && OnTheWay(Exec(s, acts), i, c)
  }

  lemma WayGoesOn(s: State, i: nat, c: nat) returns (a: Action)
    requires OnTheWay(s, i, c)
    ensures Enabled(s, a) && Internal(a) && Sized(Next(s, a))
    ensures (i < |Next(s, a).phase| && Next(s, a).phase[i] == Over) || (OnTheWay(Next(s, a), i, c) && Rank(Next(s, a)) < Rank(s))
  {
    a := LeavingMoves(s, i, c);
    LeavingStep(s, i, c, a);
  }

  lemma LeftBy(s: State, i: nat, acts: seq<Action>, t: State)
    requires Legal(s, acts) && AllInternal(acts) && t == Exec(s, acts) && i < |t.phase| && t.phase[i] == Over
    ensures CanLeave(s, i)
  {
  }

  lemma {:induction false} LeavesOrGoesOn(s: State, i: nat, c: nat, acts: seq<Action>) returns (longer: seq<Action>)
    requires Leaving(s, i, c, acts)
    ensures CanLeave(s, i) || (Leaving(s, i, c, longer) && Rank(Exec(s, longer)) < Rank(Exec(s, acts)))
  {
    var t := Exec(s, acts);
    var a := WayGoesOn(t, i, c);
    var u := Next(t, a);
    OneLonger(s, acts, a);
    longer := acts + [a];
    if i < |u.phase| && u.phase[i] == Over {
      LeftBy(s, i, longer, u);
    }
  }

  lemma {:induction false} Leaves(s: State, i: nat, c: nat, acts: seq<Action>)
    requires Leaving(s, i, c, acts)
    ensures CanLeave(s, i)
    decreases Rank(Exec(s, acts))
  {
    var longer := LeavesOrGoesOn(s, i, c, acts);
    if !CanLeave(s, i) {
      Leaves(s, i, c, longer);
    }
  }

  lemma {:induction false} OneLonger(s: State, acts: seq<Action>, a: Action)
    requires Legal(s, acts) && AllInternal(acts) && Enabled(Exec(s, acts), a) && Internal(a)
    ensures Legal(s, acts + [a]) && AllInternal(acts + [a]) && Exec(s, acts + [a]) == Next(Exec(s, acts), a)
  {
    assert (acts + [a])[..|acts|] == acts;
  }

  /** When `onmessage` returns, exactly: a loop that has come to EAGAIN in the read callback of a listed
      connection leaves it, within Rank steps, if and only if the extraction loop finishes with the
      buffered bytes: no complete message before a header of -4 or above 2^31-5. */
  lemma {:induction false} LeavesIff(s0: State, acts: seq<Action>, i: nat, c: nat)
    requires Init(s0) && Serving(Exec(s0, acts)) && Exec(s0, acts).fate == Going && Extracts(Exec(s0, acts), i, c)
    ensures CanLeave(Exec(s0, acts), i) <==> Drain(Exec(s0, acts).conns[c].input).verdict == Waiting
  {
    ProgressInit(s0);
    ProgressAlways(s0, acts);
    var s := Exec(s0, acts);
    if Drain(s.conns[c].input).verdict == Waiting {
      Leaves(s, i, c, []);
    } else {
      forall more | Legal(s, more) && AllInternal(more)
        ensures !(i < |Exec(s, more).phase| && Exec(s, more).phase[i] == Over)
      {
        StuckForever(s, more, i, c);
      }
    }
  }
}
