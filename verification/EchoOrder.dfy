/** With one worker the echo service answers each connection in order: what a client decodes is a
    prefix of the replies to what it sent. */
module EchoOrder {
  import opened Options
  import opened Framing
  import opened EndToEnd
  import opened EchoPlaces
  import P = ThreadPools
  import L = LoopHandoff

  // ---------------------------------------------------------------- the tickets of one connection

  function CarrySeq(p: P.Producer): seq<nat> { if p.Offering? || p.Pushing? then [p.task] else [] }

  function HandSeq(o: Option<nat>): seq<nat> { if o.Some? then [o.value] else [] }

  /** What of connection c has entered the pool or is being carried there. */
  function Entered(jobs: seq<Job>, p: P.State, h: nat, c: nat): seq<nat>
    requires h < |p.producers|
  {
    Of(jobs, c, p.added) + Of(jobs, c, CarrySeq(p.producers[h]))
  }

  /** What of connection c has been pushed on its loop or is in the single worker's hand. */
  function Passed(jobs: seq<Job>, l: L.State, o: Option<nat>, c: nat): seq<nat>
  {
    Of(jobs, c, l.pushed) + Of(jobs, c, HandSeq(o))
  }

  // ---------------------------------------------------------------- invariant

  ghost predicate EnteredOk(s: State, c: nat)
    requires Sized(s) && c < |s.conns|
  {
    Entered(s.jobs, s.pool, Home(s, c), c) == s.conns[c].mine
  }

  ghost predicate PassedOk(s: State, c: nat)
    requires Sized(s) && |s.hand| == 1
  {
    c !in s.closed ==> Passed(s.jobs, s.loops[Home(s, c)], s.hand[0], c) == Of(s.jobs, c, s.pool.taken)
  }

  ghost predicate ConnOk(s: State, c: nat)
    requires Sized(s) && |s.hand| == 1 && c < |s.conns|
  {
    EnteredOk(s, c) && PassedOk(s, c) && s.conns[c].done <= s.conns[c].mine
  }

  ghost predicate OrderInv(s: State)
  {
    && PlacesInv(s) && |s.hand| == 1
    && forall c :: 0 <= c < |s.conns| ==> ConnOk(s, c)
  }

  // ---------------------------------------------------------------- steps of the parts

  lemma EnteredStep(s: State, pa: P.Action, c: nat)
    requires Sized(s) && TicketsOk(s) && P.Enabled(s.pool, pa) && !pa.Offer?
    ensures Entered(s.jobs, P.Next(s.pool, pa), Home(s, c), c) == Entered(s.jobs, s.pool, Home(s, c), c)
  {
    PoolTasks(s.pool, pa);
    if pa.Push? {
      EnteredPush(s, pa.p, c);
    } else {
      SameCarry(s.pool, pa, Home(s, c));
    }
  }

  lemma SameCarry(p: P.State, pa: P.Action, h: nat)
    requires P.Enabled(p, pa) && !pa.Offer? && !pa.Push? && h < |p.producers|
    ensures CarrySeq(P.Next(p, pa).producers[h]) == CarrySeq(p.producers[h])
  {
  }

  lemma EnteredMoves(jobs: seq<Job>, p: P.State, q: P.State, h: nat, t: nat, c: nat)
    requires h < |p.producers| && h < |q.producers| && q.added == p.added + [t]
    requires if ConnOf(jobs, t) == c then CarrySeq(p.producers[h]) == [t] && CarrySeq(q.producers[h]) == []
             else Of(jobs, c, CarrySeq(q.producers[h])) == Of(jobs, c, CarrySeq(p.producers[h]))
    ensures Entered(jobs, q, h, c) == Entered(jobs, p, h, c)
  {
    OfPush(jobs, c, p.added, t);
    OfOne(jobs, c, t);
  }

  lemma EnteredPush(s: State, p: nat, c: nat)
    requires Sized(s) && TicketsOk(s) && P.Enabled(s.pool, P.Push(p))
    ensures Entered(s.jobs, P.Next(s.pool, P.Push(p)), Home(s, c), c) == Entered(s.jobs, s.pool, Home(s, c), c)
  {
    var t := s.pool.producers[p].task;
    OfOne(s.jobs, c, t);
    EnteredMoves(s.jobs, s.pool, P.Next(s.pool, P.Push(p)), Home(s, c), t, c);
  }

  /** Taking a job into an empty hand, and moving it from the hand to the loop's queue. */
  lemma PassedMoves(jobs: seq<Job>, l: L.State, k: L.State, t: nat, c: nat)
    ensures Passed(jobs, l, Some(t), c) == Passed(jobs, l, None, c) + Of(jobs, c, [t])
    ensures k.pushed == l.pushed + [t] ==> Passed(jobs, k, None, c) == Passed(jobs, l, Some(t), c)
    ensures ConnOf(jobs, t) != c ==> Passed(jobs, l, None, c) == Passed(jobs, l, Some(t), c)
  {
    OfOne(jobs, c, t);
    OfPush(jobs, c, l.pushed, t);
  }

  lemma PassedHeld(jobs: seq<Job>, l: L.State, taken: seq<nat>, t: nat, c: nat)
    requires Passed(jobs, l, None, c) == Of(jobs, c, taken)
    ensures Passed(jobs, l, Some(t), c) == Of(jobs, c, taken + [t])
  {
    PassedMoves(jobs, l, l, t, c);
    OfPush(jobs, c, taken, t);
    OfOne(jobs, c, t);
  }

  lemma TakeFills(s: State, pa: P.Action)
    requires Sized(s) && |s.hand| == 1 && HandsOk(s) && Enabled(s, Pool(pa))
    ensures var u := NextPool(s, pa);
            && u.loops == s.loops && u.jobs == s.jobs && u.closed == s.closed
            && ((u.hand == s.hand && u.pool.taken == s.pool.taken)
                || (s.hand == [None] && s.pool.queue != [] && u.hand == [Some(s.pool.queue[0])]
                    && u.pool.taken == s.pool.taken + [s.pool.queue[0]]))
  {
    TakenStep(s.pool, pa);
    assert HandOk(s, 0);
  }

  lemma PassedTake(s: State, pa: P.Action, c: nat)
    requires Sized(s) && |s.hand| == 1 && HandsOk(s) && Enabled(s, Pool(pa)) && PassedOk(s, c)
    ensures Sized(NextPool(s, pa)) && PassedOk(NextPool(s, pa), c)
  {
    SizedKeeps(s, Pool(pa));
    TakeFills(s, pa);
    var u := NextPool(s, pa);
    if u.hand != s.hand && c !in s.closed {
      PassedHeld(s.jobs, s.loops[Home(s, c)], s.pool.taken, s.pool.queue[0], c);
    }
  }

  lemma PassedCheck(s: State, w: nat, c: nat)
    requires Sized(s) && |s.hand| == 1 && HandsOk(s) && Enabled(s, CheckOpen(w)) && PassedOk(s, c)
    ensures Sized(NextCheck(s, w)) && PassedOk(NextCheck(s, w), c)
  {
    SizedKeeps(s, CheckOpen(w));
    assert HandOk(s, 0);
    var l, t := s.loops[Home(s, c)], JobOf(s, 0);
    if ConnOf(s.jobs, t) in s.closed {
      PassedMoves(s.jobs, l, l, t, c);
    } else {
      PushedStep(s.loops[Home(s, ConnOf(s.jobs, t))], L.Offer(w, t));
    }
  }

  lemma PassedPush(s: State, i: nat, c: nat)
    requires Sized(s) && |s.hand| == 1 && HandsOk(s) && Enabled(s, Loop(i, L.Push(0)))
    ensures Sized(NextLoop(s, i, L.Push(0)))
    ensures var t := NextLoop(s, i, L.Push(0)); var h := Home(s, c);
            Passed(s.jobs, t.loops[h], t.hand[0], c) == Passed(s.jobs, s.loops[h], s.hand[0], c)
  {
    SizedKeeps(s, Loop(i, L.Push(0)));
    PushedStep(s.loops[i], L.Push(0));
    assert SendsHand(s, i, 0) && HandOk(s, 0);
    PassedMoves(s.jobs, s.loops[Home(s, c)], L.Next(s.loops[i], L.Push(0)), s.loops[i].producers[0].task, c);
  }

  lemma PassedLoop(s: State, i: nat, la: L.Action, c: nat)
    requires Sized(s) && |s.hand| == 1 && HandsOk(s) && Enabled(s, Loop(i, la)) && PassedOk(s, c)
    ensures Sized(NextLoop(s, i, la)) && PassedOk(NextLoop(s, i, la), c)
  {
    SizedKeeps(s, Loop(i, la));
    if la.Push? {
      PassedPush(s, i, c);
    } else {
      PushedStep(s.loops[i], la);
      assert NextLoop(s, i, la).hand == s.hand;
    }
  }

  // ---------------------------------------------------------------- delivering

  lemma EnteredOffer(jobs: seq<Job>, j: Job, p: P.State, h: nat, c: nat)
    requires h < |p.producers| && p.producers[h] == P.Idle && Known(jobs, p.added)
    ensures Entered(jobs + [j], P.Next(p, P.Offer(h, |jobs|)), h, c)
         == Entered(jobs, p, h, c) + (if j.conn == c then [|jobs|] else [])
  {
    var q := P.Next(p, P.Offer(h, |jobs|));
    assert q.added == p.added && CarrySeq(q.producers[h]) == [|jobs|];
    OfGrow(jobs, j, c, p.added);
    OfOne(jobs + [j], c, |jobs|);
    assert Entered(jobs, p, h, c) == Of(jobs, c, p.added) + [] == Of(jobs, c, p.added);
  }

  lemma EnteredGrow(jobs: seq<Job>, j: Job, p: P.State, q: P.State, h: nat, c: nat)
    requires h < |p.producers| && h < |q.producers| && q.producers[h] == p.producers[h] && q.added == p.added
    requires Known(jobs, p.added) && Known(jobs, CarrySeq(p.producers[h]))
    ensures Entered(jobs + [j], q, h, c) == Entered(jobs, p, h, c)
  {
    OfGrow(jobs, j, c, p.added);
    OfGrow(jobs, j, c, CarrySeq(p.producers[h]));
  }

  lemma EnteredDeliver(s: State, d: nat, c: nat)
    requires PartsOk(s) && TicketsOk(s) && Enabled(s, Deliver(d)) && c < |s.conns| && EnteredOk(s, c)
    ensures Sized(Next(s, Deliver(d))) && EnteredOk(Next(s, Deliver(d)), c)
  {
    SizedKeeps(s, Deliver(d));
    AddedKnown(s);
    var j := Job(d, Pick(s.conns[d].input).body);
    if Home(s, c) == Home(s, d) {
      EnteredOffer(s.jobs, j, s.pool, Home(s, c), c);
    } else {
      EnteredGrow(s.jobs, j, s.pool, P.Next(s.pool, P.Offer(Home(s, d), |s.jobs|)), Home(s, c), c);
    }
  }

  lemma PassedDeliver(s: State, d: nat, c: nat)
    requires Inv(s) && AllRouted(s) && |s.hand| == 1 && Enabled(s, Deliver(d)) && PassedOk(s, c)
    ensures Sized(Next(s, Deliver(d))) && PassedOk(Next(s, Deliver(d)), c)
  {
    SizedKeeps(s, Deliver(d));
    AddedKnown(s);
    var j := Job(d, Pick(s.conns[d].input).body);
    assert Routed(s, Home(s, c)) && HandOk(s, 0);
    OfGrow(s.jobs, j, c, s.pool.taken);
    OfGrow(s.jobs, j, c, s.loops[Home(s, c)].pushed);
    OfGrow(s.jobs, j, c, HandSeq(s.hand[0]));
  }

  // ---------------------------------------------------------------- every step

  lemma EnteredUntouched(s: State, a: Action, c: nat)
    requires Enabled(s, a) && !a.Deliver? && !a.Pool? && !a.Return? && c < |s.conns| && EnteredOk(s, c)
    ensures Sized(Next(s, a)) && |Next(s, a).conns| == |s.conns| && EnteredOk(Next(s, a), c)
  {
    SizedKeeps(s, a);
    var t := Next(s, a);
    assert t.pool == s.pool && t.jobs == s.jobs && t.conns[c].mine == s.conns[c].mine;
  }

  lemma EnteredKeeps(s: State, a: Action, c: nat)
    requires Inv(s) && Enabled(s, a) && c < |s.conns| && EnteredOk(s, c)
    ensures Sized(Next(s, a)) && |Next(s, a).conns| == |s.conns| && EnteredOk(Next(s, a), c)
  {
    SizedKeeps(s, a);
    match a
    case Deliver(d) => EnteredDeliver(s, d, c);
    case Pool(pa) => EnteredStep(s, pa, c);
    case Return(w) => EnteredStep(s, P.Finish(w), c);
    case _ => EnteredUntouched(s, a, c);
  }

  lemma PassedKeeps(s: State, a: Action, c: nat)
    requires Inv(s) && AllRouted(s) && |s.hand| == 1 && Enabled(s, a) && PassedOk(s, c)
    ensures Sized(Next(s, a)) && |Next(s, a).hand| == 1 && PassedOk(Next(s, a), c)
  {
    SizedKeeps(s, a);
    match a
    case Deliver(d) => PassedDeliver(s, d, c);
    case Pool(pa) => PassedTake(s, pa, c);
    case CheckOpen(w) => PassedCheck(s, w, c);
    case Loop(i, la) => PassedLoop(s, i, la, c);
    case _ =>
  }

  /** The jobs of connection c behind those appended: the one that ended the process, then those
      queued on the loop, in the worker's hand, in the pool's queue and in the reading thread's hands. */
  function Behind(s: State, c: nat): seq<nat>
    requires Sized(s) && |s.hand| == 1
  {
    var h := Home(s, c);
    Of(s.jobs, c, s.fatal) + (Of(s.jobs, c, s.loops[h].queue) + (Of(s.jobs, c, HandSeq(s.hand[0]))
    + (Of(s.jobs, c, s.pool.queue) + Of(s.jobs, c, CarrySeq(s.pool.producers[h])))))
  }

  lemma Ordered(s: State, c: nat)
    requires PlacesInv(s) && |s.hand| == 1 && c < |s.conns| && c !in s.closed && EnteredOk(s, c) && PassedOk(s, c)
    ensures s.conns[c].mine == s.conns[c].done + Behind(s, c)
  {
    var h := Home(s, c);
    assert PlaceOk(s, c) && L.Inv(s.loops[h]);
    OfConcat(s.jobs, c, s.loops[h].executed, s.loops[h].queue);
    OfConcat(s.jobs, c, s.pool.taken, s.pool.queue);
    Reassociate(s.conns[c].done, Of(s.jobs, c, s.fatal), Of(s.jobs, c, s.loops[h].queue),
                Of(s.jobs, c, HandSeq(s.hand[0])), Of(s.jobs, c, s.pool.queue),
                Of(s.jobs, c, CarrySeq(s.pool.producers[h])));
  }

  lemma Reassociate(a: seq<nat>, f: seq<nat>, b: seq<nat>, c: seq<nat>, d: seq<nat>, e: seq<nat>)
    ensures ((((a + f) + b) + c) + d) + e == a + (f + (b + (c + (d + e))))
  {
  }

  /** After its connection closed neither the deliveries nor the stream of replies grow. */
  lemma ClosedFrozen(s: State, a: Action, c: nat)
    requires Enabled(s, a) && c < |s.conns| && c in Next(s, a).closed
    ensures |Next(s, a).conns| == |s.conns|
    ensures Next(s, a).conns[c].done == s.conns[c].done && Next(s, a).conns[c].mine == s.conns[c].mine
  {
    if a.Loop? && a.la.RunTask? {
      SendOutcome(s.(loops := s.loops[a.i := L.Next(s.loops[a.i], a.la)]), s.loops[a.i].queue[0]);
    }
  }

  lemma OrderKeeps(s: State, a: Action)
    requires OrderInv(s) && Enabled(s, a)
    ensures OrderInv(Next(s, a))
  {
    PlacesKeep(s, a);
    var t := Next(s, a);
    SizedKeeps(s, a);
    forall c | 0 <= c < |t.conns|
      ensures ConnOk(t, c)
    {
      assert ConnOk(s, c);
      EnteredKeeps(s, a, c);
      PassedKeeps(s, a, c);
      if c in t.closed {
        ClosedFrozen(s, a, c);
      } else {
        Ordered(t, c);
      }
    }
  }

  lemma OrderInit(s: State)
    requires Init(s) && |s.pool.workers| == 1
    ensures OrderInv(s)
  {
    PlacesInit(s);
    forall c | 0 <= c < |s.conns|
      ensures ConnOk(s, c)
    {
      assert s.conns[c] == Conn([], [], [], [], [], []);
    }
  }

  lemma {:induction false} OrderAlways(s: State, acts: seq<Action>)
    requires OrderInv(s)
    ensures OrderInv(Exec(s, acts)) && |Exec(s, acts).conns| == |s.conns|
  {
    if acts != [] {
      OrderAlways(s, acts[..|acts| - 1]);
      var t := Exec(s, acts[..|acts| - 1]);
      if Enabled(t, acts[|acts| - 1]) {
        OrderKeeps(t, acts[|acts| - 1]);
      }
    }
  }

  /** In order: with one worker, the jobs appended to an open connection followed by those behind
      them, stage by stage, are all jobs delivered from it, in delivery order; and those appended to
      any connection, open or closed, are a prefix of its deliveries. */
  lemma {:induction false} AnswersInOrder(s0: State, acts: seq<Action>, c: nat)
    requires Init(s0) && |s0.pool.workers| == 1 && c < |s0.conns|
    ensures var s := Exec(s0, acts);
            && Sized(s) && |s.hand| == 1 && c < |s.conns|
            && s.conns[c].done <= s.conns[c].mine
            && (c !in s.closed ==> s.conns[c].mine == s.conns[c].done + Behind(s, c))
  {
    OrderInit(s0);
    OrderAlways(s0, acts);
    var s := Exec(s0, acts);
    assert ConnOk(s, c);
    if c !in s.closed {
      Ordered(s, c);
    }
  }
}
