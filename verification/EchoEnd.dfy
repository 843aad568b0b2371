/** How a run of the echo service ends: by a late reply, which exits the process; by a reply whose copy
    is shorter than its size, which reads past the copy; or by a reply or an event that outlives its
    connection. */
module EchoEnd {
  import opened Framing
  import opened EndToEnd
  import opened EchoPlaces
  import Sequences
  import opened EchoCallbacks
  import P = ThreadPools
  import L = LoopHandoff

  // ---------------------------------------------------------------- steps of a run

  /** Step i: job t passes the test of disconnect_ in `send`, its connection being open. */
  ghost predicate PassedAt(s0: State, acts: seq<Action>, i: nat, t: nat)
    requires i < |acts|
  {
    var s, a := Exec(s0, acts[..i]), acts[i];
    a.CheckOpen? && Enabled(s, a) && JobOf(s, a.w) == t && ConnOf(s.jobs, t) !in s.closed
  }

  /** Step j: connection c hangs up. */
  ghost predicate ClosedAt(s0: State, acts: seq<Action>, j: nat, c: nat)
    requires j < |acts|
  {
    acts[j] == Back(Close(c)) && Enabled(Exec(s0, acts[..j]), acts[j])
  }

  /** Before step k connection c still has an owner. */
  ghost predicate OwnedAt(s0: State, acts: seq<Action>, k: nat, c: nat)
    requires k <= |acts|
  {
    Referenced(Exec(s0, acts[..k]), c)
  }

  /** Step j: the last reference to connection c goes. */
  ghost predicate DroppedAt(s0: State, acts: seq<Action>, j: nat, c: nat)
    requires j < |acts|
  {
    OwnedAt(s0, acts, j, c) && !OwnedAt(s0, acts, j + 1, c)
  }

  /** Step k: a loop runs the `sendinloop` queued for job t. */
  ghost predicate RunAt(s0: State, acts: seq<Action>, k: nat, t: nat)
    requires k < |acts|
  {
    var s, a := Exec(s0, acts[..k]), acts[k];
    a.Loop? && a.la.RunTask? && Enabled(s, a) && s.loops[a.i].queue[0] == t
  }

  /** The batch names a client channel of connection c. */
  ghost predicate Names(batch: seq<L.Source>, c: nat)
  {
    exists k :: 0 <= k < |batch| && OfClient(batch[k]) && batch[k].conn == c
  }

  /** Step i: epoll reports connection c to loop h. */
  ghost predicate ReportedAt(s0: State, acts: seq<Action>, i: nat, h: nat, c: nat)
    requires i < |acts|
  {
    var a := acts[i];
    a.Loop? && a.i == h && a.la.Return? && Names(a.la.batch, c) && Enabled(Exec(s0, acts[..i]), a)
  }

  /** Step k: loop h goes on with the callback of connection c, which has no owner any more. */
  ghost predicate DangledAt(s0: State, acts: seq<Action>, k: nat, h: nat, c: nat)
    requires k < |acts|
  {
    var s := Exec(s0, acts[..k]);
    acts[k] == Back(Dangle(h)) && Enabled(s, acts[k]) && s.loops[h].loop.rest[0].conn == c
  }

  lemma SamePrefix(acts: seq<Action>, n: nat, i: nat)
    requires i <= n <= |acts|
    ensures acts[..n][..i] == acts[..i]
  {
  }

  lemma SamePassed(s0: State, acts: seq<Action>, n: nat, i: nat, x: nat)
    requires i < n <= |acts|
    ensures PassedAt(s0, acts[..n], i, x) <==> PassedAt(s0, acts, i, x)
  {
    SamePrefix(acts, n, i);
  }

  lemma SameClosed(s0: State, acts: seq<Action>, n: nat, i: nat, x: nat)
    requires i < n <= |acts|
    ensures ClosedAt(s0, acts[..n], i, x) <==> ClosedAt(s0, acts, i, x)
  {
    SamePrefix(acts, n, i);
  }

  lemma SameRun(s0: State, acts: seq<Action>, n: nat, i: nat, x: nat)
    requires i < n <= |acts|
    ensures RunAt(s0, acts[..n], i, x) <==> RunAt(s0, acts, i, x)
  {
    SamePrefix(acts, n, i);
  }

  lemma SameDropped(s0: State, acts: seq<Action>, n: nat, i: nat, x: nat)
    requires i < n <= |acts|
    ensures DroppedAt(s0, acts[..n], i, x) <==> DroppedAt(s0, acts, i, x)
  {
    SamePrefix(acts, n, i);
    SamePrefix(acts, n, i + 1);
  }

  lemma SameReported(s0: State, acts: seq<Action>, n: nat, i: nat, h: nat, x: nat)
    requires i < n <= |acts|
    ensures ReportedAt(s0, acts[..n], i, h, x) <==> ReportedAt(s0, acts, i, h, x)
  {
    SamePrefix(acts, n, i);
  }

  lemma SameDangled(s0: State, acts: seq<Action>, n: nat, i: nat, h: nat, x: nat)
    requires i < n <= |acts|
    ensures DangledAt(s0, acts[..n], i, h, x) <==> DangledAt(s0, acts, i, h, x)
  {
    SamePrefix(acts, n, i);
  }

  /** Job t passes the test while its connection is open, the connection hangs up, and only then the
      queued `sendinloop` of t runs, the connection still having an owner. */
  ghost predicate LateReply(s0: State, acts: seq<Action>, jobs: seq<Job>, i: nat, j: nat, k: nat, t: nat)
  {
    && i < j < k < |acts| && Copyable(jobs, t) && PassedAt(s0, acts, i, t)
    && ClosedAt(s0, acts, j, ConnOf(jobs, t)) && RunAt(s0, acts, k, t) && OwnedAt(s0, acts, k, ConnOf(jobs, t))
  }

  ghost predicate SomeLateReply(s0: State, acts: seq<Action>, jobs: seq<Job>)
  {
    exists i, j, k, t :: LateReply(s0, acts, jobs, i, j, k, t)
  }

  /** The queued `sendinloop` of a job whose body has an early NUL runs. */
  ghost predicate ShortCopy(s0: State, acts: seq<Action>, jobs: seq<Job>, k: nat, t: nat)
  {
    k < |acts| && RunAt(s0, acts, k, t) && !Copyable(jobs, t) && OwnedAt(s0, acts, k, ConnOf(jobs, t))
  }

  ghost predicate SomeShortCopy(s0: State, acts: seq<Action>, jobs: seq<Job>)
  {
    exists k, t :: ShortCopy(s0, acts, jobs, k, t)
  }

  /** Job t passes the test, the last reference to its connection goes, and only then the queued
      `sendinloop` of t runs. */
  ghost predicate DeadReply(s0: State, acts: seq<Action>, jobs: seq<Job>, i: nat, j: nat, k: nat, t: nat)
  {
    && i < j < k < |acts| && PassedAt(s0, acts, i, t) && DroppedAt(s0, acts, j, ConnOf(jobs, t)) && RunAt(s0, acts, k, t)
  }

  ghost predicate SomeDeadReply(s0: State, acts: seq<Action>, jobs: seq<Job>)
  {
    exists i, j, k, t :: DeadReply(s0, acts, jobs, i, j, k, t)
  }

  /** Connection c is reported to loop h, its last reference goes, and only then the loop goes on with
      its callback. */
  ghost predicate DeadEvent(s0: State, acts: seq<Action>, i: nat, j: nat, k: nat, h: nat, c: nat)
  {
    && i < j < k < |acts| && ReportedAt(s0, acts, i, h, c) && DroppedAt(s0, acts, j, c) && DangledAt(s0, acts, k, h, c)
  }

  ghost predicate SomeDeadEvent(s0: State, acts: seq<Action>)
  {
    exists i, j, k, h, c :: DeadEvent(s0, acts, i, j, k, h, c)
  }

  // ---------------------------------------------------------------- what only grows

  lemma StepGrows(s: State, a: Action)
    requires Enabled(s, a)
    ensures s.jobs <= Next(s, a).jobs && s.closed <= Next(s, a).closed
  {
  }

  lemma {:induction false} Later(s0: State, acts: seq<Action>, n: nat)
    requires n <= |acts|
    ensures var s, t := Exec(s0, acts[..n]), Exec(s0, acts);
            s.jobs <= t.jobs && s.closed <= t.closed && (s.fate != Going ==> t == s)
    decreases |acts|
  {
    if n == |acts| {
      assert acts[..n] == acts;
    } else {
      var before := acts[..|acts| - 1];
      Later(s0, before, n);
      assert before[..n] == acts[..n];
      var u := Exec(s0, before);
      if Enabled(u, acts[|acts| - 1]) {
        StepGrows(u, acts[|acts| - 1]);
      }
    }
  }

  lemma CloseStep(s: State, a: Action, c: nat)
    requires c !in s.closed
    ensures Enabled(s, a) && c in Next(s, a).closed ==> a == Back(Close(c))
  {
  }

  lemma ClosedNow(s0: State, acts: seq<Action>, n: nat, c: nat)
    requires n < |acts| && c !in Exec(s0, acts[..n]).closed && c in Exec(s0, acts[..n + 1]).closed
    ensures ClosedAt(s0, acts, n, c)
  {
    assert acts[..n + 1][..n] == acts[..n];
    CloseStep(Exec(s0, acts[..n]), acts[n], c);
  }

  lemma {:induction false} ClosedBetween(s0: State, acts: seq<Action>, n: nat, c: nat) returns (j: nat)
    requires n <= |acts| && c !in Exec(s0, acts[..n]).closed && c in Exec(s0, acts).closed
    ensures n <= j < |acts| && ClosedAt(s0, acts, j, c)
    decreases |acts| - n
  {
    assert acts[..|acts|] == acts;
    if c in Exec(s0, acts[..n + 1]).closed {
      j := n;
      ClosedNow(s0, acts, n, c);
    } else {
      j := ClosedBetween(s0, acts, n + 1, c);
    }
  }

  // ---------------------------------------------------------------- a connection without owner stays so

  lemma UnownedBack(s: State, b: Step, c: nat)
    requires Enabled(s, Back(b)) && !Referenced(s, c)
    ensures !Referenced(NextStep(s, b), c)
  {
    BackFrame(s, b);
    SameHolders(s, NextStep(s, b), c);
  }

  lemma SameHolders(s: State, t: State, c: nat)
    requires t.pool == s.pool && t.jobs == s.jobs
    ensures HeldByProducer(t, c) == HeldByProducer(s, c)
    ensures HeldByQueue(t, c) == HeldByQueue(s, c)
    ensures HeldByWorker(t, c) == HeldByWorker(s, c)
  {
    assert forall w :: RunsJob(t, w) <==> RunsJob(s, w);
  }

  /** A step of the pool moves tasks on and binds no new one. */
  lemma PoolMoves(p: P.State, pa: P.Action)
    requires P.Inv(p) && P.Enabled(p, pa) && !pa.Offer?
    ensures var q := P.Next(p, pa);
            && (forall i :: 0 <= i < |q.producers| && (q.producers[i].Offering? || q.producers[i].Pushing?) ==>
                  (p.producers[i].Offering? || p.producers[i].Pushing?) && p.producers[i].task == q.producers[i].task)
            && (forall k :: 0 <= k < |q.queue| ==>
                  q.queue[k] in p.queue || (pa.Push? && p.producers[pa.p].Pushing? && q.queue[k] == p.producers[pa.p].task))
            && (forall w :: 0 <= w < |q.workers| && q.workers[w].Running? && q.workers[w].pos < |q.taken| ==>
                  (p.workers[w] == q.workers[w] && p.workers[w].pos < |p.taken| && p.taken[p.workers[w].pos] == q.taken[q.workers[w].pos])
                  || (p.queue != [] && q.taken[q.workers[w].pos] == p.queue[0]))
  {
  }

  lemma UnownedPool(s: State, t: State, pa: P.Action, c: nat)
    requires P.Inv(s.pool) && P.Enabled(s.pool, pa) && !pa.Offer? && !Referenced(s, c)
    requires t.pool == P.Next(s.pool, pa) && t.jobs == s.jobs && t.server == s.server && t.subs == s.subs
    ensures !Referenced(t, c)
  {
    PoolMoves(s.pool, pa);
    forall k | 0 <= k < |t.pool.queue|
      ensures !Binds(t, t.pool.queue[k], c)
    {
      if t.pool.queue[k] in s.pool.queue {
        var i :| 0 <= i < |s.pool.queue| && s.pool.queue[i] == t.pool.queue[k];
        assert !Binds(s, s.pool.queue[i], c);
      } else {
        assert !Binds(s, s.pool.producers[pa.p].task, c);
      }
    }
    forall w | 0 <= w < |t.pool.workers| && RunsJob(t, w)
      ensures !Binds(t, JobOf(t, w), c)
    {
      if RunsJob(s, w) && JobOf(s, w) == JobOf(t, w) {
        assert !Binds(s, JobOf(s, w), c);
      } else {
        assert !Binds(s, s.pool.queue[0], c);
      }
    }
  }

  lemma BindsGrow(s: State, t: State, j: Job, k: nat, c: nat)
    requires t.jobs == s.jobs + [j] && j.conn != c
    ensures Binds(t, k, c) == Binds(s, k, c)
  {
  }

  lemma UnownedDeliver(s: State, d: nat, c: nat)
    requires Enabled(s, Deliver(d)) && !Referenced(s, c)
    ensures !Referenced(Next(s, Deliver(d)), c)
  {
    var t := Next(s, Deliver(d));
    var j := Job(d, Pick(s.conns[d].input).body);
    assert d != c;
    forall p | 0 <= p < |t.pool.producers| && (t.pool.producers[p].Offering? || t.pool.producers[p].Pushing?)
      ensures !Binds(t, t.pool.producers[p].task, c)
    {
      BindsGrow(s, t, j, t.pool.producers[p].task, c);
      assert p == Home(s, d) || t.pool.producers[p] == s.pool.producers[p];
    }
    forall k | 0 <= k < |t.pool.queue|
      ensures !Binds(t, t.pool.queue[k], c)
    {
      BindsGrow(s, t, j, t.pool.queue[k], c);
    }
    forall w | 0 <= w < |t.pool.workers| && RunsJob(t, w)
      ensures !Binds(t, JobOf(t, w), c)
    {
      BindsGrow(s, t, j, JobOf(t, w), c);
      assert RunsJob(s, w) && JobOf(t, w) == JobOf(s, w);
    }
  }

  lemma UnownedStays(s: State, a: Action, c: nat)
    requires Inv(s) && Enabled(s, a) && !Referenced(s, c)
    ensures !Referenced(Next(s, a), c)
  {
    match a
    case Back(b) => UnownedBack(s, b, c);
    case Deliver(d) => UnownedDeliver(s, d, c);
    case Pool(pa) => UnownedPool(s, Next(s, a), pa, c);
    case Return(w) => UnownedPool(s, Next(s, a), P.Finish(w), c);
    case CheckOpen(_) => SameHolders(s, Next(s, a), c);
    case Loop(i, la) =>
      LoopFrame(s, i, la);
      LoopFrameConns(s, i, la);
      SameHolders(s, Next(s, a), c);
  }

  /** Nobody becomes owner again. */
  lemma {:induction false} UnownedLater(s0: State, acts: seq<Action>, n: nat, c: nat)
    requires Inv(s0) && n <= |acts| && !OwnedAt(s0, acts, n, c)
    ensures !Referenced(Exec(s0, acts), c)
    decreases |acts|
  {
    if n == |acts| {
      assert acts[..n] == acts;
    } else {
      var m := |acts| - 1;
      SamePrefix(acts, m, n);
      UnownedLater(s0, acts[..m], n, c);
      Always(s0, acts[..m]);
      if Enabled(Exec(s0, acts[..m]), acts[m]) {
        UnownedStays(Exec(s0, acts[..m]), acts[m], c);
      }
    }
  }

  lemma {:induction false} DroppedBetween(s0: State, acts: seq<Action>, n: nat, c: nat) returns (j: nat)
    requires n <= |acts| && OwnedAt(s0, acts, n, c) && !OwnedAt(s0, acts, |acts|, c)
    ensures n <= j < |acts| && DroppedAt(s0, acts, j, c)
  {
    var owned := seq(|acts| + 1, k requires 0 <= k <= |acts| => OwnedAt(s0, acts, k, c));
    j := Sequences.Turn(owned, n);
  }

  // ---------------------------------------------------------------- queued work passed the test

  ghost predicate Cleared(s0: State, acts: seq<Action>, t: nat)
  {
    exists i :: 0 <= i < |acts| && PassedAt(s0, acts, i, t)
  }

  lemma ClearedLater(s0: State, acts: seq<Action>, t: nat)
    requires acts != [] && Cleared(s0, acts[..|acts| - 1], t)
    ensures Cleared(s0, acts, t)
  {
    var n := |acts| - 1;
    var i :| 0 <= i < n && PassedAt(s0, acts[..n], i, t);
    SamePassed(s0, acts, n, i, t);
  }

  ghost predicate PushedCleared(s0: State, acts: seq<Action>, l: L.State)
  {
    forall k :: 0 <= k < |l.pushed| ==> Cleared(s0, acts, l.pushed[k])
  }

  ghost predicate CarriedCleared(s0: State, acts: seq<Action>, l: L.State)
  {
    forall w :: 0 <= w < |l.producers| && (l.producers[w].Offering? || l.producers[w].Pushing?) ==>
      Cleared(s0, acts, l.producers[w].task)
  }

  ghost predicate LoopCleared(s0: State, acts: seq<Action>, l: L.State)
  {
    PushedCleared(s0, acts, l) && CarriedCleared(s0, acts, l)
  }

  lemma LoopClearedLater(s0: State, acts: seq<Action>, l: L.State)
    requires acts != [] && LoopCleared(s0, acts[..|acts| - 1], l)
    ensures LoopCleared(s0, acts, l)
  {
    forall k | 0 <= k < |l.pushed|
      ensures Cleared(s0, acts, l.pushed[k])
    {
      ClearedLater(s0, acts, l.pushed[k]);
    }
    forall w | 0 <= w < |l.producers| && (l.producers[w].Offering? || l.producers[w].Pushing?)
      ensures Cleared(s0, acts, l.producers[w].task)
    {
      ClearedLater(s0, acts, l.producers[w].task);
    }
  }

  lemma LoopClearedStep(s0: State, acts: seq<Action>, l: L.State, la: L.Action)
    requires LoopCleared(s0, acts, l) && L.Enabled(l, la) && !la.Offer?
    ensures LoopCleared(s0, acts, L.Next(l, la))
  {
    PushedStep(l, la);
    var m := L.Next(l, la);
    forall w | 0 <= w < |m.producers| && (m.producers[w].Offering? || m.producers[w].Pushing?)
      ensures Cleared(s0, acts, m.producers[w].task)
    {
      LoopStepLocal(l, la, w);
    }
  }

  lemma LoopClearedOffer(s0: State, acts: seq<Action>, l: L.State, w: nat, t: nat)
    requires LoopCleared(s0, acts, l) && L.Enabled(l, L.Offer(w, t)) && Cleared(s0, acts, t)
    ensures LoopCleared(s0, acts, L.Next(l, L.Offer(w, t)))
  {
  }

  ghost predicate AllCleared(s0: State, acts: seq<Action>)
  {
    var s := Exec(s0, acts);
    forall h :: 0 <= h < |s.loops| ==> LoopCleared(s0, acts, s.loops[h])
  }

  lemma LoopsStep(s: State, a: Action)
    requires Enabled(s, a)
    ensures Next(s, a).loops ==
            match a
            case Loop(i, la) => s.loops[i := L.Next(s.loops[i], la)]
            case CheckOpen(w) =>
              var t := JobOf(s, w); var h := Home(s, ConnOf(s.jobs, t));
              if ConnOf(s.jobs, t) in s.closed then s.loops else s.loops[h := L.Next(s.loops[h], L.Offer(w, t))]
            case _ => s.loops
  {
  }

  lemma ClearedCheck(s0: State, acts: seq<Action>, h: nat)
    requires acts != [] && Enabled(Exec(s0, acts[..|acts| - 1]), acts[|acts| - 1]) && acts[|acts| - 1].CheckOpen?
    requires h < |Exec(s0, acts).loops| && h < |Exec(s0, acts[..|acts| - 1]).loops|
    requires LoopCleared(s0, acts, Exec(s0, acts[..|acts| - 1]).loops[h])
    ensures LoopCleared(s0, acts, Exec(s0, acts).loops[h])
  {
    var n := |acts| - 1;
    var s, a := Exec(s0, acts[..n]), acts[n];
    LoopsStep(s, a);
    var t := JobOf(s, a.w);
    if ConnOf(s.jobs, t) !in s.closed && h == Home(s, ConnOf(s.jobs, t)) {
      assert PassedAt(s0, acts, n, t);
      LoopClearedOffer(s0, acts, s.loops[h], a.w, t);
    }
  }

  lemma {:induction false} EverythingCleared(s0: State, acts: seq<Action>)
    requires Init(s0)
    ensures AllCleared(s0, acts)
  {
    if acts != [] {
      var n := |acts| - 1;
      EverythingCleared(s0, acts[..n]);
      var s, a := Exec(s0, acts[..n]), acts[n];
      if Enabled(s, a) {
        LoopsStep(s, a);
      }
      forall h | 0 <= h < |Exec(s0, acts).loops|
        ensures LoopCleared(s0, acts, Exec(s0, acts).loops[h])
      {
        LoopClearedLater(s0, acts, s.loops[h]);
        if Enabled(s, a) && a.CheckOpen? {
          ClearedCheck(s0, acts, h);
        } else if Enabled(s, a) && a.Loop? && a.i == h {
          LoopClearedStep(s0, acts, s.loops[h], a.la);
        }
      }
    }
  }

  // ---------------------------------------------------------------- clients in a batch were reported

  ghost predicate WasReported(s0: State, acts: seq<Action>, h: nat, c: nat)
  {
    exists i :: 0 <= i < |acts| && ReportedAt(s0, acts, i, h, c)
  }

  lemma ReportedLater(s0: State, acts: seq<Action>, h: nat, c: nat)
    requires acts != [] && WasReported(s0, acts[..|acts| - 1], h, c)
    ensures WasReported(s0, acts, h, c)
  {
    var n := |acts| - 1;
    var i :| 0 <= i < n && ReportedAt(s0, acts[..n], i, h, c);
    SameReported(s0, acts, n, i, h, c);
  }

  ghost predicate BatchReported(s0: State, acts: seq<Action>, h: nat, rest: seq<L.Source>)
  {
    forall k :: 0 <= k < |rest| && OfClient(rest[k]) ==> WasReported(s0, acts, h, rest[k].conn)
  }

  lemma PlaceStep(s: State, a: Action, h: nat)
    requires Enabled(s, a) && h < |s.loops|
    ensures |Next(s, a).loops| == |s.loops|
    ensures a.Loop? && a.i == h ==> Next(s, a).loops[h] == L.Next(s.loops[h], a.la)
    ensures !(a.Loop? && a.i == h) ==> Next(s, a).loops[h].loop == s.loops[h].loop
  {
    SameLoops(s, a);
    LoopsStep(s, a);
  }

  lemma BatchReportedStep(s0: State, acts: seq<Action>, h: nat)
    requires acts != [] && Enabled(Exec(s0, acts[..|acts| - 1]), acts[|acts| - 1])
    requires var s := Exec(s0, acts[..|acts| - 1]); h < |s.loops| && BatchReported(s0, acts, h, Rest(s.loops[h].loop))
    ensures var t := Exec(s0, acts); h < |t.loops| && BatchReported(s0, acts, h, Rest(t.loops[h].loop))
  {
    var n := |acts| - 1;
    var s, a := Exec(s0, acts[..n]), acts[n];
    PlaceStep(s, a, h);
    if a.Loop? && a.i == h {
      RestStep(s.loops[h], a.la);
      if a.la.Return? {
        forall k | 0 <= k < |a.la.batch| && OfClient(a.la.batch[k])
          ensures WasReported(s0, acts, h, a.la.batch[k].conn)
        {
          assert ReportedAt(s0, acts, n, h, a.la.batch[k].conn);
        }
      }
    }
  }

  lemma {:induction false} EverythingReported(s0: State, acts: seq<Action>, h: nat)
    requires Init(s0) && h < |s0.loops|
    ensures h < |Exec(s0, acts).loops| && BatchReported(s0, acts, h, Rest(Exec(s0, acts).loops[h].loop))
  {
    if acts != [] {
      var n := |acts| - 1;
      EverythingReported(s0, acts[..n], h);
      var s := Exec(s0, acts[..n]);
      var r := Rest(s.loops[h].loop);
      forall k | 0 <= k < |r| && OfClient(r[k])
        ensures WasReported(s0, acts, h, r[k].conn)
      {
        ReportedLater(s0, acts, h, r[k].conn);
      }
      if Enabled(s, acts[n]) {
        BatchReportedStep(s0, acts, h);
      }
    }
  }

  // ---------------------------------------------------------------- the step that ends a run

  /** What running the queued send of job t makes of the process. */
  function FateOf(s: State, t: nat): Fate
  {
    if !Referenced(s, ConnOf(s.jobs, t)) then Dangling
    else if !Copyable(s.jobs, t) then Overread
    else if ConnOf(s.jobs, t) in s.closed then Exited
    else Going
  }

  lemma FateRun(s: State, i: nat)
    requires PlacesInv(s) && Enabled(s, Loop(i, L.RunTask))
    ensures var t := s.loops[i].queue[0];
            t < |s.jobs| && NextLoop(s, i, L.RunTask).jobs == s.jobs && NextLoop(s, i, L.RunTask).fate == FateOf(s, t)
  {
    RunKnown(s, i);
    var u := s.(loops := s.loops[i := L.Next(s.loops[i], L.RunTask)]);
    SameHolders(s, u, ConnOf(s.jobs, s.loops[i].queue[0]));
    SendOutcome(u, s.loops[i].queue[0]);
  }

  lemma FateStep(s: State, a: Action)
    requires PlacesInv(s) && Enabled(s, a)
    ensures Next(s, a).fate != Going ==> (a.Loop? && a.la.RunTask?) || (a.Back? && a.step.Dangle?)
    ensures a.Back? && a.step.Dangle? ==> Next(s, a).fate == Dangling
  {
    if a.Loop? && a.la.RunTask? { FateRun(s, a.i); }
  }

  lemma PassedKnown(s0: State, acts: seq<Action>, i: nat, t: nat)
    requires Init(s0) && i < |acts| && PassedAt(s0, acts, i, t)
    ensures t < |Exec(s0, acts[..i]).jobs| && ConnOf(Exec(s0, acts).jobs, t) == ConnOf(Exec(s0, acts[..i]).jobs, t)
    ensures OwnedAt(s0, acts, i + 1, ConnOf(Exec(s0, acts).jobs, t))
  {
    InitInv(s0);
    Always(s0, acts[..i]);
    var s := Exec(s0, acts[..i]);
    var w := acts[i].w;
    TakenKnown(s, s.pool.workers[w].pos);
    Later(s0, acts, i);
    ExecTo(s0, acts, i);
    assert Binds(Exec(s0, acts[..i + 1]), JobOf(s, w), ConnOf(s.jobs, t));
    assert RunsJob(Exec(s0, acts[..i + 1]), w);
  }

  lemma ReportedOwned(s0: State, acts: seq<Action>, i: nat, h: nat, c: nat)
    requires i < |acts| && ReportedAt(s0, acts, i, h, c)
    ensures OwnedAt(s0, acts, i + 1, c)
  {
    var s, a := Exec(s0, acts[..i]), acts[i];
    ExecTo(s0, acts, i);
    LoopFrame(s, a.i, a.la);
    LoopFrameConns(s, a.i, a.la);
    SameHolders(s, Next(s, a), c);
  }

  lemma ThenClosed(s0: State, acts: seq<Action>, i: nat, t: nat) returns (j: nat)
    requires Init(s0) && i < |acts| && PassedAt(s0, acts, i, t)
    requires ConnOf(Exec(s0, acts).jobs, t) in Exec(s0, acts).closed
    ensures i < j < |acts| && ClosedAt(s0, acts, j, ConnOf(Exec(s0, acts).jobs, t))
  {
    PassedKnown(s0, acts, i, t);
    j := ClosedBetween(s0, acts, i, ConnOf(Exec(s0, acts).jobs, t));
    assert acts[i].CheckOpen?;
  }

  /** A job queued at step n of a connection closed by then had passed the test, and the close came
      after that. */
  lemma PassedThenClosed(s0: State, acts: seq<Action>, n: nat, h: nat, t: nat, c: nat) returns (i: nat, j: nat)
    requires Init(s0) && n <= |acts|
    requires var s := Exec(s0, acts[..n]);
             && h < |s.loops| && s.loops[h].queue != [] && s.loops[h].queue[0] == t
             && c == ConnOf(s.jobs, t) && c in s.closed
    ensures i < j < n && PassedAt(s0, acts, i, t) && ClosedAt(s0, acts, j, c)
  {
    var before := acts[..n];
    QueueCleared(s0, before, h);
    i :| 0 <= i < |before| && PassedAt(s0, before, i, t);
    j := ThenClosed(s0, before, i, t);
    SamePassed(s0, acts, n, i, t);
    SameClosed(s0, acts, n, j, c);
  }

  /** A job queued at step n of a connection without owner by then had passed the test, and the last
      reference went after that. */
  lemma PassedThenDropped(s0: State, acts: seq<Action>, n: nat, h: nat, t: nat, c: nat) returns (i: nat, j: nat)
    requires Init(s0) && n <= |acts|
    requires var s := Exec(s0, acts[..n]);
             && h < |s.loops| && s.loops[h].queue != [] && s.loops[h].queue[0] == t
             && c == ConnOf(s.jobs, t) && !Referenced(s, c)
    ensures i < j < n && PassedAt(s0, acts, i, t) && DroppedAt(s0, acts, j, c)
  {
    var before := acts[..n];
    QueueCleared(s0, before, h);
    i :| 0 <= i < |before| && PassedAt(s0, before, i, t);
    PassedKnown(s0, before, i, t);
    assert before[..|before|] == before;
    j := DroppedBetween(s0, before, i + 1, c);
    SamePassed(s0, acts, n, i, t);
    SameDropped(s0, acts, n, j, c);
  }

  lemma HeadReported(s0: State, acts: seq<Action>, h: nat)
    requires Init(s0) && h < |s0.loops| && h < |Exec(s0, acts).loops|
    requires var l := Exec(s0, acts).loops[h].loop; l.Batch? && l.rest != [] && OfClient(l.rest[0])
    ensures WasReported(s0, acts, h, Exec(s0, acts).loops[h].loop.rest[0].conn)
  {
    EverythingReported(s0, acts, h);
    assert Rest(Exec(s0, acts).loops[h].loop)[0] == Exec(s0, acts).loops[h].loop.rest[0];
  }

  lemma ReportedAndDropped(s0: State, acts: seq<Action>, h: nat, c: nat) returns (i: nat, j: nat)
    requires WasReported(s0, acts, h, c) && !OwnedAt(s0, acts, |acts|, c)
    ensures i < j < |acts| && ReportedAt(s0, acts, i, h, c) && DroppedAt(s0, acts, j, c)
  {
    i :| 0 <= i < |acts| && ReportedAt(s0, acts, i, h, c);
    ReportedOwned(s0, acts, i, h, c);
    j := DroppedBetween(s0, acts, i + 1, c);
  }

  lemma ReportedThenDropped(s0: State, acts: seq<Action>, n: nat, h: nat, c: nat) returns (i: nat, j: nat)
    requires Init(s0) && n <= |acts| && h < |s0.loops|
    requires WasReported(s0, acts[..n], h, c) && !OwnedAt(s0, acts[..n], n, c)
    ensures i < j < n && ReportedAt(s0, acts, i, h, c) && DroppedAt(s0, acts, j, c)
  {
    i, j := ReportedAndDropped(s0, acts[..n], h, c);
    SameReported(s0, acts, n, i, h, c);
    SameDropped(s0, acts, n, j, c);
  }

  lemma {:induction false} QueueCleared(s0: State, acts: seq<Action>, h: nat)
    requires Init(s0) && h < |Exec(s0, acts).loops| && Exec(s0, acts).loops[h].queue != []
    ensures Cleared(s0, acts, Exec(s0, acts).loops[h].queue[0])
  {
    InitInv(s0);
    Always(s0, acts);
    EverythingCleared(s0, acts);
    var l := Exec(s0, acts).loops[h];
    assert L.Inv(l) && LoopCleared(s0, acts, l);
    assert l.pushed[|l.executed|] == l.queue[0];
  }

  lemma {:induction false} LoopCount(s: State, acts: seq<Action>)
    ensures |Exec(s, acts).loops| == |s.loops|
  {
    if acts != [] {
      LoopCount(s, acts[..|acts| - 1]);
      if Enabled(Exec(s, acts[..|acts| - 1]), acts[|acts| - 1]) {
        SameLoops(Exec(s, acts[..|acts| - 1]), acts[|acts| - 1]);
      }
    }
  }

  /** The run has a step that accounts for the given end. */
  ghost predicate Accounted(s0: State, acts: seq<Action>, jobs: seq<Job>, fate: Fate)
  {
    match fate
    case Going => true
    case Exited => SomeLateReply(s0, acts, jobs)
    case Overread => SomeShortCopy(s0, acts, jobs)
    case Dangling => SomeDeadReply(s0, acts, jobs) || SomeDeadEvent(s0, acts)
  }

  /** The run's last step runs a queued send. */
  lemma {:induction false} LastRun(s0: State, acts: seq<Action>, h: nat)
    requires Init(s0) && acts != [] && acts[|acts| - 1] == Loop(h, L.RunTask)
    requires Enabled(Exec(s0, acts[..|acts| - 1]), acts[|acts| - 1])
    ensures Accounted(s0, acts, Exec(s0, acts).jobs, Exec(s0, acts).fate)
  {
    var n := |acts| - 1;
    PlacesInit(s0);
    PlacesAlways(s0, acts[..n]);
    var s := Exec(s0, acts[..n]);
    FateRun(s, h);
    var t := s.loops[h].queue[0];
    assert RunAt(s0, acts, n, t);
    SendAccounted(s0, acts, s.jobs, n, h, t, FateOf(s, t));
  }

  lemma SendAccounted(s0: State, acts: seq<Action>, jobs: seq<Job>, n: nat, h: nat, t: nat, fate: Fate)
    requires Init(s0) && n < |acts| && RunAt(s0, acts, n, t)
    requires var s := Exec(s0, acts[..n]);
             && jobs == s.jobs && h < |s.loops| && s.loops[h].queue != [] && s.loops[h].queue[0] == t && fate == FateOf(s, t)
    ensures Accounted(s0, acts, jobs, fate)
  {
    var c := ConnOf(jobs, t);
    match fate
    case Going =>
    case Exited =>
      var i, j := PassedThenClosed(s0, acts, n, h, t, c);
      assert LateReply(s0, acts, jobs, i, j, n, t);
    case Overread => assert ShortCopy(s0, acts, jobs, n, t);
    case Dangling =>
      var i, j := PassedThenDropped(s0, acts, n, h, t, c);
      assert DeadReply(s0, acts, jobs, i, j, n, t);
  }

  /** The run's last step goes on with the callback of a connection without owner. */
  lemma {:induction false} LastDangle(s0: State, acts: seq<Action>, h: nat)
    requires Init(s0) && acts != [] && acts[|acts| - 1] == Back(Dangle(h))
    requires Enabled(Exec(s0, acts[..|acts| - 1]), acts[|acts| - 1])
    ensures SomeDeadEvent(s0, acts)
  {
    var n := |acts| - 1;
    LoopCount(s0, acts[..n]);
    var c := Exec(s0, acts[..n]).loops[h].loop.rest[0].conn;
    assert DangledAt(s0, acts, n, h, c);
    HeadReported(s0, acts[..n], h);
    assert acts[..n][..n] == acts[..n];
    var i, j := ReportedThenDropped(s0, acts, n, h, c);
    assert DeadEvent(s0, acts, i, j, n, h, c);
  }

  lemma AccountedLater(s0: State, acts: seq<Action>, jobs: seq<Job>, fate: Fate)
    requires acts != [] && Accounted(s0, acts[..|acts| - 1], jobs, fate)
    ensures Accounted(s0, acts, jobs, fate)
  {
    match fate
    case Going =>
    case Exited => LateReplyLater(s0, acts, jobs);
    case Overread => ShortCopyLater(s0, acts, jobs);
    case Dangling =>
      if SomeDeadReply(s0, acts[..|acts| - 1], jobs) {
        DeadReplyLater(s0, acts, jobs);
      } else {
        DeadEventLater(s0, acts);
      }
  }

  lemma LateReplyLater(s0: State, acts: seq<Action>, jobs: seq<Job>)
    requires acts != [] && SomeLateReply(s0, acts[..|acts| - 1], jobs)
    ensures SomeLateReply(s0, acts, jobs)
  {
    var n := |acts| - 1;
    var i, j, k, t :| LateReply(s0, acts[..n], jobs, i, j, k, t);
    SamePassed(s0, acts, n, i, t);
    SameClosed(s0, acts, n, j, ConnOf(jobs, t));
    SameRun(s0, acts, n, k, t);
    SamePrefix(acts, n, k);
    assert LateReply(s0, acts, jobs, i, j, k, t);
  }

  lemma ShortCopyLater(s0: State, acts: seq<Action>, jobs: seq<Job>)
    requires acts != [] && SomeShortCopy(s0, acts[..|acts| - 1], jobs)
    ensures SomeShortCopy(s0, acts, jobs)
  {
    var n := |acts| - 1;
    var k, t :| ShortCopy(s0, acts[..n], jobs, k, t);
    SameRun(s0, acts, n, k, t);
    SamePrefix(acts, n, k);
    assert ShortCopy(s0, acts, jobs, k, t);
  }

  lemma DeadReplyLater(s0: State, acts: seq<Action>, jobs: seq<Job>)
    requires acts != [] && SomeDeadReply(s0, acts[..|acts| - 1], jobs)
    ensures SomeDeadReply(s0, acts, jobs)
  {
    var n := |acts| - 1;
    var i, j, k, t :| DeadReply(s0, acts[..n], jobs, i, j, k, t);
    SamePassed(s0, acts, n, i, t);
    SameDropped(s0, acts, n, j, ConnOf(jobs, t));
    SameRun(s0, acts, n, k, t);
    assert DeadReply(s0, acts, jobs, i, j, k, t);
  }

  lemma DeadEventLater(s0: State, acts: seq<Action>)
    requires acts != [] && SomeDeadEvent(s0, acts[..|acts| - 1])
    ensures SomeDeadEvent(s0, acts)
  {
    var n := |acts| - 1;
    var i, j, k, h, c :| DeadEvent(s0, acts[..n], i, j, k, h, c);
    SameReported(s0, acts, n, i, h, c);
    SameDropped(s0, acts, n, j, c);
    SameDangled(s0, acts, n, k, h, c);
    assert DeadEvent(s0, acts, i, j, k, h, c);
  }

  /** Every ended run has the steps that ended it. */
  lemma {:induction false} EndHasCause(s0: State, acts: seq<Action>)
    requires Init(s0)
    ensures Accounted(s0, acts, Exec(s0, acts).jobs, Exec(s0, acts).fate)
  {
    if acts != [] && Exec(s0, acts).fate != Going {
      var n := |acts| - 1;
      EndHasCause(s0, acts[..n]);
      var s := Exec(s0, acts[..n]);
      if s.fate != Going {
        AccountedLater(s0, acts, s.jobs, s.fate);
      } else {
        PlacesInit(s0);
        PlacesAlways(s0, acts[..n]);
        FateStep(s, acts[n]);
        if acts[n].Loop? { LastRun(s0, acts, acts[n].i); } else { LastDangle(s0, acts, acts[n].step.i); }
      }
    }
  }

  // ---------------------------------------------------------------- the theorem

  /** What a run's step k, which runs job t, makes of the process. */
  lemma {:induction false} RunDecides(s0: State, acts: seq<Action>, k: nat, t: nat)
    requires Init(s0) && k < |acts| && RunAt(s0, acts, k, t)
    ensures var s := Exec(s0, acts[..k]); FateOf(s, t) != Going ==> Exec(s0, acts).fate == FateOf(s, t)
  {
    PlacesInit(s0);
    PlacesAlways(s0, acts[..k]);
    FateRun(Exec(s0, acts[..k]), acts[k].i);
    ExecTo(s0, acts, k);
    Later(s0, acts, k + 1);
  }

  /** The end of the process, exactly. exit(-1) is reached in precisely the runs in which some job
      passed the test in `send` before its connection hung up and its queued `sendinloop` ran after
      that, the connection still having an owner. A read past the copy happens in precisely those in
      which the queued `sendinloop` of a request with an early NUL ran. And a connection is used after
      its end in precisely those in which a job had passed the test, or an event had been reported,
      before the last reference to its connection went, and the send ran or the callback went on after. */
  lemma {:induction false} EndsIff(s0: State, acts: seq<Action>)
    requires Init(s0)
    ensures var jobs, fate := Exec(s0, acts).jobs, Exec(s0, acts).fate;
            && (fate == Exited <==> SomeLateReply(s0, acts, jobs))
            && (fate == Overread <==> SomeShortCopy(s0, acts, jobs))
            && (fate == Dangling <==> SomeDeadReply(s0, acts, jobs) || SomeDeadEvent(s0, acts))
  {
    EndHasCause(s0, acts);
    var jobs := Exec(s0, acts).jobs;
    if SomeLateReply(s0, acts, jobs) { LateReplyEnds(s0, acts); }
    if SomeShortCopy(s0, acts, jobs) { ShortCopyEnds(s0, acts); }
    if SomeDeadReply(s0, acts, jobs) { DeadReplyEnds(s0, acts); }
    if SomeDeadEvent(s0, acts) { DeadEventEnds(s0, acts); }
  }

  lemma {:induction false} LateReplyEnds(s0: State, acts: seq<Action>)
    requires Init(s0) && SomeLateReply(s0, acts, Exec(s0, acts).jobs)
    ensures Exec(s0, acts).fate == Exited
  {
    var jobs := Exec(s0, acts).jobs;
    var i, j, k, t :| LateReply(s0, acts, jobs, i, j, k, t);
    CloseSeen(s0, acts, j, k, ConnOf(jobs, t));
    RunDecides(s0, acts, k, t);
    RunConn(s0, acts, k, t);
  }

  lemma {:induction false} ShortCopyEnds(s0: State, acts: seq<Action>)
    requires Init(s0) && SomeShortCopy(s0, acts, Exec(s0, acts).jobs)
    ensures Exec(s0, acts).fate == Overread
  {
    var k, t :| ShortCopy(s0, acts, Exec(s0, acts).jobs, k, t);
    RunDecides(s0, acts, k, t);
    RunConn(s0, acts, k, t);
  }

  lemma {:induction false} DeadReplyEnds(s0: State, acts: seq<Action>)
    requires Init(s0) && SomeDeadReply(s0, acts, Exec(s0, acts).jobs)
    ensures Exec(s0, acts).fate == Dangling
  {
    var jobs := Exec(s0, acts).jobs;
    var i, j, k, t :| DeadReply(s0, acts, jobs, i, j, k, t);
    UnownedAt(s0, acts, j, k, ConnOf(jobs, t));
    RunUnowned(s0, acts, k, t);
  }

  lemma {:induction false} RunUnowned(s0: State, acts: seq<Action>, k: nat, t: nat)
    requires Init(s0) && k < |acts| && RunAt(s0, acts, k, t) && !OwnedAt(s0, acts, k, ConnOf(Exec(s0, acts).jobs, t))
    ensures Exec(s0, acts).fate == Dangling
  {
    RunDecides(s0, acts, k, t);
    RunConn(s0, acts, k, t);
  }

  lemma {:induction false} UnownedAt(s0: State, acts: seq<Action>, j: nat, k: nat, c: nat)
    requires Init(s0) && j < k <= |acts| && DroppedAt(s0, acts, j, c)
    ensures !OwnedAt(s0, acts, k, c)
  {
    SamePrefix(acts, k, j + 1);
    InitInv(s0);
    UnownedLater(s0, acts[..k], j + 1, c);
  }

  lemma {:induction false} DeadEventEnds(s0: State, acts: seq<Action>)
    requires Init(s0) && SomeDeadEvent(s0, acts)
    ensures Exec(s0, acts).fate == Dangling
  {
    var i, j, k, h, c :| DeadEvent(s0, acts, i, j, k, h, c);
    DangleEnds(s0, acts, k, h);
  }

  lemma DangleEnds(s0: State, acts: seq<Action>, k: nat, h: nat)
    requires k < |acts| && acts[k] == Back(Dangle(h)) && Enabled(Exec(s0, acts[..k]), acts[k])
    ensures Exec(s0, acts).fate == Dangling
  {
    ExecTo(s0, acts, k);
    Later(s0, acts, k + 1);
  }

  lemma {:induction false} RunConn(s0: State, acts: seq<Action>, k: nat, t: nat)
    requires Init(s0) && k < |acts| && RunAt(s0, acts, k, t)
    ensures var s, jobs := Exec(s0, acts[..k]), Exec(s0, acts).jobs;
            ConnOf(jobs, t) == ConnOf(s.jobs, t) && Copyable(jobs, t) == Copyable(s.jobs, t)
  {
    PlacesInit(s0);
    PlacesAlways(s0, acts[..k]);
    FateRun(Exec(s0, acts[..k]), acts[k].i);
    Later(s0, acts, k);
  }

  lemma ExecTo(s0: State, acts: seq<Action>, k: nat)
    requires k < |acts| && Enabled(Exec(s0, acts[..k]), acts[k])
    ensures Exec(s0, acts[..k + 1]) == Next(Exec(s0, acts[..k]), acts[k])
  {
    assert acts[..k + 1][..k] == acts[..k];
  }

  lemma CloseSeen(s0: State, acts: seq<Action>, j: nat, k: nat, c: nat)
    requires j < k < |acts| && ClosedAt(s0, acts, j, c)
    ensures c in Exec(s0, acts[..k]).closed
  {
    ExecTo(s0, acts, j);
    assert acts[..k][..j + 1] == acts[..j + 1];
    Later(s0, acts[..k], j + 1);
  }
}
