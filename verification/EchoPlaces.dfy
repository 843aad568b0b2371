/** Where every job of the echo service is, with any number of loops, workers and connections: loops
    hold jobs of their own connections, what a loop has run is in the connection's stream, and every
    delivered job is in exactly one place. */
module EchoPlaces {
  import opened Framing
  import opened EndToEnd
  import L = LoopHandoff

  // ---------------------------------------------------------------- the tickets of one connection

  /** The tickets of `ts` that belong to connection c, in order. */
  function Of(jobs: seq<Job>, c: nat, ts: seq<nat>): seq<nat>
  {
    if ts == [] then []
    else
      var t := ts[|ts| - 1];
      Of(jobs, c, ts[..|ts| - 1]) + (if ConnOf(jobs, t) == c then [t] else [])
  }

  lemma {:induction false} OfPush(jobs: seq<Job>, c: nat, ts: seq<nat>, t: nat)
    ensures Of(jobs, c, ts + [t]) == Of(jobs, c, ts) + (if ConnOf(jobs, t) == c then [t] else [])
  {
    assert (ts + [t])[..|ts|] == ts;
  }

  lemma OfOne(jobs: seq<Job>, c: nat, t: nat)
    ensures Of(jobs, c, [t]) == if ConnOf(jobs, t) == c then [t] else []
  {
    OfPush(jobs, c, [], t);
    assert [] + [t] == [t];
  }

  lemma {:induction false} OfConcat(jobs: seq<Job>, c: nat, xs: seq<nat>, ys: seq<nat>)
    ensures Of(jobs, c, xs + ys) == Of(jobs, c, xs) + Of(jobs, c, ys)
  {
    if ys == [] {
      assert xs + ys == xs;
    } else {
      var n := |ys| - 1;
      var last := if ConnOf(jobs, ys[n]) == c then [ys[n]] else [];
      OfConcat(jobs, c, xs, ys[..n]);
      assert xs + ys == (xs + ys[..n]) + [ys[n]];
      OfPush(jobs, c, xs + ys[..n], ys[n]);
      ConcatAssociates(Of(jobs, c, xs), Of(jobs, c, ys[..n]), last);
    }
  }

  ghost predicate Known(jobs: seq<Job>, ts: seq<nat>) { forall i :: 0 <= i < |ts| ==> ts[i] < |jobs| }

  lemma {:induction false} OfGrow(jobs: seq<Job>, j: Job, c: nat, ts: seq<nat>)
    requires Known(jobs, ts)
    ensures Of(jobs + [j], c, ts) == Of(jobs, c, ts)
  {
    if ts != [] {
      OfGrow(jobs, j, c, ts[..|ts| - 1]);
    }
  }

  // ---------------------------------------------------------------- routing

  /** A loop holds only jobs of its own connections. */
  ghost predicate Routed(s: State, i: nat)
    requires Sized(s) && i < |s.loops|
  {
    Known(s.jobs, s.loops[i].pushed)
    && forall k :: 0 <= k < |s.loops[i].pushed| ==> Home(s, ConnOf(s.jobs, s.loops[i].pushed[k])) == i
  }

  ghost predicate AllRouted(s: State)
    requires Sized(s)
  {
    forall i :: 0 <= i < |s.loops| ==> Routed(s, i)
  }

  lemma AddedKnown(s: State)
    requires PartsOk(s) && TicketsOk(s)
    ensures Known(s.jobs, s.pool.added) && Known(s.jobs, s.pool.taken)
  {
    forall k | 0 <= k < |s.pool.added|
      ensures s.pool.added[k] < |s.jobs|
    {
      assert s.pool.added[k] in s.pool.added;
    }
    forall k | 0 <= k < |s.pool.taken|
      ensures s.pool.taken[k] < |s.jobs|
    {
      TakenKnown(s, k);
    }
  }

  lemma PushRouted(s: State, i: nat, w: nat)
    requires Inv(s) && i < |s.loops| && Routed(s, i) && w < |s.hand| && s.loops[i].producers[w].Pushing?
    ensures var k := s.loops[i].producers[w].task; k < |s.jobs| && Home(s, ConnOf(s.jobs, k)) == i
  {
    assert SendsHand(s, i, w) && HandOk(s, w);
    TakenKnown(s, s.pool.workers[w].pos);
  }

  lemma RoutedMoves(s: State, t: State, i: nat, la: L.Action)
    requires Inv(s) && AllRouted(s) && i < |s.loops| && L.Enabled(s.loops[i], la) && (la.Push? ==> la.p < |s.hand|)
    requires Sized(t) && t.jobs == s.jobs && t.loops == s.loops[i := L.Next(s.loops[i], la)]
    ensures AllRouted(t)
  {
    PushedStep(s.loops[i], la);
    forall j | 0 <= j < |t.loops|
      ensures Routed(t, j)
    {
      assert Routed(s, j);
      if j == i && la.Push? {
        PushRouted(s, i, la.p);
      }
    }
  }

  lemma RoutedLoop(s: State, i: nat, la: L.Action)
    requires Inv(s) && AllRouted(s) && Enabled(s, Loop(i, la))
    ensures Sized(NextLoop(s, i, la)) && AllRouted(NextLoop(s, i, la))
  {
    SizedKeeps(s, Loop(i, la));
    LoopFrame(s, i, la);
    RoutedMoves(s, NextLoop(s, i, la), i, la);
  }

  lemma QueueRouted(s: State, i: nat)
    requires Sized(s) && i < |s.loops| && Routed(s, i) && L.Fifo(s.loops[i]) && s.loops[i].queue != []
    ensures s.loops[i].queue[0] < |s.jobs| && Home(s, ConnOf(s.jobs, s.loops[i].queue[0])) == i
  {
    var l := s.loops[i];
    assert l.pushed[|l.executed|] == l.queue[0];
  }

  lemma ExecutedStep(l: L.State, la: L.Action)
    requires L.Enabled(l, la)
    ensures L.Next(l, la).executed == if la.RunTask? then l.executed + [l.queue[0]] else l.executed
  {
  }

  lemma ExecutedKnown(s: State, i: nat)
    requires Sized(s) && i < |s.loops| && Routed(s, i) && L.Fifo(s.loops[i])
    ensures Known(s.jobs, s.loops[i].executed)
  {
    forall k | 0 <= k < |s.loops[i].executed|
      ensures s.loops[i].executed[k] < |s.jobs|
    {
      assert s.loops[i].pushed[k] == s.loops[i].executed[k];
    }
  }

  lemma RoutedDeliver(s: State, d: nat)
    requires Sized(s) && AllRouted(s) && Enabled(s, Deliver(d))
    ensures Sized(Next(s, Deliver(d))) && AllRouted(Next(s, Deliver(d)))
  {
    SizedKeeps(s, Deliver(d));
    var t := Next(s, Deliver(d));
    forall i | 0 <= i < |t.loops|
      ensures Routed(t, i)
    {
      assert Routed(s, i);
    }
  }

  lemma RoutedKeeps(s: State, a: Action)
    requires Inv(s) && AllRouted(s) && Enabled(s, a)
    ensures Sized(Next(s, a)) && AllRouted(Next(s, a))
  {
    SizedKeeps(s, a);
    match a
    case Deliver(d) => RoutedDeliver(s, d);
    case Loop(i, la) => RoutedLoop(s, i, la);
    case _ => RoutedUntouched(s, a);
  }

  lemma RoutedUntouched(s: State, a: Action)
    requires Sized(s) && AllRouted(s) && Enabled(s, a) && !a.Deliver? && !a.Loop?
    ensures Sized(Next(s, a)) && AllRouted(Next(s, a))
  {
    SizedKeeps(s, a);
    var t := Next(s, a);
    forall i | 0 <= i < |t.loops|
      ensures Routed(t, i)
    {
      assert Routed(s, i);
      assert t.loops[i].pushed == s.loops[i].pushed;
    }
  }

  // ---------------------------------------------------------------- what a loop ran is in the streams

  /** Delivered jobs belong to connections there are, and a connection knows its own. */
  ghost predicate JobsOk(s: State)
  {
    forall t :: 0 <= t < |s.jobs| ==> s.jobs[t].conn < |s.conns|
  }

  ghost predicate MineOk(s: State, c: nat)
    requires c < |s.conns|
  {
    forall t :: 0 <= t ==> (t in s.conns[c].mine <==> t < |s.jobs| && s.jobs[t].conn == c)
  }

  /** Of connection c the loop has run what was appended, and the job that ended the process. */
  ghost predicate DoneOk(s: State, c: nat)
    requires Sized(s) && c < |s.conns|
  {
    Of(s.jobs, c, s.loops[Home(s, c)].executed) == s.conns[c].done + Of(s.jobs, c, s.fatal)
  }

  ghost predicate FateOk(s: State) { s.fate == Going ==> s.fatal == [] }

  lemma JobsKeep(s: State, a: Action)
    requires JobsOk(s) && Enabled(s, a)
    ensures JobsOk(Next(s, a)) && |Next(s, a).conns| == |s.conns|
  {
  }

  lemma MineKeeps(s: State, a: Action, c: nat)
    requires c < |s.conns| && MineOk(s, c) && Enabled(s, a)
    ensures |Next(s, a).conns| == |s.conns| && MineOk(Next(s, a), c)
  {
    var t := Next(s, a);
    assert a.Deliver? || (t.jobs == s.jobs && t.conns[c].mine == s.conns[c].mine);
  }

  lemma FateKeeps(s: State, a: Action)
    requires FateOk(s) && Enabled(s, a)
    ensures FateOk(Next(s, a))
  {
  }

  /** The task a loop is about to run is a job of a connection of that loop. */
  lemma RunKnown(s: State, i: nat)
    requires Inv(s) && AllRouted(s) && JobsOk(s) && i < |s.loops| && s.loops[i].queue != []
    ensures var k := s.loops[i].queue[0];
            k < |s.jobs| && ConnOf(s.jobs, k) < |s.conns| && Home(s, ConnOf(s.jobs, k)) == i
  {
    assert Routed(s, i) && L.Inv(s.loops[i]);
    QueueRouted(s, i);
  }

  lemma OneMore(jobs: seq<Job>, c: nat, executed: seq<nat>, done: seq<nat>, k: nat)
    requires Of(jobs, c, executed) == done
    ensures Of(jobs, c, executed + [k]) == done + Of(jobs, c, [k])
    ensures Of(jobs, c, [k]) == if ConnOf(jobs, k) == c then [k] else []
  {
    OfPush(jobs, c, executed, k);
    OfOne(jobs, c, k);
  }

  /** What a loop's run of task k changes: one stream grows by it, or it ended the process. */
  ghost predicate RunEffect(s: State, t: State, i: nat, k: nat)
    requires Sized(s)
  {
    var c := ConnOf(s.jobs, k);
    && i < |s.loops| && k < |s.jobs| && c < |s.conns| && Home(s, c) == i && s.fatal == []
    && t.jobs == s.jobs && |t.conns| == |s.conns| && |t.loops| == |s.loops|
    && (forall j :: 0 <= j < |s.loops| && j != i ==> t.loops[j].executed == s.loops[j].executed)
    && t.loops[i].executed == s.loops[i].executed + [k]
    && (forall d :: 0 <= d < |s.conns| && d != c ==> t.conns[d] == s.conns[d])
    && ((t.fatal == [] && t.conns[c].done == s.conns[c].done + [k])
        || (t.fatal == [k] && t.conns[c].done == s.conns[c].done))
  }

  lemma RunChanges(s: State, i: nat)
    requires Inv(s) && AllRouted(s) && JobsOk(s) && FateOk(s) && Enabled(s, Loop(i, L.RunTask))
    ensures RunEffect(s, NextLoop(s, i, L.RunTask), i, s.loops[i].queue[0])
  {
    RunKnown(s, i);
    var k := s.loops[i].queue[0];
    SendOutcome(s.(loops := s.loops[i := L.Next(s.loops[i], L.RunTask)]), k);
    assert [] + [k] == [k];
  }

  lemma DoneAfter(s: State, t: State, i: nat, k: nat, c: nat)
    requires Sized(s) && Sized(t) && RunEffect(s, t, i, k) && c < |s.conns| && DoneOk(s, c)
    ensures DoneOk(t, c)
  {
    var done := s.conns[c].done;
    assert done + Of(s.jobs, c, []) == done;
    OneMore(s.jobs, c, s.loops[Home(s, c)].executed, done, k);
    if Home(s, c) == i {
      assert t.fatal == [] ==> t.conns[c].done == done + Of(s.jobs, c, [k]);
      assert t.conns[c].done + [] == t.conns[c].done;
    } else {
      assert Of(s.jobs, c, [k]) == [] && done + [] == done;
    }
  }

  lemma DoneRun(s: State, i: nat, c: nat)
    requires Inv(s) && AllRouted(s) && JobsOk(s) && FateOk(s) && Enabled(s, Loop(i, L.RunTask))
    requires c < |s.conns| && DoneOk(s, c)
    ensures var t := NextLoop(s, i, L.RunTask); Sized(t) && c < |t.conns| && DoneOk(t, c)
  {
    SizedKeeps(s, Loop(i, L.RunTask));
    RunChanges(s, i);
    DoneAfter(s, NextLoop(s, i, L.RunTask), i, s.loops[i].queue[0], c);
  }

  lemma DoneLoop(s: State, i: nat, la: L.Action, c: nat)
    requires Sized(s) && Enabled(s, Loop(i, la)) && !la.RunTask? && c < |s.conns| && DoneOk(s, c)
    ensures var t := NextLoop(s, i, la); Sized(t) && c < |t.conns| && DoneOk(t, c)
  {
    SizedKeeps(s, Loop(i, la));
    ExecutedStep(s.loops[i], la);
  }

  lemma DoneDeliver(s: State, d: nat, c: nat)
    requires Inv(s) && AllRouted(s) && FateOk(s) && Enabled(s, Deliver(d)) && c < |s.conns| && DoneOk(s, c)
    ensures Sized(Next(s, Deliver(d))) && DoneOk(Next(s, Deliver(d)), c)
  {
    SizedKeeps(s, Deliver(d));
    var h := Home(s, c);
    assert Routed(s, h) && L.Inv(s.loops[h]);
    ExecutedKnown(s, h);
    OfGrow(s.jobs, Job(d, Pick(s.conns[d].input).body), c, s.loops[h].executed);
  }

  lemma DoneUntouched(s: State, a: Action, c: nat)
    requires Enabled(s, a) && !a.Deliver? && !a.Loop? && c < |s.conns| && DoneOk(s, c)
    ensures Sized(Next(s, a)) && c < |Next(s, a).conns| && DoneOk(Next(s, a), c)
  {
    SizedKeeps(s, a);
    var t, h := Next(s, a), Home(s, c);
    assert t.loops[h].executed == s.loops[h].executed && t.conns[c].done == s.conns[c].done;
    assert t.jobs == s.jobs && t.fatal == s.fatal;
  }

  lemma DoneKeeps(s: State, a: Action, c: nat)
    requires Inv(s) && AllRouted(s) && JobsOk(s) && FateOk(s) && Enabled(s, a) && c < |s.conns| && DoneOk(s, c)
    ensures Sized(Next(s, a)) && |Next(s, a).conns| == |s.conns| && DoneOk(Next(s, a), c)
  {
    SizedKeeps(s, a);
    JobsKeep(s, a);
    match a
    case Deliver(d) => DoneDeliver(s, d, c);
    case Loop(i, la) => if la.RunTask? { DoneRun(s, i, c); } else { DoneLoop(s, i, la, c); }
    case _ => DoneUntouched(s, a, c);
  }

  // ---------------------------------------------------------------- counting what was appended

  /** Occurrences of ticket t in the loops' queues, among the tasks they have run, and in the
      connections' output streams. */
  function QueuedOn(ls: seq<L.State>, t: nat): nat
  {
    if ls == [] then 0 else Count(ls[0].queue, t) + QueuedOn(ls[1..], t)
  }

  function RunBy(ls: seq<L.State>, t: nat): nat
  {
    if ls == [] then 0 else Count(ls[0].executed, t) + RunBy(ls[1..], t)
  }

  function AppendedTo(xs: seq<Conn>, t: nat): nat
  {
    if xs == [] then 0 else Count(xs[0].done, t) + AppendedTo(xs[1..], t)
  }

  lemma {:induction false} RunUpdate(ls: seq<L.State>, i: nat, l: L.State, t: nat)
    requires i < |ls|
    ensures RunBy(ls[i := l], t) == RunBy(ls, t) - Count(ls[i].executed, t) + Count(l.executed, t)
  {
    if i == 0 {
      assert ls[i := l][1..] == ls[1..];
    } else {
      RunUpdate(ls[1..], i - 1, l, t);
      assert ls[i := l][1..] == ls[1..][i - 1 := l];
    }
  }

  lemma {:induction false} AppendedUpdate(xs: seq<Conn>, c: nat, x: Conn, t: nat)
    requires c < |xs|
    ensures AppendedTo(xs[c := x], t) == AppendedTo(xs, t) - Count(xs[c].done, t) + Count(x.done, t)
  {
    if c == 0 {
      assert xs[c := x][1..] == xs[1..];
    } else {
      AppendedUpdate(xs[1..], c - 1, x, t);
      assert xs[c := x][1..] == xs[1..][c - 1 := x];
    }
  }

  lemma {:induction false} AppendedOnce(xs: seq<Conn>, c: nat, t: nat)
    requires c < |xs|
    ensures Count(xs[c].done, t) <= AppendedTo(xs, t)
  {
    if c > 0 {
      AppendedOnce(xs[1..], c - 1, t);
    }
  }

  /** Every task a loop has run is in an output stream, but the one that ended the process. */
  ghost predicate Landed(s: State, t: nat)
  {
    AppendedTo(s.conns, t) + Count(s.fatal, t) == RunBy(s.loops, t)
  }

  lemma LandedRun(s: State, i: nat, t: nat)
    requires Inv(s) && AllRouted(s) && JobsOk(s) && Landed(s, t) && Enabled(s, Loop(i, L.RunTask))
    ensures Landed(NextLoop(s, i, L.RunTask), t)
  {
    RunKnown(s, i);
    var l, k := L.Next(s.loops[i], L.RunTask), s.loops[i].queue[0];
    var c := ConnOf(s.jobs, k);
    RunUpdate(s.loops, i, l, t);
    CountPush(s.loops[i].executed, k, t);
    CountPush(s.fatal, k, t);
    CountPush(s.conns[c].done, k, t);
    SendOutcome(s.(loops := s.loops[i := l]), k);
    AppendedUpdate(s.conns, c, NextLoop(s, i, L.RunTask).conns[c], t);
  }

  lemma LandedLoop(s: State, i: nat, la: L.Action, t: nat)
    requires Landed(s, t) && Enabled(s, Loop(i, la)) && !la.RunTask?
    ensures Landed(NextLoop(s, i, la), t)
  {
    RunUpdate(s.loops, i, L.Next(s.loops[i], la), t);
    ExecutedStep(s.loops[i], la);
  }

  lemma LandedSame(s: State, xs: seq<Conn>, c: nat, t: nat)
    requires c < |s.conns| && |xs| == |s.conns| && xs == s.conns[c := xs[c]] && xs[c].done == s.conns[c].done
    ensures AppendedTo(xs, t) == AppendedTo(s.conns, t)
  {
    AppendedUpdate(s.conns, c, xs[c], t);
  }

  lemma LandedBack(s: State, b: Step, t: nat)
    requires Landed(s, t) && Enabled(s, Back(b))
    ensures Landed(NextStep(s, b), t)
  {
    BackFrame(s, b);
    if b.Read? || b.Write? {
      LandedSame(s, NextStep(s, b).conns, b.c, t);
    }
  }

  lemma LandedDeliver(s: State, c: nat, t: nat)
    requires Landed(s, t) && Enabled(s, Deliver(c))
    ensures Landed(Next(s, Deliver(c)), t)
  {
    LandedSame(s, Next(s, Deliver(c)).conns, c, t);
  }

  lemma LandedCheck(s: State, w: nat, t: nat)
    requires Landed(s, t) && Enabled(s, CheckOpen(w))
    ensures Landed(NextCheck(s, w), t)
  {
    var k := JobOf(s, w);
    var h := Home(s, ConnOf(s.jobs, k));
    RunUpdate(s.loops, h, L.Next(s.loops[h], L.Offer(w, k)), t);
  }

  lemma LandedKeeps(s: State, a: Action, t: nat)
    requires Inv(s) && AllRouted(s) && JobsOk(s) && Landed(s, t) && Enabled(s, a)
    ensures Landed(Next(s, a), t)
  {
    match a
    case Back(b) => LandedBack(s, b, t);
    case Deliver(c) => LandedDeliver(s, c, t);
    case CheckOpen(w) => LandedCheck(s, w, t);
    case Loop(i, la) => if la.RunTask? { LandedRun(s, i, t); } else { LandedLoop(s, i, la, t); }
    case _ =>
  }

  // ---------------------------------------------------------------- every step

  ghost predicate PlaceOk(s: State, c: nat)
    requires Sized(s) && c < |s.conns|
  {
    MineOk(s, c) && DoneOk(s, c)
  }

  ghost predicate PlacesInv(s: State)
  {
    && Inv(s) && AllRouted(s) && JobsOk(s) && FateOk(s)
    && (forall c :: 0 <= c < |s.conns| ==> PlaceOk(s, c))
    && forall t :: Landed(s, t)
  }

  lemma PlacesKeep(s: State, a: Action)
    requires PlacesInv(s) && Enabled(s, a)
    ensures PlacesInv(Next(s, a)) && |Next(s, a).conns| == |s.conns|
  {
    var u := Next(s, a);
    NextKeeps(s, a);
    RoutedKeeps(s, a);
    JobsKeep(s, a);
    FateKeeps(s, a);
    forall c | 0 <= c < |u.conns|
      ensures PlaceOk(u, c)
    {
      assert PlaceOk(s, c);
      MineKeeps(s, a, c);
      DoneKeeps(s, a, c);
    }
    forall t: nat
      ensures Landed(u, t)
    {
      assert Landed(s, t);
      LandedKeeps(s, a, t);
    }
  }

  lemma {:induction false} NoneAppended(xs: seq<Conn>, t: nat)
    requires forall c :: 0 <= c < |xs| ==> xs[c].done == []
    ensures AppendedTo(xs, t) == 0
  {
    if xs != [] { NoneAppended(xs[1..], t); }
  }

  lemma {:induction false} NoneRun(ls: seq<L.State>, t: nat)
    requires forall i :: 0 <= i < |ls| ==> ls[i].executed == []
    ensures RunBy(ls, t) == 0
  {
    if ls != [] { NoneRun(ls[1..], t); }
  }

  lemma PlacesInit(s: State)
    requires Init(s)
    ensures PlacesInv(s)
  {
    InitInv(s);
    forall t: nat
      ensures Landed(s, t)
    {
      NoneAppended(s.conns, t);
      NoneRun(s.loops, t);
    }
    forall c | 0 <= c < |s.conns|
      ensures PlaceOk(s, c)
    {
      assert s.conns[c] == Conn([], [], [], [], [], []);
    }
  }

  lemma {:induction false} PlacesAlways(s: State, acts: seq<Action>)
    requires PlacesInv(s)
    ensures PlacesInv(Exec(s, acts)) && |Exec(s, acts).conns| == |s.conns|
  {
    if acts != [] {
      PlacesAlways(s, acts[..|acts| - 1]);
      var t := Exec(s, acts[..|acts| - 1]);
      if Enabled(t, acts[|acts| - 1]) {
        PlacesKeep(t, acts[|acts| - 1]);
      }
    }
  }

  // ---------------------------------------------------------------- conservation

  lemma {:induction false} PushedSplits(ls: seq<L.State>, t: nat)
    requires forall i :: 0 <= i < |ls| ==> L.Fifo(ls[i])
    ensures PushedOn(ls, t) == QueuedOn(ls, t) + RunBy(ls, t)
  {
    if ls != [] {
      assert L.Fifo(ls[0]);
      CountConcat(ls[0].executed, ls[0].queue, t);
      PushedSplits(ls[1..], t);
    }
  }

  /** How often ticket t is found, over all places a job can be in: carried by a producer of the pool,
      in the pool's queue, in a worker's hand, in a loop's queue, in a connection's output stream,
      dropped because its connection had closed, or the one that ended the process. */
  ghost function Found(s: State, t: nat): nat
  {
    Carriers(s.pool.producers, t) + Count(s.pool.queue, t) + Holders(s.hand, t)
    + QueuedOn(s.loops, t) + AppendedTo(s.conns, t) + Count(s.dropped, t) + Count(s.fatal, t)
  }

  lemma FoundOnce(s: State, t: nat)
    requires PlacesInv(s)
    ensures Found(s, t) == if t < |s.jobs| then 1 else 0
  {
    forall i | 0 <= i < |s.loops|
      ensures L.Fifo(s.loops[i])
    {
      assert L.Inv(s.loops[i]);
    }
    PushedSplits(s.loops, t);
    CountConcat(s.pool.taken, s.pool.queue, t);
    assert IntoPool(s, t) && OutOfPool(s, t) && Landed(s, t);
  }

  /** Conservation: in every interleaving, with any number of loops, workers and connections, each
      delivered job is in exactly one place and nothing else is anywhere: no reply is lost or made
      twice. */
  lemma {:induction false} Conservation(s0: State, acts: seq<Action>, t: nat)
    requires Init(s0)
    ensures Found(Exec(s0, acts), t) == if t < |Exec(s0, acts).jobs| then 1 else 0
  {
    PlacesInit(s0);
    PlacesAlways(s0, acts);
    FoundOnce(Exec(s0, acts), t);
  }

  // ---------------------------------------------------------------- what a stream is made of

  ghost predicate NoRepeats(xs: seq<nat>) { forall i, j :: 0 <= i < j < |xs| ==> xs[i] != xs[j] }

  lemma {:induction false} CountMember(xs: seq<nat>, i: nat)
    requires i < |xs|
    ensures Count(xs, xs[i]) >= 1
  {
    if i < |xs| - 1 {
      CountMember(xs[..|xs| - 1], i);
    }
  }

  lemma {:induction false} CountTwice(xs: seq<nat>, i: nat, j: nat)
    requires i < j < |xs| && xs[i] == xs[j]
    ensures Count(xs, xs[i]) >= 2
  {
    if j < |xs| - 1 {
      CountTwice(xs[..|xs| - 1], i, j);
    } else {
      CountMember(xs[..|xs| - 1], i);
    }
  }

  lemma {:induction false} OfMembers(jobs: seq<Job>, c: nat, ts: seq<nat>, i: nat)
    requires i < |Of(jobs, c, ts)|
    ensures ConnOf(jobs, Of(jobs, c, ts)[i]) == c
  {
    if i < |Of(jobs, c, ts[..|ts| - 1])| {
      OfMembers(jobs, c, ts[..|ts| - 1], i);
    }
  }

  lemma DoneMember(s: State, c: nat, i: nat)
    requires PlacesInv(s) && c < |s.conns| && i < |s.conns[c].done|
    ensures s.conns[c].done[i] in s.conns[c].mine
  {
    var t := s.conns[c].done[i];
    assert PlaceOk(s, c);
    OfMembers(s.jobs, c, s.loops[Home(s, c)].executed, i);
    CountMember(s.conns[c].done, i);
    AppendedOnce(s.conns, c, t);
    FoundOnce(s, t);
  }

  /** With any number of workers: a connection's stream holds no job twice and only jobs delivered
      from that connection. */
  lemma DoneOnceFromMine(s: State, c: nat)
    requires PlacesInv(s) && c < |s.conns|
    ensures NoRepeats(s.conns[c].done)
    ensures forall i :: 0 <= i < |s.conns[c].done| ==> s.conns[c].done[i] in s.conns[c].mine
  {
    var done := s.conns[c].done;
    forall i, j | 0 <= i < j < |done|
      ensures done[i] != done[j]
    {
      if done[i] == done[j] {
        CountTwice(done, i, j);
        AppendedOnce(s.conns, c, done[i]);
        FoundOnce(s, done[i]);
      }
    }
    forall i | 0 <= i < |done|
      ensures done[i] in s.conns[c].mine
    {
      DoneMember(s, c, i);
    }
  }
}
