/** What the recorded histories of the composed service are, told from the actions of the run alone. */
module EchoHistory {
  import opened Framing
  import opened EndToEnd
  import opened EchoPlaces
  import L = LoopHandoff

  /** The last step of the run is the given one and happens. */
  predicate Last(s0: State, acts: seq<Action>, a: Action)
  {
    acts != [] && acts[|acts| - 1] == a && Enabled(Exec(s0, acts[..|acts| - 1]), a)
  }

  /** The bytes read from connection c. */
  function BytesRead(s0: State, acts: seq<Action>, c: nat): Bytes
  {
    if acts == [] then []
    else
      var a := acts[|acts| - 1];
      BytesRead(s0, acts[..|acts| - 1], c)
      + (if a.Back? && a.step.Read? && a.step.c == c && Last(s0, acts, a) then a.step.chunk else [])
  }

  /** How many bytes the kernel has accepted for connection c. */
  function Accepted(s0: State, acts: seq<Action>, c: nat): nat
  {
    if acts == [] then 0
    else
      var a := acts[|acts| - 1];
      Accepted(s0, acts[..|acts| - 1], c)
      + (if a.Back? && a.step.Write? && a.step.c == c && Last(s0, acts, a) then a.step.n else 0)
  }

  /** The connections from which messages were delivered, in delivery order. */
  function Deliveries(s0: State, acts: seq<Action>): seq<nat>
  {
    if acts == [] then []
    else
      var a := acts[|acts| - 1];
      Deliveries(s0, acts[..|acts| - 1]) + (if a.Deliver? && Last(s0, acts, a) then [a.c] else [])
  }

  ghost predicate Rising(ts: seq<nat>, n: nat)
  {
    (forall i, j :: 0 <= i < j < |ts| ==> ts[i] < ts[j]) && forall i :: 0 <= i < |ts| ==> ts[i] < n
  }

  /** The dropped jobs are of connections that have hung up. */
  ghost predicate DroppedOk(s: State)
  {
    forall k :: 0 <= k < |s.dropped| ==> s.dropped[k] < |s.jobs| && ConnOf(s.jobs, s.dropped[k]) in s.closed
  }

  lemma SendHistory(s: State, k: nat, c: nat)
    requires c < |s.conns|
    ensures var t := NextSend(s, k);
            && |t.conns| == |s.conns| && t.jobs == s.jobs && t.dropped == s.dropped && t.closed == s.closed
            && t.conns[c].received == s.conns[c].received && t.conns[c].wire == s.conns[c].wire
            && t.conns[c].mine == s.conns[c].mine
  {
  }

  lemma LoopHistory(s: State, i: nat, la: L.Action, c: nat)
    requires Enabled(s, Loop(i, la)) && c < |s.conns|
    ensures var t := NextLoop(s, i, la);
            && |t.conns| == |s.conns| && t.jobs == s.jobs && t.dropped == s.dropped && t.closed == s.closed
            && t.conns[c].received == s.conns[c].received && t.conns[c].wire == s.conns[c].wire
            && t.conns[c].mine == s.conns[c].mine
  {
    if la.RunTask? {
      SendHistory(s.(loops := s.loops[i := L.Next(s.loops[i], la)]), s.loops[i].queue[0], c);
    }
  }

  lemma StreamStep(s: State, a: Action, c: nat)
    requires Enabled(s, a) && c < |s.conns|
    ensures |Next(s, a).conns| == |s.conns|
    ensures var x, y := s.conns[c], Next(s, a).conns[c];
               && y.received == x.received + (if a.Back? && a.step.Read? && a.step.c == c then a.step.chunk else [])
               && |y.wire| == |x.wire| + (if a.Back? && a.step.Write? && a.step.c == c then a.step.n else 0)
  {
    if a.Loop? { LoopHistory(s, a.i, a.la, c); }
  }

  /** The recorded streams are those of the actions. */
  lemma {:induction false} StreamsAre(s0: State, acts: seq<Action>, c: nat)
    requires Init(s0) && c < |s0.conns|
    ensures var s := Exec(s0, acts);
            && |s.conns| == |s0.conns| && s.conns[c].received == BytesRead(s0, acts, c)
            && |s.conns[c].wire| == Accepted(s0, acts, c)
  {
    if acts == [] {
      assert s0.conns[c] == Conn([], [], [], [], [], []);
    } else {
      var n := |acts| - 1;
      StreamsAre(s0, acts[..n], c);
      if Enabled(Exec(s0, acts[..n]), acts[n]) {
        StreamStep(Exec(s0, acts[..n]), acts[n], c);
      }
    }
  }

  /** The jobs belong to the connections delivered from. */
  ghost predicate OfDeliveries(jobs: seq<Job>, cs: seq<nat>)
  {
    |jobs| == |cs| && forall k :: 0 <= k < |jobs| ==> jobs[k].conn == cs[k]
  }

  lemma JobsStep(s: State, a: Action, c: nat)
    requires Enabled(s, a) && c < |s.conns| && Rising(s.conns[c].mine, |s.jobs|)
    ensures var t := Next(s, a);
            && |t.conns| == |s.conns| && Rising(t.conns[c].mine, |t.jobs|)
            && (if a.Deliver? then |t.jobs| == |s.jobs| + 1 && s.jobs <= t.jobs && t.jobs[|s.jobs|].conn == a.c
                else t.jobs == s.jobs)
  {
    if a.Loop? {
      LoopHistory(s, a.i, a.la, c);
    } else if a.Back? {
      BackFrame(s, a.step);
    }
  }

  /** The recorded jobs are the deliveries of the actions, and a connection's are those of it, in order. */
  lemma {:induction false} JobsAre(s0: State, acts: seq<Action>, c: nat)
    requires Init(s0) && c < |s0.conns|
    ensures var s := Exec(s0, acts);
            && |s.conns| == |s0.conns| && OfDeliveries(s.jobs, Deliveries(s0, acts))
            && Rising(s.conns[c].mine, |s.jobs|)
            && (forall t :: 0 <= t < |s.jobs| ==> (t in s.conns[c].mine <==> Deliveries(s0, acts)[t] == c))
  {
    PlacesInit(s0);
    PlacesAlways(s0, acts);
    JobsInduct(s0, acts, c);
    assert PlaceOk(Exec(s0, acts), c);
  }

  lemma {:induction false} JobsInduct(s0: State, acts: seq<Action>, c: nat)
    requires Init(s0) && c < |s0.conns|
    ensures var s := Exec(s0, acts);
            && |s.conns| == |s0.conns| && OfDeliveries(s.jobs, Deliveries(s0, acts)) && Rising(s.conns[c].mine, |s.jobs|)
  {
    if acts == [] {
      assert s0.conns[c] == Conn([], [], [], [], [], []);
    } else {
      var n := |acts| - 1;
      JobsInduct(s0, acts[..n], c);
      if Enabled(Exec(s0, acts[..n]), acts[n]) {
        JobsStep(Exec(s0, acts[..n]), acts[n], c);
      }
    }
  }

  lemma DroppedStep(s: State, a: Action)
    requires Inv(s) && Enabled(s, a) && DroppedOk(s)
    ensures DroppedOk(Next(s, a))
  {
    match a
    case CheckOpen(w) => TakenKnown(s, s.pool.workers[w].pos);
    case Loop(i, la) => DroppedLoop(s, i, la);
    case Back(b) => BackFrame(s, b);
    case _ =>
  }

  lemma DroppedLoop(s: State, i: nat, la: L.Action)
    requires Enabled(s, Loop(i, la)) && DroppedOk(s)
    ensures DroppedOk(NextLoop(s, i, la))
  {
  }

  /** Only replies to connections that have hung up are dropped. */
  lemma {:induction false} DroppedClosed(s0: State, acts: seq<Action>)
    requires Init(s0)
    ensures DroppedOk(Exec(s0, acts))
  {
    if acts != [] {
      var n := |acts| - 1;
      DroppedClosed(s0, acts[..n]);
      InitInv(s0);
      Always(s0, acts[..n]);
      if Enabled(Exec(s0, acts[..n]), acts[n]) {
        DroppedStep(Exec(s0, acts[..n]), acts[n]);
      }
    }
  }

  // ---------------------------------------------------------------- hang-ups and sweeps

  /** Some step of the run hung connection c up. */
  predicate HungUp(s0: State, acts: seq<Action>, c: nat)
  {
    acts != [] && (HungUp(s0, acts[..|acts| - 1], c) || Last(s0, acts, Back(Close(c))))
  }

  /** Some step of the run swept connection c out of its sub-loop's map. */
  predicate SweptOut(s0: State, acts: seq<Action>, c: nat)
  {
    acts != []
    && (SweptOut(s0, acts[..|acts| - 1], c)
        || var a := acts[|acts| - 1]; a.Back? && a.step.Sweep? && a.step.c == c && Last(s0, acts, a))
  }

  /** Some sweep of the run reported connection c to the server. */
  predicate ReportedOut(s0: State, acts: seq<Action>, c: nat)
  {
    acts != []
    && (ReportedOut(s0, acts[..|acts| - 1], c)
        || var a := acts[|acts| - 1]; a.Back? && a.step.Sweep? && a.step.key == c && Last(s0, acts, a))
  }

  lemma MapsStep(s: State, a: Action, c: nat)
    requires Enabled(s, a)
    ensures var t := Next(s, a);
            && (c in t.closed <==> c in s.closed || a == Back(Close(c)))
            && (c in t.server <==>
                  c in s.server && a != Back(Close(c)) && !(a.Back? && a.step.Sweep? && a.step.key == c))
            && (c in t.subs <==> c in s.subs && !(a.Back? && a.step.Sweep? && a.step.c == c))
  {
    if a.Loop? { LoopMaps(s, a.i, a.la); }
  }

  lemma LoopMaps(s: State, i: nat, la: L.Action)
    requires Enabled(s, Loop(i, la))
    ensures var t := NextLoop(s, i, la); t.closed == s.closed && t.server == s.server && t.subs == s.subs
  {
  }

  /** Closed are exactly the connections that hung up; the server lists those that neither hung up nor
      were reported by a sweep, a sub-loop those that were not swept out. */
  lemma {:induction false} MapsAre(s0: State, acts: seq<Action>, c: nat)
    requires Init(s0) && c < |s0.conns|
    ensures var s := Exec(s0, acts);
            && (c in s.closed <==> HungUp(s0, acts, c))
            && (c in s.server <==> !HungUp(s0, acts, c) && !ReportedOut(s0, acts, c))
            && (c in s.subs <==> !SweptOut(s0, acts, c))
  {
    if acts != [] {
      var n := |acts| - 1;
      MapsAre(s0, acts[..n], c);
      if Enabled(Exec(s0, acts[..n]), acts[n]) {
        MapsStep(Exec(s0, acts[..n]), acts[n], c);
      }
    }
  }
}
