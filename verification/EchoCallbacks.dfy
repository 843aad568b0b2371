/** The callbacks of client channels in the composed service: what the batch of a loop holds, what is
    left in an input buffer, and which read callbacks never return. */
module EchoCallbacks {
  import opened Framing
  import opened EndToEnd
  import opened EchoPlaces
  import P = ThreadPools
  import L = LoopHandoff

  // ---------------------------------------------------------------- invariants

  /** The channels a loop has still to handle. */
  function Rest(l: L.Place): seq<L.Source> { if l.Batch? || l.Locking? || l.Draining? then l.rest else [] }

  predicate AtHead(s: State, i: nat, e: L.Source)
  {
    i < |s.loops| && s.loops[i].loop.Batch? && s.loops[i].loop.rest != [] && s.loops[i].loop.rest[0] == e
  }

  /** A client in loop i's batch is one of its own and open, unless its callback has just hung up. */
  ghost predicate ListedAt(s: State, i: nat, k: nat)
    requires Sized(s) && i < |s.loops| && k < |Rest(s.loops[i].loop)|
  {
    var e := Rest(s.loops[i].loop)[k];
    OfClient(e) ==>
      && e.conn < |s.conns| && Home(s, e.conn) == i
      && (e.conn in s.closed ==> k == 0 && s.phase[i] == Over)
  }

  ghost predicate BatchOk(s: State, i: nat)
    requires Sized(s) && i < |s.loops|
  {
    OneEach(Rest(s.loops[i].loop)) && forall k :: 0 <= k < |Rest(s.loops[i].loop)| ==> ListedAt(s, i, k)
  }

  /** A callback is begun only for the client at the head of the batch, and `onmessage` only if it can
      be read. */
  ghost predicate PhaseOk(s: State, i: nat)
    requires Sized(s) && i < |s.loops|
  {
    s.phase[i] != Before ==>
      && s.loops[i].loop.Batch? && s.loops[i].loop.rest != [] && OfClient(s.loops[i].loop.rest[0])
      && (s.phase[i] != Over ==> s.loops[i].loop.rest[0].Readable?)
  }

  /** Connection c's loop is inside `onmessage` of c. */
  ghost predicate InMessage(s: State, c: nat)
    requires Sized(s)
  {
    var h := Home(s, c);
    AtHead(s, h, L.Readable(c)) && (s.phase[h] == Reading || s.phase[h] == Extracting)
  }

  /** Between its callbacks an open connection has no complete message buffered. */
  ghost predicate InputOk(s: State, c: nat)
    requires Sized(s) && c < |s.conns|
  {
    c !in s.closed ==> Pick(s.conns[c].input) == Incomplete || InMessage(s, c)
  }

  /** A loop's thread inside addtask is extracting. */
  ghost predicate Adding(s: State, i: nat)
    requires Sized(s) && i < |s.loops|
  {
    s.pool.producers[i] != P.Idle ==> s.phase[i] == Extracting
  }

  ghost predicate LoopOk(s: State, i: nat)
    requires Sized(s) && i < |s.loops|
  {
    BatchOk(s, i) && PhaseOk(s, i) && Adding(s, i)
  }

  ghost predicate CallbackInv(s: State)
  {
    && PlacesInv(s)
    && (forall i :: 0 <= i < |s.loops| ==> LoopOk(s, i))
    && (forall c :: 0 <= c < |s.conns| ==> InputOk(s, c))
  }

  // ---------------------------------------------------------------- loop steps

  lemma RestStep(l: L.State, la: L.Action)
    requires L.Enabled(l, la)
    ensures var q := L.Next(l, la).loop;
            || Rest(q) == Rest(l.loop)
            || (la.Return? && Rest(q) == la.batch)
            || ((la.HandleOther? || la.ReadWake?) && l.loop.Batch? && l.loop.rest != [] && Rest(q) == Rest(l.loop)[1..])
  {
  }

  lemma PlaceStays(l: L.State, la: L.Action)
    requires L.Enabled(l, la) && !L.OfLoop(la)
    ensures L.Next(l, la).loop == l.loop
  {
  }

  lemma OneEachTail(r: seq<L.Source>)
    requires r != [] && OneEach(r)
    ensures OneEach(r[1..])
  {
  }

  lemma BatchReturn(s: State, t: State, i: nat, la: L.Action)
    requires Sized(s) && Sized(t) && i < |s.loops| && |t.loops| == |s.loops| && la.Return? && Reports(s, i, la.batch)
    requires Rest(t.loops[i].loop) == la.batch && |t.conns| == |s.conns| && t.closed == s.closed
    ensures BatchOk(t, i)
  {
    forall k | 0 <= k < |Rest(t.loops[i].loop)|
      ensures ListedAt(t, i, k)
    {
    }
  }

  lemma BatchTail(s: State, t: State, i: nat)
    requires Sized(s) && Sized(t) && i < |s.loops| && |t.loops| == |s.loops| && BatchOk(s, i)
    requires Rest(s.loops[i].loop) != [] && Rest(t.loops[i].loop) == Rest(s.loops[i].loop)[1..]
    requires |t.conns| == |s.conns| && t.closed == s.closed
    ensures BatchOk(t, i)
  {
    OneEachTail(Rest(s.loops[i].loop));
    forall k | 0 <= k < |Rest(t.loops[i].loop)|
      ensures ListedAt(t, i, k)
    {
      assert ListedAt(s, i, k + 1);
    }
  }

  lemma BatchSame(s: State, t: State, i: nat)
    requires Sized(s) && Sized(t) && i < |s.loops| && |t.loops| == |s.loops| && BatchOk(s, i)
    requires Rest(t.loops[i].loop) == Rest(s.loops[i].loop) && |t.conns| == |s.conns| && t.closed == s.closed
    requires s.phase[i] == Over ==> t.phase[i] == Over
    ensures BatchOk(t, i)
  {
    forall k | 0 <= k < |Rest(t.loops[i].loop)|
      ensures ListedAt(t, i, k)
    {
      assert ListedAt(s, i, k);
    }
  }

  lemma LoopFrameConns(s: State, i: nat, la: L.Action)
    requires Enabled(s, Loop(i, la))
    ensures var t := NextLoop(s, i, la);
            && |t.conns| == |s.conns| && t.closed == s.closed && t.subs == s.subs && t.server == s.server
            && forall c :: 0 <= c < |s.conns| ==> t.conns[c].input == s.conns[c].input
  {
  }

  lemma LoopOkLoop(s: State, t: State, i: nat, la: L.Action, j: nat)
    requires Sized(s) && Sized(t) && j < |s.loops| && LoopOk(s, j) && i < |s.loops|
    requires LoopEnabled(s, i, la)
    requires t.loops == s.loops[i := L.Next(s.loops[i], la)] && t.pool == s.pool
    requires t.phase == (if la.HandleOther? then s.phase[i := Before] else s.phase)
    requires |t.conns| == |s.conns| && t.closed == s.closed
    ensures LoopOk(t, j)
  {
    if i != j {
      BatchSame(s, t, j);
    } else {
      RestStep(s.loops[i], la);
      if !L.OfLoop(la) { PlaceStays(s.loops[i], la); }
      if la.Return? {
        BatchReturn(s, t, i, la);
      } else if la.HandleOther? || la.ReadWake? {
        BatchTail(s, t, i);
      } else {
        BatchSame(s, t, i);
      }
    }
  }

  lemma InputLoop(s: State, t: State, i: nat, la: L.Action, c: nat)
    requires Sized(s) && Sized(t) && c < |s.conns| && InputOk(s, c) && PhaseOk(s, Home(s, c)) && LoopEnabled(s, i, la)
    requires t.loops == s.loops[i := L.Next(s.loops[i], la)] && t.pool == s.pool
    requires t.phase == (if la.HandleOther? then s.phase[i := Before] else s.phase)
    requires |t.conns| == |s.conns| && t.closed == s.closed && t.conns[c].input == s.conns[c].input
    ensures InputOk(t, c)
  {
    if InMessage(s, c) && i == Home(s, c) && !L.OfLoop(la) {
      PlaceStays(s.loops[i], la);
    }
  }

  // ---------------------------------------------------------------- callback steps

  lemma LoopOkSame(s: State, t: State, i: nat)
    requires Sized(s) && Sized(t) && i < |s.loops| && LoopOk(s, i) && |t.loops| == |s.loops|
    requires t.loops[i].loop == s.loops[i].loop && |t.conns| == |s.conns| && t.closed == s.closed
    requires t.phase[i] == s.phase[i]
    requires s.pool.producers[i] == P.Idle ==> t.pool.producers[i] == P.Idle
    ensures LoopOk(t, i)
  {
    BatchSame(s, t, i);
  }

  lemma InputSame(s: State, t: State, c: nat)
    requires Sized(s) && Sized(t) && c < |s.conns| && InputOk(s, c) && |t.loops| == |s.loops| && |t.conns| == |s.conns|
    requires t.loops[Home(s, c)].loop == s.loops[Home(s, c)].loop && t.phase[Home(s, c)] == s.phase[Home(s, c)]
    requires t.closed == s.closed && t.conns[c].input == s.conns[c].input
    ensures InputOk(t, c)
  {
  }

  /** A hang-up closes no other client of any batch. */
  lemma BatchClose(s: State, c: nat, i: nat)
    requires Enabled(s, Back(Close(c))) && i < |s.loops| && BatchOk(s, i)
    ensures var t := NextStep(s, Close(c)); Sized(t) && BatchOk(t, i)
  {
    SizedKeeps(s, Back(Close(c)));
    var t := NextStep(s, Close(c));
    var r := Rest(s.loops[i].loop);
    forall k | 0 <= k < |r|
      ensures ListedAt(t, i, k)
    {
      assert ListedAt(s, i, k);
      if i == Home(s, c) && k > 0 && OfClient(r[k]) {
        assert ListedAt(s, i, 0) && r[0].conn == c && r[k].conn != c;
      }
    }
  }

  lemma LoopOkBack(s: State, b: Step, i: nat)
    requires Enabled(s, Back(b)) && i < |s.loops| && LoopOk(s, i)
    ensures var t := NextStep(s, b); Sized(t) && |t.loops| == |s.loops| && LoopOk(t, i)
  {
    SizedKeeps(s, Back(b));
    BackFrame(s, b);
    var t := NextStep(s, b);
    match b
    case Close(c) => BatchClose(s, c, i);
    case Read(c, _) => BatchSame(s, t, i);
    case Again(c) => BatchSame(s, t, i);
    case Leave(c) => BatchSame(s, t, i);
    case Write(c, _) => BatchSame(s, t, i);
    case Sweep(_, _) => LoopOkSame(s, t, i);
    case Dangle(_) => LoopOkSame(s, t, i);
  }

  lemma OneHead(s: State, h: nat, c: nat, d: nat)
    requires AtHead(s, h, L.Readable(c)) && AtHead(s, h, L.Readable(d))
    ensures c == d
  {
  }

  lemma InputBack(s: State, b: Step, c: nat)
    requires Enabled(s, Back(b)) && c < |s.conns| && InputOk(s, c)
    ensures var t := NextStep(s, b); Sized(t) && |t.conns| == |s.conns| && InputOk(t, c)
  {
    SizedKeeps(s, Back(b));
    BackFrame(s, b);
    if b.Sweep? || b.Dangle? {
      InputSame(s, NextStep(s, b), c);
    }
  }

  lemma InputDeliver(s: State, d: nat, c: nat)
    requires Enabled(s, Deliver(d)) && c < |s.conns| && InputOk(s, c)
    ensures var t := Next(s, Deliver(d)); Sized(t) && |t.conns| == |s.conns| && InputOk(t, c)
  {
    SizedKeeps(s, Deliver(d));
    if c != d {
      InputSame(s, Next(s, Deliver(d)), c);
    }
  }

  lemma LoopOkDeliver(s: State, d: nat, i: nat)
    requires Enabled(s, Deliver(d)) && i < |s.loops| && LoopOk(s, i)
    ensures var t := Next(s, Deliver(d)); Sized(t) && |t.loops| == |s.loops| && LoopOk(t, i)
  {
    SizedKeeps(s, Deliver(d));
    BatchSame(s, Next(s, Deliver(d)), i);
  }

  lemma IdleStays(p: P.State, pa: P.Action, i: nat)
    requires P.Enabled(p, pa) && !pa.Offer? && i < |p.producers|
    ensures p.producers[i] == P.Idle ==> P.Next(p, pa).producers[i] == P.Idle
  {
  }

  /** What a step of the pool or of a worker leaves alone. */
  lemma WorkFrame(s: State, a: Action)
    requires Enabled(s, a) && (a.Pool? || a.Return? || a.CheckOpen?)
    ensures var t := Next(s, a);
            && |t.loops| == |s.loops| && t.phase == s.phase && t.conns == s.conns && t.closed == s.closed
            && t.subs == s.subs && t.server == s.server && t.fate == s.fate
            && (forall i :: 0 <= i < |s.loops| ==> t.loops[i].loop == s.loops[i].loop)
            && (forall i :: 0 <= i < |s.loops| && s.pool.producers[i] == P.Idle ==> t.pool.producers[i] == P.Idle)
  {
    forall i | 0 <= i < |s.loops| && s.pool.producers[i] == P.Idle
      ensures Next(s, a).pool.producers[i] == P.Idle
    {
      match a
      case Pool(pa) => IdleStays(s.pool, pa, i);
      case Return(w) => IdleStays(s.pool, P.Finish(w), i);
      case CheckOpen(_) =>
    }
  }

  lemma LoopOkKeeps(s: State, a: Action, i: nat)
    requires Enabled(s, a) && i < |s.loops| && LoopOk(s, i)
    ensures Sized(Next(s, a)) && |Next(s, a).loops| == |s.loops| && LoopOk(Next(s, a), i)
  {
    SizedKeeps(s, a);
    match a
    case Back(b) => LoopOkBack(s, b, i);
    case Deliver(d) => LoopOkDeliver(s, d, i);
    case Loop(j, la) =>
      LoopFrame(s, j, la);
      LoopFrameConns(s, j, la);
      LoopOkLoop(s, Next(s, a), j, la, i);
    case _ =>
      WorkFrame(s, a);
      LoopOkSame(s, Next(s, a), i);
  }

  lemma InputKeeps(s: State, a: Action, c: nat)
    requires Enabled(s, a) && c < |s.conns| && InputOk(s, c) && PhaseOk(s, Home(s, c))
    ensures Sized(Next(s, a)) && |Next(s, a).conns| == |s.conns| && InputOk(Next(s, a), c)
  {
    SizedKeeps(s, a);
    match a
    case Back(b) => InputBack(s, b, c);
    case Deliver(d) => InputDeliver(s, d, c);
    case Loop(j, la) =>
      LoopFrame(s, j, la);
      LoopFrameConns(s, j, la);
      InputLoop(s, Next(s, a), j, la, c);
    case _ =>
      WorkFrame(s, a);
      InputSame(s, Next(s, a), c);
  }

  lemma CallbackKeeps(s: State, a: Action)
    requires CallbackInv(s) && Enabled(s, a)
    ensures CallbackInv(Next(s, a))
  {
    var t := Next(s, a);
    PlacesKeep(s, a);
    SameLoops(s, a);
    forall i | 0 <= i < |t.loops|
      ensures LoopOk(t, i)
    {
      LoopOkKeeps(s, a, i);
    }
    forall c | 0 <= c < |t.conns|
      ensures InputOk(t, c)
    {
      assert LoopOk(s, Home(s, c));
      InputKeeps(s, a, c);
    }
  }

  lemma SameLoops(s: State, a: Action)
    requires Enabled(s, a)
    ensures |Next(s, a).loops| == |s.loops|
  {
    if a.Back? { BackFrame(s, a.step); }
  }

  lemma CallbackInit(s: State)
    requires Init(s)
    ensures CallbackInv(s)
  {
    PlacesInit(s);
    forall c | 0 <= c < |s.conns|
      ensures InputOk(s, c)
    {
      assert s.conns[c] == Conn([], [], [], [], [], []);
    }
  }

  lemma {:induction false} CallbackAlways(s: State, acts: seq<Action>)
    requires CallbackInv(s)
    ensures CallbackInv(Exec(s, acts))
  {
    if acts != [] {
      CallbackAlways(s, acts[..|acts| - 1]);
      var t := Exec(s, acts[..|acts| - 1]);
      if Enabled(t, acts[|acts| - 1]) {
        CallbackKeeps(t, acts[|acts| - 1]);
      }
    }
  }

  // ---------------------------------------------------------------- callbacks that never return

  /** Loop i extracts from connection c, whose buffer the extraction loop does not finish with. */
  ghost predicate Stuck(s: State, i: nat, c: nat)
  {
    && Sized(s) && c < |s.conns| && Home(s, c) == i && AtHead(s, i, L.Readable(c)) && s.phase[i] == Extracting
    && Drain(s.conns[c].input).verdict != Waiting
  }

  lemma StuckBack(s: State, b: Step, i: nat, c: nat)
    requires Enabled(s, Back(b)) && Stuck(s, i, c)
    ensures var t := NextStep(s, b); Stuck(t, i, c) && t.loops[i] == s.loops[i]
  {
    SizedKeeps(s, Back(b));
    BackFrame(s, b);
    DrainEnds(s.conns[c].input);
  }

  lemma StuckLoop(s: State, j: nat, la: L.Action, i: nat, c: nat)
    requires Enabled(s, Loop(j, la)) && Stuck(s, i, c)
    ensures var t := NextLoop(s, j, la);
            && Stuck(t, i, c) && t.loops[i].executed == s.loops[i].executed && s.loops[i].queue <= t.loops[i].queue
  {
    SizedKeeps(s, Loop(j, la));
    LoopFrame(s, j, la);
    LoopFrameConns(s, j, la);
    StuckPlace(s.loops[i], la);
  }

  lemma StuckPlace(l: L.State, la: L.Action)
    requires l.loop.Batch? && l.loop.rest != [] && l.loop.rest[0].Readable?
    ensures L.Enabled(l, la) && !la.HandleOther? ==>
              var m := L.Next(l, la); m.loop == l.loop && m.executed == l.executed && l.queue <= m.queue
  {
  }

  lemma StuckStep(s: State, a: Action, i: nat, c: nat)
    requires Enabled(s, a) && Stuck(s, i, c)
    ensures var t := Next(s, a);
            && Stuck(t, i, c) && t.loops[i].executed == s.loops[i].executed && s.loops[i].queue <= t.loops[i].queue
  {
    SizedKeeps(s, a);
    match a
    case Back(b) => StuckBack(s, b, i, c);
    case Deliver(d) => if c == d { DrainStep(s.conns[c].input); }
    case Loop(j, la) => StuckLoop(s, j, la, i, c);
    case _ => WorkFrame(s, a);
  }

  /** A loop that extracts from a buffer whose next header is -4 (or above 2^31-5) never leaves the
      callback, whatever else happens, and never runs another queued task. */
  lemma {:induction false} StuckForever(s: State, acts: seq<Action>, i: nat, c: nat)
    requires Stuck(s, i, c)
    ensures var t := Exec(s, acts);
            && Stuck(t, i, c) && t.loops[i].executed == s.loops[i].executed && s.loops[i].queue <= t.loops[i].queue
  {
    if acts != [] {
      StuckForever(s, acts[..|acts| - 1], i, c);
      var t := Exec(s, acts[..|acts| - 1]);
      if Enabled(t, acts[|acts| - 1]) {
        StuckStep(t, acts[|acts| - 1], i, c);
      }
    }
  }

  lemma {:induction false} QueuedHere(ls: seq<L.State>, i: nat, k: nat)
    requires i < |ls| && k < |ls[i].queue|
    ensures QueuedOn(ls, ls[i].queue[k]) >= 1
  {
    if i == 0 {
      CountMember(ls[0].queue, k);
    } else {
      QueuedHere(ls[1..], i - 1, k);
    }
  }

  /** So a reply queued on it is never appended, and never dropped either. */
  lemma {:induction false} StuckReplies(s0: State, acts: seq<Action>, more: seq<Action>, i: nat, c: nat, k: nat)
    requires Init(s0) && Stuck(Exec(s0, acts), i, c) && k < |Exec(s0, acts).loops[i].queue|
    ensures var u, t := Exec(Exec(s0, acts), more), Exec(s0, acts).loops[i].queue[k];
            AppendedTo(u.conns, t) == 0 && Count(u.dropped, t) == 0
  {
    var s := Exec(s0, acts);
    StuckForever(s, more, i, c);
    PlacesInit(s0);
    PlacesAlways(s0, acts);
    PlacesAlways(s, more);
    var u := Exec(s, more);
    assert u.loops[i].queue[k] == s.loops[i].queue[k];
    QueuedHere(u.loops, i, k);
    FoundOnce(u, s.loops[i].queue[k]);
  }
}
