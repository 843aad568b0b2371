/** Runs of the echo service that go wrong: two workers answer a connection's requests in the wrong
    order; a reply that was queued before its connection hung up exits the process; the reply to a
    request with an early NUL is read past its copy; a queued reply outlives its connection; a header
    of -4 keeps a loop in its callback for ever. */
module EchoRuns {
  import opened Options
  import opened Framing
  import opened EndToEnd
  import opened EchoPlaces
  import opened EchoCallbacks
  import P = ThreadPools
  import L = LoopHandoff

  /** One loop, two workers, some connections, and the process is running. */
  ghost predicate Small(s: State)
  {
    && Sized(s) && |s.loops| == 1 && |s.pool.workers| == 2 && |s.conns| >= 1 && s.fate == Going
    && !s.pool.stop && !s.loops[0].stop
  }

  /** The loop is extracting from connection 0, which is open and listed. */
  ghost predicate InZero(s: State)
    requires Small(s)
  {
    && s.loops[0].loop == L.Batch([L.Readable(0)]) && s.phase == [Extracting] && s.closed == {}
    && 0 in s.server && 0 in s.subs && s.pool.producers == [P.Idle]
  }

  lemma Step(s0: State, acts: seq<Action>, a: Action) returns (longer: seq<Action>)
    requires Enabled(Exec(s0, acts), a)
    ensures Exec(s0, longer) == Next(Exec(s0, acts), a)
  {
    longer := acts + [a];
    assert longer[..|acts|] == acts;
  }

  lemma PoolStep(s0: State, acts: seq<Action>, pa: P.Action) returns (longer: seq<Action>)
    requires Enabled(Exec(s0, acts), Pool(pa)) && !pa.Take?
    ensures Exec(s0, longer) == Exec(s0, acts).(pool := P.Next(Exec(s0, acts).pool, pa))
  {
    longer := Step(s0, acts, Pool(pa));
  }

  lemma LoopStep(s0: State, acts: seq<Action>, la: L.Action) returns (longer: seq<Action>)
    requires Small(Exec(s0, acts)) && Exec(s0, acts).pool.producers == [P.Idle]
    requires L.Enabled(Exec(s0, acts).loops[0], la) && !la.Offer? && !la.Push? && !la.RunTask? && !la.SetStop?
    requires !la.Return? && !la.HandleOther?
    ensures Exec(s0, longer) == Exec(s0, acts).(loops := [L.Next(Exec(s0, acts).loops[0], la)])
    ensures Small(Exec(s0, longer))
  {
    longer := Step(s0, acts, Loop(0, la));
    assert Exec(s0, longer).loops == [L.Next(Exec(s0, acts).loops[0], la)];
  }

  lemma HomeIsZero(s: State, c: nat)
    requires |s.loops| == 1
    ensures Home(s, c) == 0
  {
    assert c % 1 == 0;
  }

  /** The loop returns from epoll_wait with a client channel, reads some bytes and comes to EAGAIN. */
  lemma ReadBytes(s0: State, bytes: Bytes) returns (acts: seq<Action>)
    requires Init(s0) && Small(s0)
    ensures var s := Exec(s0, acts);
            && s == s0.(loops := [s0.loops[0].(loop := L.Batch([L.Readable(0)]))], phase := [Extracting],
                        conns := s0.conns[0 := s0.conns[0].(received := bytes, input := bytes)])
            && Small(s) && InZero(s)
  {
    acts := Polled(s0);
    HomeIsZero(Exec(s0, acts), 0);
    acts := Step(s0, acts, Back(Read(0, bytes)));
    assert [] + bytes == bytes;
    HomeIsZero(Exec(s0, acts), 0);
    acts := Step(s0, acts, Back(Again(0)));
    assert Exec(s0, acts).phase == [Extracting];
    assert s0.pool.producers == [P.Idle];
  }

  lemma Polled(s0: State) returns (acts: seq<Action>)
    requires Init(s0) && Small(s0)
    ensures Exec(s0, acts) == s0.(loops := [s0.loops[0].(loop := L.Batch([L.Readable(0)]))])
  {
    acts := Step(s0, [], Loop(0, L.CheckStop));
    HomeIsZero(Exec(s0, acts), 0);
    acts := Step(s0, acts, Loop(0, L.Return([L.Readable(0)])));
    assert Exec(s0, acts).loops == [s0.loops[0].(loop := L.Batch([L.Readable(0)]))];
  }

  lemma DeliverOne(s0: State, before: seq<Action>, body: Bytes, rest: Bytes) returns (acts: seq<Action>)
    requires var s := Exec(s0, before);
             Small(s) && InZero(s) && Pick(s.conns[0].input) == Message(body, rest)
    ensures var s, t := Exec(s0, before), Exec(s0, acts);
            && t == s.(conns := s.conns[0 := s.conns[0].(input := rest, mine := s.conns[0].mine + [|s.jobs|])],
                       jobs := s.jobs + [Job(0, body)], pool := s.pool.(producers := [P.Offering(|s.jobs|)]))
  {
    var s := Exec(s0, before);
    HomeIsZero(s, 0);
    acts := Step(s0, before, Deliver(0));
    assert Exec(s0, acts).pool.producers == [P.Offering(|s.jobs|)];
  }

  lemma PushOne(s0: State, before: seq<Action>, k: nat) returns (acts: seq<Action>)
    requires var s := Exec(s0, before);
             Small(s) && s.pool.producers == [P.Offering(k)] && s.pool.mutex == P.Free && s.pool.workers == [P.Top, P.Top]
    ensures var s, t := Exec(s0, before), Exec(s0, acts);
            t == s.(pool := s.pool.(producers := [P.Idle], queue := s.pool.queue + [k], added := s.pool.added + [k]))
  {
    PoolPush(Exec(s0, before).pool, k);
    acts := PoolStep(s0, before, P.LockToPush(0));
    acts := PoolStep(s0, acts, P.Push(0));
    acts := PoolStep(s0, acts, P.Notify(0, 0));
  }

  lemma PoolPush(p: P.State, k: nat)
    requires p.producers == [P.Offering(k)] && p.mutex == P.Free && p.workers == [P.Top, P.Top]
    ensures P.Enabled(p, P.LockToPush(0))
    ensures var q := P.Next(p, P.LockToPush(0));
            && P.Enabled(q, P.Push(0))
            && var r := P.Next(q, P.Push(0));
               && P.Enabled(r, P.Notify(0, 0))
               && P.Next(r, P.Notify(0, 0)) == p.(producers := [P.Idle], queue := p.queue + [k], added := p.added + [k])
  {
    var q := P.Next(p, P.LockToPush(0));
    assert q == p.(producers := [P.Pushing(k)], mutex := P.ByProducer(0));
    var r := P.Next(q, P.Push(0));
    assert r == p.(producers := [P.OwesNotify], queue := p.queue + [k], added := p.added + [k]);
    assert r.producers[0 := P.Idle] == [P.Idle];
  }

  /** The head of the input is a request: it is delivered and added to the pool. */
  lemma AddOne(s0: State, before: seq<Action>, body: Bytes, rest: Bytes) returns (acts: seq<Action>)
    requires var s := Exec(s0, before);
             && Small(s) && InZero(s) && Pick(s.conns[0].input) == Message(body, rest) && s.pool.mutex == P.Free
             && s.pool.workers == [P.Top, P.Top]
    ensures var s, t := Exec(s0, before), Exec(s0, acts);
            t == s.(conns := s.conns[0 := s.conns[0].(input := rest, mine := s.conns[0].mine + [|s.jobs|])],
                    jobs := s.jobs + [Job(0, body)],
                    pool := s.pool.(producers := [P.Idle], queue := s.pool.queue + [|s.jobs|], added := s.pool.added + [|s.jobs|]))
  {
    acts := DeliverOne(s0, before, body, rest);
    acts := PushOne(s0, acts, |Exec(s0, before).jobs|);
  }

  /** The jobs have been delivered from connection 0 and wait in the pool; nothing else is under way. */
  ghost predicate Requested(s: State, jobs: seq<Job>)
    requires Small(s)
  {
    && s.jobs == jobs && InZero(s) && s.conns[0].done == []
    && s.pool.workers == [P.Top, P.Top] && s.pool.mutex == P.Free
    && s.pool.taken == [] && s.pool.queue == seq(|jobs|, i => i) && s.conns[0].mine == seq(|jobs|, i => i)
    && s.loops[0].producers == [L.Idle, L.Idle] && s.loops[0].mutex == L.Free && s.loops[0].counter == 0
    && s.loops[0].queue == []
  }

  /** A first request is read, delivered and added to the pool. */
  lemma ReadOne(s0: State, bytes: Bytes, body: Bytes, rest: Bytes) returns (acts: seq<Action>)
    requires Init(s0) && Small(s0) && Pick(bytes) == Message(body, rest)
    ensures var t := Exec(s0, acts);
            && Small(t) && Requested(t, [Job(0, body)]) && t.conns[0].input == rest
            && |t.conns| == |s0.conns| && t.subs == s0.subs && t.server == s0.server
  {
    acts := ReadBytes(s0, bytes);
    assert s0.pool.workers == [P.Top, P.Top];
    assert s0.loops[0].producers == [L.Idle, L.Idle];
    acts := AddOne(s0, acts, body, rest);
    assert [] + [Job(0, body)] == [Job(0, body)];
  }

  lemma Approach(s0: State, before: seq<Action>, w: nat) returns (acts: seq<Action>)
    requires var s := Exec(s0, before);
             && Small(s) && w < 2 && s.pool.workers[w] == P.Top && s.pool.mutex == P.Free && s.pool.queue != []
    ensures var s, t := Exec(s0, before), Exec(s0, acts);
            t == s.(pool := s.pool.(workers := s.pool.workers[w := P.Deciding], mutex := P.ByWorker(w)))
  {
    var p := Exec(s0, before).pool;
    acts := PoolStep(s0, before, P.Enter(w));
    assert Exec(s0, acts).pool == p.(workers := p.workers[w := P.WantLock]);
    acts := PoolStep(s0, acts, P.Lock(w));
    assert Exec(s0, acts).pool == p.(workers := p.workers[w := P.Testing], mutex := P.ByWorker(w));
    acts := PoolStep(s0, acts, P.Test(w));
    assert Exec(s0, acts).pool == p.(workers := p.workers[w := P.Deciding], mutex := P.ByWorker(w));
  }

  /** Worker w, at the top of its loop, dequeues the first task. */
  lemma TakeOne(s0: State, before: seq<Action>, w: nat) returns (acts: seq<Action>)
    requires var s := Exec(s0, before);
             && Small(s) && w < 2 && s.pool.workers[w] == P.Top && s.pool.mutex == P.Free && s.pool.queue != []
    ensures var s, t := Exec(s0, before), Exec(s0, acts); var p := s.pool;
            t == s.(pool := p.(workers := p.workers[w := P.Running(|p.taken|)],
                               queue := p.queue[1..], taken := p.taken + [p.queue[0]]),
                    hand := s.hand[w := Some(p.queue[0])], stage := s.stage[w := Fresh])
  {
    var s := Exec(s0, before);
    acts := Approach(s0, before, w);
    acts := Step(s0, acts, Pool(P.Take(w)));
    var t := Exec(s0, acts);
    assert t.pool.workers == s.pool.workers[w := P.Running(|s.pool.taken|)];
  }

  lemma OfferOne(s0: State, before: seq<Action>, w: nat, k: nat) returns (acts: seq<Action>)
    requires var s := Exec(s0, before);
             && Small(s) && s.closed == {} && w < 2 && RunsJob(s, w) && JobOf(s, w) == k && s.stage[w] == Fresh && s.loops[0].producers[w] == L.Idle
    ensures var s, t := Exec(s0, before), Exec(s0, acts);
            t == s.(loops := [s.loops[0].(producers := s.loops[0].producers[w := L.Offering(k)])], stage := s.stage[w := Sending])
  {
    var s := Exec(s0, before);
    HomeIsZero(s, ConnOf(s.jobs, k));
    acts := Step(s0, before, CheckOpen(w));
    var t := Exec(s0, acts);
    assert t.loops == [t.loops[0]];
  }

  lemma PushStep(s0: State, before: seq<Action>, w: nat, k: nat) returns (acts: seq<Action>)
    requires var s := Exec(s0, before);
             && Small(s) && w < 2 && s.pool.producers == [P.Idle]
             && s.loops[0].producers[w] == L.Offering(k) && s.loops[0].mutex == L.Free
    ensures var s, t := Exec(s0, before), Exec(s0, acts); var l := s.loops[0];
            && Small(t)
            && t == s.(loops := [l.(producers := l.producers[w := L.OwesWake], queue := l.queue + [k], pushed := l.pushed + [k])],
                       hand := s.hand[w := None])
  {
    LoopPush(Exec(s0, before).loops[0], w, k);
    acts := LoopStep(s0, before, L.LockToPush(w));
    acts := Step(s0, acts, Loop(0, L.Push(w)));
    assert Exec(s0, acts).loops == [Exec(s0, acts).loops[0]];
  }

  lemma LoopPush(l: L.State, w: nat, k: nat)
    requires w < |l.producers| && l.producers[w] == L.Offering(k) && l.mutex == L.Free
    ensures L.Enabled(l, L.LockToPush(w))
    ensures var m := L.Next(l, L.LockToPush(w));
            && L.Enabled(m, L.Push(w))
            && L.Next(m, L.Push(w)) == l.(producers := l.producers[w := L.OwesWake], queue := l.queue + [k], pushed := l.pushed + [k])
  {
    var m := L.Next(l, L.LockToPush(w));
    assert m.producers[w := L.OwesWake] == l.producers[w := L.OwesWake];
  }

  lemma WakeStep(s0: State, before: seq<Action>, w: nat) returns (acts: seq<Action>)
    requires var s := Exec(s0, before);
             Small(s) && w < 2 && s.pool.producers == [P.Idle] && s.loops[0].producers[w] == L.OwesWake && s.loops[0].counter < 9
    ensures var s, t := Exec(s0, before), Exec(s0, acts); var l := s.loops[0];
            t == s.(loops := [l.(producers := l.producers[w := L.Idle], counter := l.counter + 1)])
  {
    acts := LoopStep(s0, before, L.WriteWake(w));
  }

  lemma QueueOne(s0: State, before: seq<Action>, w: nat, k: nat) returns (acts: seq<Action>)
    requires var s := Exec(s0, before);
             && Small(s) && w < 2 && s.pool.producers == [P.Idle]
             && s.loops[0].producers[w] == L.Offering(k) && s.loops[0].mutex == L.Free && s.loops[0].counter < 9
    ensures var s, t := Exec(s0, before), Exec(s0, acts); var l := s.loops[0];
            t == s.(loops := [l.(producers := l.producers[w := L.Idle], queue := l.queue + [k], pushed := l.pushed + [k],
                                 counter := l.counter + 1)],
                    hand := s.hand[w := None])
  {
    var l := Exec(s0, before).loops[0];
    acts := PushStep(s0, before, w, k);
    acts := WakeStep(s0, acts, w);
    assert l.producers[w := L.OwesWake][w := L.Idle] == l.producers[w := L.Idle];
  }

  /** Worker w hands its reply to the loop. */
  lemma SendOne(s0: State, before: seq<Action>, w: nat, k: nat) returns (acts: seq<Action>)
    requires var s := Exec(s0, before);
             && Small(s) && s.closed == {} && w < 2 && RunsJob(s, w) && JobOf(s, w) == k && s.stage[w] == Fresh && s.pool.producers == [P.Idle]
             && s.loops[0].producers[w] == L.Idle && s.loops[0].mutex == L.Free && s.loops[0].counter < 9
    ensures var s, t := Exec(s0, before), Exec(s0, acts); var l := s.loops[0];
            t == s.(loops := [l.(queue := l.queue + [k], pushed := l.pushed + [k], counter := l.counter + 1)],
                    hand := s.hand[w := None], stage := s.stage[w := Sending])
  {
    var l := Exec(s0, before).loops[0];
    acts := OfferOne(s0, before, w, k);
    acts := QueueOne(s0, acts, w, k);
    assert l.producers[w := L.Offering(k)][w := L.Idle] == l.producers;
  }

  /** `onmessage` finds no further message and returns. */
  lemma LeaveZero(s0: State, before: seq<Action>) returns (acts: seq<Action>)
    requires var s := Exec(s0, before); Small(s) && InZero(s) && Pick(s.conns[0].input) == Incomplete
    ensures var s, t := Exec(s0, before), Exec(s0, acts); var l := s.loops[0];
            Small(t) && t == s.(loops := [l.(loop := L.Batch([]))], phase := [Before])
  {
    var l := Exec(s0, before).loops[0];
    HomeIsZero(Exec(s0, before), 0);
    acts := Step(s0, before, Back(Leave(0)));
    assert Exec(s0, acts).phase == [Over];
    assert [L.Readable(0)][1..] == [];
    acts := Step(s0, acts, Loop(0, L.HandleOther));
    assert Exec(s0, acts).loops == [l.(loop := L.Batch([]))];
    assert Exec(s0, acts).phase == [Before];
  }

  /** The loop goes round and epoll_wait returns again, possibly with an error on connection 0. */
  lemma GoRound(s0: State, before: seq<Action>, batch: seq<L.Source>) returns (acts: seq<Action>)
    requires var s := Exec(s0, before);
             && Small(s) && s.loops[0].loop == L.Batch([]) && s.pool.producers == [P.Idle] && s.phase == [Before]
             && s.closed == {} && 0 in s.server
             && L.Reportable(s.loops[0], batch) && OneEach(batch)
             && (forall k :: 0 <= k < |batch| && OfClient(batch[k]) ==> batch[k] == L.Broken(0))
    ensures var s, t := Exec(s0, before), Exec(s0, acts); var l := s.loops[0];
            Small(t) && t == s.(loops := [l.(loop := L.Batch(batch), batches := 0)])
  {
    var l := Exec(s0, before).loops[0];
    acts := LoopStep(s0, before, L.EndBatch);
    acts := LoopStep(s0, acts, L.CheckStop);
    assert Exec(s0, acts).loops[0] == l.(loop := L.Waiting);
    HomeIsZero(Exec(s0, acts), 0);
    acts := Step(s0, acts, Loop(0, L.Return(batch)));
    assert Exec(s0, acts).loops == [l.(loop := L.Batch(batch), batches := 0)];
  }

  /** The wake-up channel is next: the eventfd is read and the queue's mutex taken. */
  lemma StartDrain(s0: State, before: seq<Action>) returns (acts: seq<Action>)
    requires var s := Exec(s0, before);
             && Small(s) && s.loops[0].loop == L.Batch([L.Wake]) && s.loops[0].mutex == L.Free && s.pool.producers == [P.Idle]
    ensures var s, t := Exec(s0, before), Exec(s0, acts); var l := s.loops[0];
            Small(t) && t == s.(loops := [l.(loop := L.Draining([]), counter := 0, mutex := L.ByLoop)])
  {
    assert [L.Wake][1..] == [];
    acts := LoopStep(s0, before, L.ReadWake);
    acts := LoopStep(s0, acts, L.LockToDrain);
  }

  /** The loop leaves the callback, wakes up and takes the queue's mutex. */
  lemma WakeUp(s0: State, before: seq<Action>) returns (acts: seq<Action>)
    requires var s := Exec(s0, before);
             && Small(s) && InZero(s) && Pick(s.conns[0].input) == Incomplete
             && s.loops[0].mutex == L.Free && s.loops[0].counter > 0
    ensures var s, t := Exec(s0, before), Exec(s0, acts); var l := s.loops[0];
            Small(t) && t == s.(loops := [l.(loop := L.Draining([]), counter := 0, mutex := L.ByLoop, batches := 0)],
                                phase := [Before])
  {
    acts := LeaveZero(s0, before);
    acts := GoRound(s0, acts, [L.Wake]);
    acts := StartDrain(s0, acts);
  }

  /** The loop runs the first queued task: its reply is appended. */
  lemma RunOne(s0: State, before: seq<Action>, k: nat) returns (acts: seq<Action>)
    requires var s := Exec(s0, before);
             && Small(s) && s.closed == {} && 0 in s.server
             && s.loops[0].loop.Draining? && s.loops[0].queue != [] && s.loops[0].queue[0] == k
             && s.pool.producers == [P.Idle] && ConnOf(s.jobs, k) == 0 && Copyable(s.jobs, k)
    ensures var s, t := Exec(s0, before), Exec(s0, acts);
            && Small(t) && t.pool == s.pool && t.jobs == s.jobs && t.closed == {} && t.server == s.server
            && t.loops[0].loop == s.loops[0].loop && t.loops[0].queue == s.loops[0].queue[1..]
            && t.conns[0].done == s.conns[0].done + [k] && t.conns[0].mine == s.conns[0].mine
  {
    var s := Exec(s0, before);
    SendOutcome(s.(loops := s.loops[0 := L.Next(s.loops[0], L.RunTask)]), k);
    acts := Step(s0, before, Loop(0, L.RunTask));
  }

  // ---------------------------------------------------------------- out of order

  /** With two workers the second request can be answered first. */
  lemma TwoWorkersReorder(s0: State) returns (acts: seq<Action>)
    requires Init(s0) && Small(s0)
    ensures var s := Exec(s0, acts);
            |s.conns| >= 1 && s.closed == {} && s.conns[0].mine == [0, 1] && s.conns[0].done == [1, 0]
  {
    var one: Bytes := [0, 0, 0, 0];
    EmptyRequest(one);
    acts := ReadOne(s0, one + one, [], one);
    acts := AddAnother(s0, acts);
    acts := AnswerBackwards(s0, acts);
  }

  lemma AddAnother(s0: State, before: seq<Action>) returns (acts: seq<Action>)
    requires Small(Exec(s0, before)) && Requested(Exec(s0, before), [Job(0, [])])
    requires Exec(s0, before).conns[0].input == [0, 0, 0, 0]
    ensures Small(Exec(s0, acts)) && Requested(Exec(s0, acts), [Job(0, []), Job(0, [])]) && Exec(s0, acts).conns[0].input == []
  {
    EmptyRequest([]);
    assert [0, 0, 0, 0] + [] == [0, 0, 0, 0];
    acts := AddOne(s0, before, [], []);
  }

  lemma EmptyRequest(rest: Bytes)
    ensures Pick([0, 0, 0, 0] + rest) == Message([], rest)
  {
    var s := [0, 0, 0, 0] + rest;
    assert s[4..4] == [] && s[4..] == rest;
  }

  lemma AnswerBackwards(s0: State, before: seq<Action>) returns (acts: seq<Action>)
    requires Small(Exec(s0, before)) && Requested(Exec(s0, before), [Job(0, []), Job(0, [])])
    requires Exec(s0, before).conns[0].input == []
    ensures var s, t := Exec(s0, before), Exec(s0, acts);
            |t.conns| >= 1 && t.closed == {} && t.conns[0].mine == s.conns[0].mine && t.conns[0].done == [1, 0]
  {
    acts := TakeOne(s0, before, 0);
    acts := TakeOne(s0, acts, 1);
    acts := SendOne(s0, acts, 1, 1);
    acts := SendOne(s0, acts, 0, 0);
    assert Exec(s0, acts).loops[0].queue == [1, 0];
    acts := WakeUp(s0, acts);
    acts := RunOne(s0, acts, 1);
    acts := RunOne(s0, acts, 0);
  }

  // ---------------------------------------------------------------- ended

  /** Job 0, of connection 0 with the given body, is queued on the loop, which is still extracting. */
  ghost predicate Replied(s: State, body: Bytes, rest: Bytes)
    requires Small(s)
  {
    && InZero(s) && s.conns[0].input == rest && s.jobs == [Job(0, body)]
    && s.loops[0].queue == [0] && s.loops[0].mutex == L.Free && s.loops[0].counter == 1
    && s.loops[0].producers == [L.Idle, L.Idle]
    && RunsJob(s, 0) && JobOf(s, 0) == 0 && s.stage[0] == Sending && s.hand[0] == None
    && s.pool.workers[1] == P.Top && s.pool.queue == []
  }

  /** A request is read, delivered, taken by a worker, found open and queued on the loop. */
  lemma QueueReply(s0: State, bytes: Bytes, body: Bytes, rest: Bytes) returns (acts: seq<Action>)
    requires Init(s0) && Small(s0) && Pick(bytes) == Message(body, rest)
    ensures var t := Exec(s0, acts);
            Small(t) && Replied(t, body, rest) && |t.conns| == |s0.conns| && t.subs == s0.subs && t.server == s0.server
  {
    acts := ReadOne(s0, bytes, body, rest);
    assert Exec(s0, acts).pool.queue == [0];
    acts := TakeOne(s0, acts, 0);
    acts := SendOne(s0, acts, 0, 0);
  }

  /** The loop runs the only task queued, which ends the process. */
  lemma RunLast(s0: State, before: seq<Action>) returns (acts: seq<Action>)
    requires var s := Exec(s0, before);
             && Small(s) && s.pool.producers == [P.Idle] && s.loops[0].queue == [0] && s.loops[0].loop.Draining?
             && (!Referenced(s, ConnOf(s.jobs, 0)) || !Copyable(s.jobs, 0) || ConnOf(s.jobs, 0) in s.closed)
    ensures var s, t := Exec(s0, before), Exec(s0, acts);
            t.fate == if !Referenced(s, ConnOf(s.jobs, 0)) then Dangling else if !Copyable(s.jobs, 0) then Overread else Exited
  {
    var s := Exec(s0, before);
    var u := s.(loops := s.loops[0 := L.Next(s.loops[0], L.RunTask)]);
    assert forall w :: RunsJob(u, w) == RunsJob(s, w);
    assert Referenced(u, ConnOf(s.jobs, 0)) == Referenced(s, ConnOf(s.jobs, 0));
    SendOutcome(u, 0);
    acts := Step(s0, before, Loop(0, L.RunTask));
  }

  /** The error callback of connection 0 hangs up and returns. */
  lemma HangUp(s0: State, before: seq<Action>, more: seq<L.Source>) returns (acts: seq<Action>)
    requires var s := Exec(s0, before);
             && Small(s) && s.loops[0].loop == L.Batch([L.Broken(0)] + more) && s.pool.producers == [P.Idle]
             && s.phase == [Before] && s.closed == {} && 0 in s.server
    ensures var s, t := Exec(s0, before), Exec(s0, acts);
            Small(t) && t == s.(loops := [s.loops[0].(loop := L.Batch(more))], closed := {0}, server := s.server - {0})
  {
    var s := Exec(s0, before);
    HomeIsZero(s, 0);
    acts := Step(s0, before, Back(Close(0)));
    assert Exec(s0, acts).phase == [Over];
    assert ([L.Broken(0)] + more)[1..] == more;
    acts := Step(s0, acts, Loop(0, L.HandleOther));
    assert Exec(s0, acts).loops == [s.loops[0].(loop := L.Batch(more))];
    assert Exec(s0, acts).phase == [Before] && s.closed + {0} == {0};
  }

  /** A reply queued while its connection was open, run after the connection hung up in a later round
      of the loop: exit(-1). */
  lemma LateReplyExits(s0: State) returns (acts: seq<Action>)
    requires Init(s0) && Small(s0)
    ensures Exec(s0, acts).fate == Exited
  {
    EmptyRequest([]);
    assert [0, 0, 0, 0] + [] == [0, 0, 0, 0];
    acts := QueueReply(s0, [0, 0, 0, 0], [], []);
    acts := HangUpLater(s0, acts);
    acts := RunLast(s0, acts);
  }

  lemma HangUpLater(s0: State, before: seq<Action>) returns (acts: seq<Action>)
    requires var s := Exec(s0, before);
             && Small(s) && InZero(s) && s.conns[0].input == [] && s.loops[0].mutex == L.Free && s.loops[0].counter == 1
    ensures var s, t := Exec(s0, before), Exec(s0, acts);
            && Small(t) && t.pool == s.pool && t.jobs == s.jobs && t.loops[0].queue == s.loops[0].queue
            && t.loops[0].loop.Draining? && t.closed == {0} && 0 in t.subs
  {
    acts := LeaveZero(s0, before);
    acts := GoRound(s0, acts, [L.Broken(0)] + [L.Wake]);
    acts := HangUp(s0, acts, [L.Wake]);
    acts := StartDrain(s0, acts);
  }

  /** The request of the two bytes NUL and A: its reply is read past the end of its copy. */
  lemma NulReadsPastCopy(s0: State) returns (acts: seq<Action>)
    requires Init(s0) && Small(s0)
    ensures Exec(s0, acts).fate == Overread
  {
    var body: Bytes := [0, 65];
    FrameRoundTrip(body, []);
    assert Frame(body) + [] == Frame(body);
    acts := QueueReply(s0, Frame(body), body, []);
    assert body[0] == 0 && !NoEarlyNul(body);
    acts := WakeUp(s0, acts);
    acts := RunLast(s0, acts);
  }

  /** The timer's callback sweeps connection 0 out, which is idle too long; as coded, it reports the key
      of its successor. */
  lemma SweepOut(s0: State, before: seq<Action>, more: seq<L.Source>) returns (acts: seq<Action>)
    requires var s := Exec(s0, before);
             && Small(s) && s.loops[0].loop == L.Batch([L.Timer] + more) && s.pool.producers == [P.Idle]
             && s.phase == [Before] && 0 in s.subs && 1 in s.subs
    ensures var s, t := Exec(s0, before), Exec(s0, acts);
            && Small(t)
            && t == s.(loops := [s.loops[0].(loop := L.Batch(more))], subs := s.subs - {0}, server := s.server - {1})
  {
    var s := Exec(s0, before);
    HomeIsZero(s, 0);
    HomeIsZero(s, 1);
    acts := Step(s0, before, Back(Sweep(0, 1)));
    assert ([L.Timer] + more)[1..] == more;
    acts := Step(s0, acts, Loop(0, L.HandleOther));
    assert Exec(s0, acts).loops == [s.loops[0].(loop := L.Batch(more))];
    assert Exec(s0, acts).phase == [Before];
  }

  /** A worker queues its reply and returns, the connection hangs up and is swept out, so nothing owns
      it any more; then the loop runs the queued send on it. */
  lemma ReplyOutlivesConnection(s0: State) returns (acts: seq<Action>)
    requires Init(s0) && Small(s0) && |s0.conns| >= 2
    ensures Exec(s0, acts).fate == Dangling
  {
    EmptyRequest([]);
    assert [0, 0, 0, 0] + [] == [0, 0, 0, 0];
    acts := QueueReply(s0, [0, 0, 0, 0], [], []);
    acts := ReturnOne(s0, acts);
    acts := LoseConnection(s0, acts);
    acts := RunLast(s0, acts);
  }

  lemma LoseConnection(s0: State, before: seq<Action>) returns (acts: seq<Action>)
    requires var s := Exec(s0, before);
             && Small(s) && InZero(s) && s.conns[0].input == [] && 1 in s.subs
             && s.loops[0].mutex == L.Free && s.loops[0].counter == 1
             && s.pool.workers == [P.Top, P.Top] && s.pool.queue == []
    ensures var s, t := Exec(s0, before), Exec(s0, acts);
            && Small(t) && t.pool == s.pool && t.jobs == s.jobs && t.loops[0].queue == s.loops[0].queue
            && t.loops[0].loop.Draining? && !Referenced(t, 0)
  {
    acts := LeaveZero(s0, before);
    acts := GoRound(s0, acts, [L.Broken(0)] + ([L.Timer] + [L.Wake]));
    acts := HangUp(s0, acts, [L.Timer] + [L.Wake]);
    acts := SweepOut(s0, acts, [L.Wake]);
    acts := StartDrain(s0, acts);
  }

  lemma ReturnOne(s0: State, before: seq<Action>) returns (acts: seq<Action>)
    requires Small(Exec(s0, before)) && Replied(Exec(s0, before), [], [])
    ensures var s, t := Exec(s0, before), Exec(s0, acts);
            Small(t) && t == s.(pool := s.pool.(workers := [P.Top, P.Top], finished := t.pool.finished))
  {
    var s := Exec(s0, before);
    HomeIsZero(s, ConnOf(s.jobs, 0));
    acts := Step(s0, before, Return(0));
    assert Exec(s0, acts).pool.workers == [P.Top, P.Top];
  }

  // ---------------------------------------------------------------- stuck

  /** A request followed by a header of -4: the reply is queued on the loop, which never comes back to
      run it. */
  lemma HeaderKeepsLoop(s0: State) returns (acts: seq<Action>)
    requires Init(s0) && Small(s0)
    ensures var s := Exec(s0, acts);
            Sized(s) && Stuck(s, 0, 0) && s.loops[0].queue == [0] && Drain(s.conns[0].input).verdict == Looping
    ensures forall more :: var u := Exec(Exec(s0, acts), more);
              AppendedTo(u.conns, 0) == 0 && Count(u.dropped, 0) == 0
  {
    var bad: Bytes := [252, 255, 255, 255];
    EmptyRequest(bad);
    BadHeaders();
    acts := QueueReply(s0, [0, 0, 0, 0] + bad, [], bad);
    HomeIsZero(Exec(s0, acts), 0);
    forall more: seq<Action>
      ensures AppendedTo(Exec(Exec(s0, acts), more).conns, 0) == 0 && Count(Exec(Exec(s0, acts), more).dropped, 0) == 0
    {
      StuckReplies(s0, acts, more, 0, 0, 0);
    }
  }
}
