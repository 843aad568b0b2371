/** The echo service end to end: sub-loops read and deliver requests to the worker pool, workers hand
    replies back to the loop of the connection, loops append and write them. The pool and the loops
    are the machines of ThreadPools and LoopHandoff, stepping in any interleaving. */
module EndToEnd {
  import opened Options
  import opened Framing
  import P = ThreadPools
  import L = LoopHandoff
  import Registry

  /** A request delivered by `onmessage`; its ticket is its position in the list of all of them. */
  datatype Job = Job(conn: nat, body: Bytes)

  /** A worker's place in `EchoServer::OnMessage` while it runs a job. */
  datatype Stage = Fresh | Sending | Settled

  /** A connection's streams, and the tickets delivered from it (`mine`) and appended to it (`done`). */
  datatype Conn = Conn(received: Bytes, input: Bytes, output: Bytes, wire: Bytes, mine: seq<nat>, done: seq<nat>)

  /** A loop's place in the callback of the channel at the head of its batch. `onmessage` reads until
      EAGAIN, then delivers until no message is complete; at end of file it hangs up instead. */
  datatype Phase = Before | Reading | Extracting | Over

  /** How the process stands: running, ended by exit(-1) after a refused epoll_ctl, past a read behind
      the end of an allocation, or past the use of a destroyed connection. */
  datatype Fate = Going | Exited | Overread | Dangling

  /** `hand[w]` is the job worker w holds and has neither queued on a loop nor dropped; `phase[i]` is
      loop i's place in a callback; `server` and `subs` are the connections listed in the server's map
      and in their sub-loop's; `fatal` holds the job whose sendinloop ended the process. */
  datatype State = State(
    pool: P.State, loops: seq<L.State>, conns: seq<Conn>, jobs: seq<Job>,
    hand: seq<Option<nat>>, stage: seq<Stage>, phase: seq<Phase>, dropped: seq<nat>, closed: set<nat>,
    server: set<nat>, subs: set<nat>, fatal: seq<nat>, fate: Fate)

  /** A step of a callback that moves no job. */
  datatype Step =
    | Read(c: nat, chunk: Bytes)
    | Again(c: nat)                    // read finds EAGAIN
    | Leave(c: nat)                    // no message is complete: onmessage returns
    | Write(c: nat, n: nat)            // writecallback
    | Close(c: nat)                    // end of file, or the error callback
    | Sweep(c: nat, key: nat)          // the timer's callback erases c and reports a key to the server
    | Dangle(i: nat)                   // loop i goes on with a callback of a destroyed connection

  datatype Action =
    | Back(step: Step)
    | Deliver(c: nat)                  // pick one message; HandleMessage calls addtask
    | Pool(pa: P.Action)               // any other step of the pool
    | CheckOpen(w: nat)                // OnMessage: send tests disconnect_, then calls queueinloop
    | Loop(i: nat, la: L.Action)       // any step of a loop or of a worker inside its queueinloop
    | Return(w: nat)                   // OnMessage returns

  const TEXT: string := "reply:WORK thread "

  /** The message is the text followed by the request, byte for byte. */
  predicate Answers(reply: Bytes, request: Bytes)
  {
    && |reply| == |TEXT| + |request|
    && (forall k :: 0 <= k < |TEXT| ==> reply[k] == TEXT[k] as int)
    && reply[|TEXT|..] == request
  }

  /** TEXT in bytes. */
  const PREFIX: Bytes := [114, 101, 112, 108, 121, 58, 87, 79, 82, 75, 32, 116, 104, 114, 101, 97, 100, 32]

  function Reply(body: Bytes): Bytes { PREFIX + body }

  lemma ReplyAnswers(body: Bytes)
    ensures Answers(Reply(body), body)
  {
  }

  function ConnOf(jobs: seq<Job>, t: nat): nat { if t < |jobs| then jobs[t].conn else 0 }

  function BodyOf(jobs: seq<Job>, t: nat): Bytes { if t < |jobs| then jobs[t].body else [] }

  function Home(s: State, c: nat): (h: nat)
    requires |s.loops| > 0
    ensures h < |s.loops|
  {
    Registry.Home(|s.loops|, c)
  }

  predicate Sized(s: State)
  {
    && |s.loops| > 0 && |s.pool.producers| == |s.loops|
    && |s.hand| == |s.pool.workers| && |s.stage| == |s.pool.workers| && |s.phase| == |s.loops|
    && forall i :: 0 <= i < |s.loops| ==> |s.loops[i].producers| == |s.pool.workers|
  }

  predicate Init(s: State)
  {
    && Sized(s) && P.Init(s.pool) && s.pool.workers != []
    && (forall i :: 0 <= i < |s.loops| ==> L.Init(s.loops[i]))
    && (forall c :: 0 <= c < |s.conns| ==> s.conns[c] == Conn([], [], [], [], [], []))
    && (forall w :: 0 <= w < |s.hand| ==> s.hand[w] == None)
    && (forall i :: 0 <= i < |s.phase| ==> s.phase[i] == Before)
    && (forall c :: 0 <= c < |s.conns| ==> c in s.server && c in s.subs)
    && s.jobs == [] && s.dropped == [] && s.closed == {} && s.fatal == [] && s.fate == Going
  }

  /** The source belongs to a client channel. */
  predicate OfClient(e: L.Source) { e.Readable? || e.Writable? || e.Broken? }

  /** Loop i's thread is in the callback of the channel that reported e, and not inside addtask. */
  predicate Handling(s: State, i: nat, e: L.Source)
    requires Sized(s)
  {
    && i < |s.loops| && s.loops[i].loop.Batch? && s.loops[i].loop.rest != [] && s.loops[i].loop.rest[0] == e
    && s.pool.producers[i] == P.Idle
  }

  /** The same for a callback of a client that is open and still exists. */
  predicate InCallback(s: State, e: L.Source)
    requires Sized(s) && OfClient(e)
  {
    && e.conn < |s.conns| && e.conn !in s.closed && Referenced(s, e.conn) && Handling(s, Home(s, e.conn), e)
  }

  /** `onmessage` of connection c, in one of its two loops. */
  predicate IsReading(s: State, c: nat)
    requires Sized(s)
  {
    InCallback(s, L.Readable(c)) && (s.phase[Home(s, c)] == Before || s.phase[Home(s, c)] == Reading)
  }

  predicate IsExtracting(s: State, c: nat)
    requires Sized(s)
  {
    InCallback(s, L.Readable(c)) && s.phase[Home(s, c)] == Extracting
  }

  predicate Carries(p: P.Producer, t: nat) { (p.Offering? || p.Pushing?) && p.task == t }

  /** Task t is bound to a reference to connection c: tasks of the business pool are. */
  predicate Binds(s: State, t: nat, c: nat) { t < |s.jobs| && ConnOf(s.jobs, t) == c }

  predicate HeldByProducer(s: State, c: nat)
  {
    exists p :: 0 <= p < |s.pool.producers| && (s.pool.producers[p].Offering? || s.pool.producers[p].Pushing?)
                && Binds(s, s.pool.producers[p].task, c)
  }

  predicate HeldByQueue(s: State, c: nat)
  {
    exists k :: 0 <= k < |s.pool.queue| && Binds(s, s.pool.queue[k], c)
  }

  predicate HeldByWorker(s: State, c: nat)
  {
    exists w :: 0 <= w < |s.pool.workers| && RunsJob(s, w) && Binds(s, JobOf(s, w), c)
  }

  /** Someone shares ownership of connection c: a map, or a task of the pool until it has returned. The
      bound `this` of a queued sendinloop and a channel's callbacks do not. */
  predicate Referenced(s: State, c: nat)
  {
    c in s.server || c in s.subs || HeldByProducer(s, c) || HeldByQueue(s, c) || HeldByWorker(s, c)
  }

  /** What epoll can report to loop i: its timer, its eventfd, and open clients of its own, each once. */
  predicate Reports(s: State, i: nat, batch: seq<L.Source>)
    requires Sized(s)
  {
    && (forall k :: 0 <= k < |batch| && OfClient(batch[k]) ==>
          var c := batch[k].conn;
          c < |s.conns| && Home(s, c) == i && c !in s.closed && Referenced(s, c)
          && (batch[k].Writable? ==> s.conns[c].output != []))
    && OneEach(batch)
  }

  predicate OneEach(batch: seq<L.Source>)
  {
    forall k, l :: 0 <= k < l < |batch| && OfClient(batch[k]) && OfClient(batch[l]) ==> batch[k].conn != batch[l].conn
  }

  predicate RunsJob(s: State, w: nat) { w < |s.pool.workers| && s.pool.workers[w].Running? && s.pool.workers[w].pos < |s.pool.taken| }

  /** Job k's reply survives the copy made by `send`. */
  predicate Copyable(jobs: seq<Job>, k: nat) { NoEarlyNul(BodyOf(jobs, k)) }

  /** The constant text before a body holds no NUL. */
  lemma ReplyNul(body: Bytes)
    ensures NoEarlyNul(Reply(body)) <==> NoEarlyNul(body)
  {
    var n := |PREFIX|;
    forall i | 0 <= i < |body|
      ensures Reply(body)[n + i] == body[i]
    {
    }
    if NoEarlyNul(Reply(body)) {
      forall i | 0 <= i < |body| - 1
        ensures body[i] != 0
      {
        assert Reply(body)[n + i] != 0;
      }
    }
    if NoEarlyNul(body) {
      forall i | 0 <= i < |Reply(body)| - 1
        ensures Reply(body)[i] != 0
      {
        assert i < n || Reply(body)[i] == body[i - n];
      }
    }
  }

  /** What running a queued send does, without the copy: the frame of the reply is appended exactly
      if the connection still exists and is open and the body has no NUL before its last byte. */
  lemma SendOutcome(s: State, k: nat)
    ensures var t := NextSend(s, k); var c := ConnOf(s.jobs, k);
            && (!Referenced(s, c) ==> t == s.(fatal := s.fatal + [k], fate := Dangling))
            && (Referenced(s, c) && !Copyable(s.jobs, k) ==> t == s.(fatal := s.fatal + [k], fate := Overread))
            && (Referenced(s, c) && Copyable(s.jobs, k) && c in s.closed ==>
                  t == s.(fatal := s.fatal + [k], fate := Exited))
            && (Referenced(s, c) && Copyable(s.jobs, k) && c !in s.closed && c < |s.conns| ==>
                  t == s.(conns := s.conns[c := s.conns[c].(
                            output := s.conns[c].output + Frame(Reply(BodyOf(s.jobs, k))), done := s.conns[c].done + [k])]))
  {
    ReplyNul(BodyOf(s.jobs, k));
    CopyPrints(Reply(BodyOf(s.jobs, k)));
  }

  function JobOf(s: State, w: nat): nat
    requires RunsJob(s, w)
  {
    s.pool.taken[s.pool.workers[w].pos]
  }

  predicate StepEnabled(s: State, b: Step)
    requires Sized(s)
  {
    match b
    case Read(c, _) => IsReading(s, c)
    case Again(c) => IsReading(s, c)
    case Leave(c) => IsExtracting(s, c) && Pick(s.conns[c].input) == Incomplete
    case Write(c, n) =>
      InCallback(s, L.Writable(c)) && s.phase[Home(s, c)] == Before && n <= |s.conns[c].output|
    case Close(c) => IsReading(s, c) || (InCallback(s, L.Broken(c)) && s.phase[Home(s, c)] == Before)
    case Sweep(c, key) =>
      && c in s.subs && Handling(s, Home(s, c), L.Timer)
      && (key == c || (key in s.subs && key > c && Home(s, key) == Home(s, c)))
    case Dangle(i) =>
      && i < |s.loops| && s.phase[i] != Over && s.loops[i].loop.Batch? && s.loops[i].loop.rest != []
      && var e := s.loops[i].loop.rest[0]; OfClient(e) && Handling(s, i, e) && !Referenced(s, e.conn)
  }

  predicate LoopEnabled(s: State, i: nat, la: L.Action)
    requires Sized(s)
  {
    && i < |s.loops| && !la.Offer? && L.Enabled(s.loops[i], la)
    && (L.OfLoop(la) ==> s.pool.producers[i] == P.Idle)
    && (la.Return? ==> Reports(s, i, la.batch))
    && (la.HandleOther? ==> s.phase[i] == Over || s.loops[i].loop.rest[0] == L.Timer)
  }

  predicate Enabled(s: State, a: Action)
  {
    && s.fate == Going && Sized(s)
    && match a
       case Back(b) => StepEnabled(s, b)
       case Deliver(c) => IsExtracting(s, c) && Pick(s.conns[c].input).Message?
       case Pool(pa) => !pa.Offer? && !pa.Finish? && P.Enabled(s.pool, pa)
       case CheckOpen(w) =>
         && RunsJob(s, w) && s.stage[w] == Fresh
         && s.loops[Home(s, ConnOf(s.jobs, JobOf(s, w)))].producers[w] == L.Idle
       case Loop(i, la) => LoopEnabled(s, i, la)
       case Return(w) =>
         && RunsJob(s, w) && s.stage[w] != Fresh && s.hand[w] == None
         && s.loops[Home(s, ConnOf(s.jobs, JobOf(s, w)))].producers[w] == L.Idle
  }

  function NextPool(s: State, pa: P.Action): State
    requires Sized(s) && P.Enabled(s.pool, pa)
  {
    var p := P.Next(s.pool, pa);
    if pa.Take? && |p.taken| > |s.pool.taken| then
      s.(pool := p, hand := s.hand[pa.w := Some(p.taken[|s.pool.taken|])], stage := s.stage[pa.w := Fresh])
    else s.(pool := p)
  }

  function NextCheck(s: State, w: nat): State
    requires Enabled(s, CheckOpen(w))
  {
    var t := JobOf(s, w);
    var h := Home(s, ConnOf(s.jobs, t));
    if ConnOf(s.jobs, t) in s.closed then
      s.(dropped := s.dropped + [t], hand := s.hand[w := None], stage := s.stage[w := Settled])
    else
      s.(loops := s.loops[h := L.Next(s.loops[h], L.Offer(w, t))], stage := s.stage[w := Sending])
  }

  /** `sendinloop` for job k: the reply is framed into the output buffer from the copy `send` made.
      The task holds a raw pointer to the connection; a copy shorter than the reply is read past its
      end; and a connection already removed from epoll makes the process exit. */
  function NextSend(s: State, k: nat): State
  {
    var c, reply := ConnOf(s.jobs, k), Reply(BodyOf(s.jobs, k));
    if !Referenced(s, c) then s.(fatal := s.fatal + [k], fate := Dangling)
    else
      match Print(Strdup(reply), |reply|)
      case PastEnd => s.(fatal := s.fatal + [k], fate := Overread)
      case Printed(frame) =>
        if c in s.closed then s.(fatal := s.fatal + [k], fate := Exited)
        else if c < |s.conns| then
          s.(conns := s.conns[c := s.conns[c].(output := s.conns[c].output + frame, done := s.conns[c].done + [k])])
        else s
  }

  function SetPhase(s: State, i: nat, p: Phase): State
    requires i < |s.phase|
  {
    s.(phase := s.phase[i := p])
  }

  function NextLoop(s: State, i: nat, la: L.Action): State
    requires Enabled(s, Loop(i, la))
  {
    var t := s.(loops := s.loops[i := L.Next(s.loops[i], la)]);
    if la.Push? then t.(hand := s.hand[la.p := None])
    else if la.RunTask? then NextSend(t, s.loops[i].queue[0])
    else if la.HandleOther? then SetPhase(t, i, Before)
    else t
  }

  function NextStep(s: State, b: Step): State
    requires Sized(s) && StepEnabled(s, b)
  {
    match b
    case Read(c, chunk) =>
      var x := s.conns[c];
      SetPhase(s, Home(s, c), Reading).(conns := s.conns[c := x.(received := x.received + chunk, input := x.input + chunk)])
    case Again(c) => SetPhase(s, Home(s, c), Extracting)
    case Leave(c) => SetPhase(s, Home(s, c), Over)
    case Write(c, n) =>
      var x := s.conns[c];
      SetPhase(s, Home(s, c), Over).(conns := s.conns[c := x.(wire := x.wire + x.output[..n], output := x.output[n..])])
    case Close(c) => SetPhase(s, Home(s, c), Over).(closed := s.closed + {c}, server := s.server - {c})
    case Sweep(c, key) => s.(subs := s.subs - {c}, server := s.server - {key})
    case Dangle(i) => s.(fate := Dangling)
  }

  function Next(s: State, a: Action): State
    requires Enabled(s, a)
  {
    match a
    case Back(b) => NextStep(s, b)
    case Deliver(c) =>
      var o, k := Pick(s.conns[c].input), |s.jobs|;
      s.(conns := s.conns[c := s.conns[c].(input := o.rest, mine := s.conns[c].mine + [k])],
         jobs := s.jobs + [Job(c, o.body)],
         pool := P.Next(s.pool, P.Offer(Home(s, c), k)))
    case Pool(pa) => NextPool(s, pa)
    case CheckOpen(w) => NextCheck(s, w)
    case Loop(i, la) => NextLoop(s, i, la)
    case Return(w) => s.(pool := P.Next(s.pool, P.Finish(w)))
  }

  /** The state after a sequence of actions; an action that is not enabled does not happen. */
  function Exec(s: State, acts: seq<Action>): State
  {
    if acts == [] then s
    else
      var t := Exec(s, acts[..|acts| - 1]);
      if Enabled(t, acts[|acts| - 1]) then Next(t, acts[|acts| - 1]) else t
  }

  // ---------------------------------------------------------------- the parts keep their invariants

  ghost predicate PartsOk(s: State)
  {
    Sized(s) && P.Inv(s.pool) && forall i :: 0 <= i < |s.loops| ==> L.Inv(s.loops[i])
  }

  lemma SizedKeeps(s: State, a: Action)
    requires Enabled(s, a)
    ensures Sized(Next(s, a))
  {
  }

  lemma BackFrame(s: State, b: Step)
    requires Sized(s) && StepEnabled(s, b)
    ensures var t := NextStep(s, b);
            && t.pool == s.pool && t.loops == s.loops && t.jobs == s.jobs && t.hand == s.hand && t.stage == s.stage
            && t.dropped == s.dropped && t.fatal == s.fatal && |t.phase| == |s.phase| && |t.conns| == |s.conns|
            && (forall c :: 0 <= c < |s.conns| ==> t.conns[c].mine == s.conns[c].mine && t.conns[c].done == s.conns[c].done)
  {
  }

  lemma PartsKeep(s: State, a: Action)
    requires PartsOk(s) && Enabled(s, a)
    ensures PartsOk(Next(s, a))
  {
    SizedKeeps(s, a);
    match a
    case Deliver(c) => P.NextKeeps(s.pool, P.Offer(Home(s, c), |s.jobs|));
    case Pool(pa) => P.NextKeeps(s.pool, pa);
    case Return(w) => P.NextKeeps(s.pool, P.Finish(w));
    case Loop(i, la) => L.NextKeeps(s.loops[i], la);
    case CheckOpen(w) =>
      var t := JobOf(s, w);
      L.NextKeeps(s.loops[Home(s, ConnOf(s.jobs, t))], L.Offer(w, t));
    case Back(b) => BackFrame(s, b);
  }

  // ---------------------------------------------------------------- who holds what

  /** A worker inside queueinloop is sending the job it holds, on the loop of that job's connection. */
  ghost predicate SendsHand(s: State, i: nat, w: nat)
    requires Sized(s) && i < |s.loops| && w < |s.hand|
  {
    var p := s.loops[i].producers[w];
    && (p != L.Idle ==> RunsJob(s, w) && s.stage[w] == Sending && Home(s, ConnOf(s.jobs, JobOf(s, w))) == i)
    && (p.Offering? || p.Pushing? ==> s.hand[w] == Some(p.task))
  }

  ghost predicate HandOk(s: State, w: nat)
    requires Sized(s) && w < |s.hand|
  {
    && (s.hand[w].Some? ==> RunsJob(s, w) && s.hand[w] == Some(JobOf(s, w)) && s.stage[w] != Settled)
    && (RunsJob(s, w) && s.stage[w] == Fresh ==> s.hand[w] == Some(JobOf(s, w)))
  }

  ghost predicate HandsOk(s: State)
    requires Sized(s)
  {
    && (forall w :: 0 <= w < |s.hand| ==> HandOk(s, w))
    && (forall i, w :: 0 <= i < |s.loops| && 0 <= w < |s.hand| ==> SendsHand(s, i, w))
  }

  /** The tickets in circulation are tickets of delivered jobs, and a producer of the pool carries
      only jobs of its own loop's connections. */
  ghost predicate TicketsOk(s: State)
    requires Sized(s)
  {
    && (forall t :: t in s.pool.added ==> t < |s.jobs|)
    && (forall p :: 0 <= p < |s.pool.producers| && (s.pool.producers[p].Offering? || s.pool.producers[p].Pushing?) ==>
          s.pool.producers[p].task < |s.jobs| && Home(s, ConnOf(s.jobs, s.pool.producers[p].task)) == p)
  }

  /** Producers of the pool pick up no task but by Offer, and only Push adds to the queue. */
  lemma PoolTasks(s: P.State, pa: P.Action)
    requires P.Enabled(s, pa) && !pa.Offer?
    ensures var t := P.Next(s, pa);
            && (pa.Push? ==> s.producers[pa.p].Pushing? && t.added == s.added + [s.producers[pa.p].task])
            && (!pa.Push? ==> t.added == s.added)
            && forall p :: 0 <= p < |t.producers| && (t.producers[p].Offering? || t.producers[p].Pushing?) ==>
                 (s.producers[p].Offering? || s.producers[p].Pushing?) && s.producers[p].task == t.producers[p].task
  {
  }

  lemma TicketsSame(s: State, t: State)
    requires Sized(s) && Sized(t) && TicketsOk(s) && t.pool == s.pool && t.jobs == s.jobs && |t.loops| == |s.loops|
    ensures TicketsOk(t)
  {
  }

  lemma TicketsPool(s: State, pa: P.Action, t: State)
    requires Sized(s) && Sized(t) && TicketsOk(s) && P.Enabled(s.pool, pa) && !pa.Offer?
    requires t.pool == P.Next(s.pool, pa) && t.jobs == s.jobs && |t.loops| == |s.loops|
    ensures TicketsOk(t)
  {
    PoolTasks(s.pool, pa);
  }

  lemma TicketsKeep(s: State, a: Action)
    requires PartsOk(s) && TicketsOk(s) && Enabled(s, a)
    ensures Sized(Next(s, a)) && TicketsOk(Next(s, a))
  {
    SizedKeeps(s, a);
    match a
    case Pool(pa) => TicketsPool(s, pa, Next(s, a));
    case Return(w) => TicketsPool(s, P.Finish(w), Next(s, a));
    case Deliver(_) =>
    case CheckOpen(_) => TicketsSame(s, Next(s, a));
    case Loop(i, la) =>
      LoopFrame(s, i, la);
      TicketsSame(s, Next(s, a));
    case Back(b) =>
      BackFrame(s, b);
      TicketsSame(s, Next(s, a));
  }

  lemma TakenKnown(s: State, k: nat)
    requires PartsOk(s) && TicketsOk(s) && k < |s.pool.taken|
    ensures s.pool.taken[k] < |s.jobs|
  {
    assert s.pool.added[k] == s.pool.taken[k];
    assert s.pool.added[k] in s.pool.added;
  }

  lemma HandsAfterDeliver(s: State, c: nat)
    requires PartsOk(s) && TicketsOk(s) && HandsOk(s) && Enabled(s, Deliver(c))
    ensures Sized(Next(s, Deliver(c))) && HandsOk(Next(s, Deliver(c)))
  {
    SizedKeeps(s, Deliver(c));
    var t := Next(s, Deliver(c));
    forall w | 0 <= w < |s.hand| && RunsJob(s, w)
      ensures ConnOf(t.jobs, JobOf(t, w)) == ConnOf(s.jobs, JobOf(s, w))
    {
      TakenKnown(s, s.pool.workers[w].pos);
    }
    forall w | 0 <= w < |t.hand|
      ensures HandOk(t, w)
    {
      assert HandOk(s, w);
    }
    forall i, w | 0 <= i < |t.loops| && 0 <= w < |t.hand|
      ensures SendsHand(t, i, w)
    {
      assert SendsHand(s, i, w);
    }
  }

  lemma PoolStepLocal(s: P.State, pa: P.Action, w: nat)
    requires P.Inv(s) && P.Enabled(s, pa) && !pa.Offer? && !pa.Finish? && w < |s.workers|
    ensures var t := P.Next(s, pa);
            && s.taken <= t.taken
            && (s.workers[w].Running? ==> t.workers[w] == s.workers[w] && s.workers[w].pos < |s.taken|)
            && (t.workers[w].Running? && !s.workers[w].Running? ==>
                  pa == P.Take(w) && t.workers[w] == P.Running(|s.taken|) && |t.taken| == |s.taken| + 1)
            && (|t.taken| > |s.taken| ==> pa.Take? && pa.w < |s.workers| && !s.workers[pa.w].Running?)
  {
  }

  lemma HandsAfterPool(s: State, pa: P.Action)
    requires PartsOk(s) && HandsOk(s) && Enabled(s, Pool(pa))
    ensures Sized(NextPool(s, pa)) && HandsOk(NextPool(s, pa))
  {
    SizedKeeps(s, Pool(pa));
    var t := NextPool(s, pa);
    forall w | 0 <= w < |t.hand|
      ensures HandOk(t, w)
    {
      assert HandOk(s, w);
      PoolStepLocal(s.pool, pa, w);
    }
    forall i, w | 0 <= i < |t.loops| && 0 <= w < |t.hand|
      ensures SendsHand(t, i, w)
    {
      assert SendsHand(s, i, w);
      PoolStepLocal(s.pool, pa, w);
    }
  }

  lemma HandsAfterCheck(s: State, w: nat)
    requires PartsOk(s) && HandsOk(s) && Enabled(s, CheckOpen(w))
    ensures Sized(NextCheck(s, w)) && HandsOk(NextCheck(s, w))
  {
    SizedKeeps(s, CheckOpen(w));
    var t := NextCheck(s, w);
    forall v | 0 <= v < |t.hand|
      ensures HandOk(t, v)
    {
      assert HandOk(s, v);
    }
    forall i, v | 0 <= i < |t.loops| && 0 <= v < |t.hand|
      ensures SendsHand(t, i, v)
    {
      assert SendsHand(s, i, v);
      assert HandOk(s, v);
    }
  }

  lemma LoopStepLocal(s: L.State, la: L.Action, w: nat)
    requires L.Enabled(s, la) && !la.Offer? && w < |s.producers|
    ensures var t := L.Next(s, la);
            && (t.producers[w] != L.Idle ==> s.producers[w] != L.Idle)
            && (t.producers[w].Offering? || t.producers[w].Pushing? ==>
                  && la != L.Push(w) && (s.producers[w].Offering? || s.producers[w].Pushing?)
                  && s.producers[w].task == t.producers[w].task)
            && (la == L.Push(w) ==> s.producers[w].Pushing?)
  {
  }

  lemma HandMoves(s: State, t: State, w: nat)
    requires Sized(s) && Sized(t) && w < |s.hand| && HandOk(s, w)
    requires t.pool == s.pool && t.stage == s.stage && t.jobs == s.jobs
    requires t.hand[w] == s.hand[w] || (t.hand[w] == None && s.stage[w] != Fresh)
    ensures HandOk(t, w)
  {
  }

  lemma HandAfterLoop(s: State, i: nat, la: L.Action, w: nat)
    requires PartsOk(s) && HandsOk(s) && Enabled(s, Loop(i, la)) && w < |s.hand|
    ensures Sized(NextLoop(s, i, la)) && HandOk(NextLoop(s, i, la), w)
  {
    SizedKeeps(s, Loop(i, la));
    LoopFrame(s, i, la);
    assert HandOk(s, w) && SendsHand(s, i, w);
    LoopStepLocal(s.loops[i], la, w);
    HandMoves(s, NextLoop(s, i, la), w);
  }

  lemma LoopFrame(s: State, i: nat, la: L.Action)
    requires Enabled(s, Loop(i, la))
    ensures var t := NextLoop(s, i, la);
            && t.loops == s.loops[i := L.Next(s.loops[i], la)] && t.pool == s.pool && t.stage == s.stage && t.jobs == s.jobs && t.dropped == s.dropped
            && (t.hand == if la.Push? then s.hand[la.p := None] else s.hand)
            && t.phase == if la.HandleOther? then s.phase[i := Before] else s.phase
  {
  }

  /** What SendsHand says, as far as a state's fields are concerned. */
  lemma SendMoves(s: State, t: State, j: nat, w: nat)
    requires Sized(s) && Sized(t) && j < |s.loops| && |t.loops| == |s.loops| && w < |s.hand| && SendsHand(s, j, w)
    requires t.pool == s.pool && t.stage == s.stage && t.jobs == s.jobs
    requires var p, q := s.loops[j].producers[w], t.loops[j].producers[w];
             && (q != L.Idle ==> p != L.Idle)
             && (q.Offering? || q.Pushing? ==>
                   (p.Offering? || p.Pushing?) && q.task == p.task && t.hand[w] == s.hand[w])
    ensures SendsHand(t, j, w)
  {
  }

  lemma SendAfterLoop(s: State, i: nat, la: L.Action, j: nat, w: nat)
    requires PartsOk(s) && HandsOk(s) && Enabled(s, Loop(i, la)) && w < |s.hand| && j < |s.loops|
    ensures Sized(NextLoop(s, i, la)) && SendsHand(NextLoop(s, i, la), j, w)
  {
    SizedKeeps(s, Loop(i, la));
    LoopFrame(s, i, la);
    assert SendsHand(s, j, w) && SendsHand(s, i, w);
    LoopStepLocal(s.loops[i], la, w);
    SendMoves(s, NextLoop(s, i, la), j, w);
  }

  lemma HandsAfterLoop(s: State, i: nat, la: L.Action)
    requires PartsOk(s) && HandsOk(s) && Enabled(s, Loop(i, la))
    ensures Sized(NextLoop(s, i, la)) && HandsOk(NextLoop(s, i, la))
  {
    SizedKeeps(s, Loop(i, la));
    var t := NextLoop(s, i, la);
    forall w | 0 <= w < |t.hand|
      ensures HandOk(t, w)
    {
      HandAfterLoop(s, i, la, w);
    }
    forall j, w | 0 <= j < |t.loops| && 0 <= w < |t.hand|
      ensures SendsHand(t, j, w)
    {
      SendAfterLoop(s, i, la, j, w);
    }
  }

  lemma HandsAfterReturn(s: State, w: nat)
    requires PartsOk(s) && HandsOk(s) && Enabled(s, Return(w))
    ensures Sized(Next(s, Return(w))) && HandsOk(Next(s, Return(w)))
  {
    SizedKeeps(s, Return(w));
    var t := Next(s, Return(w));
    forall v | 0 <= v < |t.hand|
      ensures HandOk(t, v)
    {
      assert HandOk(s, v);
    }
    forall i, v | 0 <= i < |t.loops| && 0 <= v < |t.hand|
      ensures SendsHand(t, i, v)
    {
      assert SendsHand(s, i, v);
    }
  }

  lemma HandsKeep(s: State, a: Action)
    requires PartsOk(s) && TicketsOk(s) && HandsOk(s) && Enabled(s, a)
    ensures Sized(Next(s, a)) && HandsOk(Next(s, a))
  {
    SizedKeeps(s, a);
    match a
    case Deliver(c) => HandsAfterDeliver(s, c);
    case Pool(pa) => HandsAfterPool(s, pa);
    case CheckOpen(w) => HandsAfterCheck(s, w);
    case Loop(i, la) => HandsAfterLoop(s, i, la);
    case Return(w) => HandsAfterReturn(s, w);
    case Back(b) =>
      BackFrame(s, b);
      HandsUntouched(s, Next(s, a));
  }

  lemma HandsUntouched(s: State, t: State)
    requires Sized(s) && HandsOk(s)
    requires t.pool == s.pool && t.loops == s.loops && t.hand == s.hand && t.stage == s.stage && t.jobs == s.jobs
    requires |t.phase| == |s.phase|
    ensures Sized(t) && HandsOk(t)
  {
    forall w | 0 <= w < |t.hand|
      ensures HandOk(t, w)
    {
      assert HandOk(s, w);
    }
    forall i, w | 0 <= i < |t.loops| && 0 <= w < |t.hand|
      ensures SendsHand(t, i, w)
    {
      assert SendsHand(s, i, w);
    }
  }

  // ---------------------------------------------------------------- counting one ticket

  function One(b: bool): nat { if b then 1 else 0 }

  function Count(xs: seq<nat>, t: nat): nat
  {
    if xs == [] then 0 else Count(xs[..|xs| - 1], t) + One(xs[|xs| - 1] == t)
  }

  lemma {:induction false} CountPush(xs: seq<nat>, x: nat, t: nat)
    ensures Count(xs + [x], t) == Count(xs, t) + One(x == t)
  {
    assert (xs + [x])[..|xs|] == xs;
  }

  lemma {:induction false} CountConcat(xs: seq<nat>, ys: seq<nat>, t: nat)
    ensures Count(xs + ys, t) == Count(xs, t) + Count(ys, t)
  {
    if ys == [] {
      assert xs + ys == xs;
    } else {
      var n := |ys| - 1;
      CountConcat(xs, ys[..n], t);
      assert xs + ys == (xs + ys[..n]) + [ys[n]];
      CountPush(xs + ys[..n], ys[n], t);
    }
  }

  /** Producers of the pool that carry ticket t. */
  function Carriers(ps: seq<P.Producer>, t: nat): nat
  {
    if ps == [] then 0 else One(Carries(ps[0], t)) + Carriers(ps[1..], t)
  }

  /** Workers that hold ticket t. */
  function Holders(hs: seq<Option<nat>>, t: nat): nat
  {
    if hs == [] then 0 else One(hs[0] == Some(t)) + Holders(hs[1..], t)
  }

  /** Occurrences of ticket t in the loops' histories of pushes. */
  function PushedOn(ls: seq<L.State>, t: nat): nat
  {
    if ls == [] then 0 else Count(ls[0].pushed, t) + PushedOn(ls[1..], t)
  }

  lemma {:induction false} CarriersUpdate(ps: seq<P.Producer>, i: nat, p: P.Producer, t: nat)
    requires i < |ps|
    ensures Carriers(ps[i := p], t) == Carriers(ps, t) - One(Carries(ps[i], t)) + One(Carries(p, t))
  {
    if i == 0 {
      assert ps[i := p][1..] == ps[1..];
    } else {
      CarriersUpdate(ps[1..], i - 1, p, t);
      assert ps[i := p][1..] == ps[1..][i - 1 := p];
    }
  }

  lemma {:induction false} HoldersUpdate(hs: seq<Option<nat>>, i: nat, h: Option<nat>, t: nat)
    requires i < |hs|
    ensures Holders(hs[i := h], t) == Holders(hs, t) - One(hs[i] == Some(t)) + One(h == Some(t))
  {
    if i == 0 {
      assert hs[i := h][1..] == hs[1..];
    } else {
      HoldersUpdate(hs[1..], i - 1, h, t);
      assert hs[i := h][1..] == hs[1..][i - 1 := h];
    }
  }

  lemma {:induction false} PushedUpdate(ls: seq<L.State>, i: nat, l: L.State, t: nat)
    requires i < |ls|
    ensures PushedOn(ls[i := l], t) == PushedOn(ls, t) - Count(ls[i].pushed, t) + Count(l.pushed, t)
  {
    if i == 0 {
      assert ls[i := l][1..] == ls[1..];
    } else {
      PushedUpdate(ls[1..], i - 1, l, t);
      assert ls[i := l][1..] == ls[1..][i - 1 := l];
    }
  }

  /** A delivered job is carried by a producer or was added to the pool, once. */
  ghost predicate IntoPool(s: State, t: nat)
  {
    Carriers(s.pool.producers, t) + Count(s.pool.added, t) == One(t < |s.jobs|)
  }

  /** A dequeued job is in a worker's hand, dropped, or pushed on some loop's queue. */
  ghost predicate OutOfPool(s: State, t: nat)
  {
    Holders(s.hand, t) + Count(s.dropped, t) + PushedOn(s.loops, t) == Count(s.pool.taken, t)
  }

  /** The producer an action moves, and how. */
  lemma ProducerStep(p: P.State, pa: P.Action)
    requires P.Enabled(p, pa)
    ensures var q := P.Next(p, pa);
            if pa.Offer? || pa.LockToPush? || pa.Push? || pa.Notify? then
              pa.p < |p.producers| && q.producers == p.producers[pa.p := q.producers[pa.p]]
            else q.producers == p.producers
  {
  }

  lemma AddedStep(p: P.State, pa: P.Action)
    requires P.Enabled(p, pa)
    ensures P.Next(p, pa).added == if pa.Push? then p.added + [p.producers[pa.p].task] else p.added
  {
  }

  lemma CarriesStep(p: P.State, pa: P.Action, t: nat)
    requires P.Enabled(p, pa) && (pa.Offer? || pa.LockToPush? || pa.Push? || pa.Notify?)
    ensures One(Carries(P.Next(p, pa).producers[pa.p], t)) + One(pa.Push? && p.producers[pa.p].task == t)
            == One(Carries(p.producers[pa.p], t)) + One(pa.Offer? && pa.task == t)
  {
  }

  lemma IntoPoolStep(p: P.State, pa: P.Action, t: nat)
    requires P.Enabled(p, pa)
    ensures Carriers(P.Next(p, pa).producers, t) + Count(P.Next(p, pa).added, t)
            == Carriers(p.producers, t) + Count(p.added, t) + One(pa.Offer? && pa.task == t)
  {
    ProducerStep(p, pa);
    AddedStep(p, pa);
    if pa.Offer? || pa.LockToPush? || pa.Push? || pa.Notify? {
      CarriesStep(p, pa, t);
      CarriersUpdate(p.producers, pa.p, P.Next(p, pa).producers[pa.p], t);
      if pa.Push? {
        CountPush(p.added, p.producers[pa.p].task, t);
      }
    }
  }

  lemma IntoPoolKeeps(s: State, a: Action, t: nat)
    requires IntoPool(s, t) && Enabled(s, a)
    ensures IntoPool(Next(s, a), t)
  {
    match a
    case Deliver(c) => IntoPoolStep(s.pool, P.Offer(Home(s, c), |s.jobs|), t);
    case Pool(pa) => IntoPoolStep(s.pool, pa, t);
    case Return(w) => IntoPoolStep(s.pool, P.Finish(w), t);
    case CheckOpen(_) =>
    case Loop(_, _) =>
    case Back(b) => BackFrame(s, b);
  }

  lemma TakenStep(p: P.State, pa: P.Action)
    requires P.Enabled(p, pa)
    ensures var q := P.Next(p, pa);
            || q.taken == p.taken
            || (pa.Take? && p.queue != [] && q.taken == p.taken + [p.queue[0]] && p.workers[pa.w] == P.Deciding)
  {
  }

  lemma OutAfterTake(s: State, pa: P.Action, t: nat)
    requires Sized(s) && HandsOk(s) && OutOfPool(s, t) && Enabled(s, Pool(pa))
    ensures OutOfPool(NextPool(s, pa), t)
  {
    var p := P.Next(s.pool, pa);
    TakenStep(s.pool, pa);
    if p.taken != s.pool.taken {
      assert HandOk(s, pa.w);
      var k := s.pool.queue[0];
      CountPush(s.pool.taken, k, t);
      HoldersUpdate(s.hand, pa.w, Some(k), t);
    }
  }

  lemma OutAfterCheck(s: State, w: nat, t: nat)
    requires Sized(s) && HandsOk(s) && OutOfPool(s, t) && Enabled(s, CheckOpen(w))
    ensures OutOfPool(NextCheck(s, w), t)
  {
    var k := JobOf(s, w);
    assert HandOk(s, w);
    if ConnOf(s.jobs, k) in s.closed {
      HoldersUpdate(s.hand, w, None, t);
      CountPush(s.dropped, k, t);
    } else {
      var h := Home(s, ConnOf(s.jobs, k));
      PushedUpdate(s.loops, h, L.Next(s.loops[h], L.Offer(w, k)), t);
    }
  }

  lemma PushedStep(l: L.State, la: L.Action)
    requires L.Enabled(l, la)
    ensures L.Next(l, la).pushed
         == if la.Push? then l.pushed + [l.producers[la.p].task] else l.pushed
  {
  }

  lemma OutAfterLoop(s: State, i: nat, la: L.Action, t: nat)
    requires Sized(s) && HandsOk(s) && OutOfPool(s, t) && Enabled(s, Loop(i, la))
    ensures OutOfPool(NextLoop(s, i, la), t)
  {
    LoopFrame(s, i, la);
    OutMoves(s, NextLoop(s, i, la), i, la, t);
  }

  lemma OutMoves(s: State, u: State, i: nat, la: L.Action, t: nat)
    requires Sized(s) && HandsOk(s) && OutOfPool(s, t) && i < |s.loops| && L.Enabled(s.loops[i], la)
    requires u.loops == s.loops[i := L.Next(s.loops[i], la)] && u.pool == s.pool && u.dropped == s.dropped
    requires la.Push? ==> la.p < |s.hand|
    requires u.hand == if la.Push? then s.hand[la.p := None] else s.hand
    ensures OutOfPool(u, t)
  {
    PushedUpdate(s.loops, i, L.Next(s.loops[i], la), t);
    PushedStep(s.loops[i], la);
    if la.Push? {
      OutAfterPush(s, i, la.p, t);
    }
  }

  lemma OutAfterPush(s: State, i: nat, w: nat, t: nat)
    requires Sized(s) && HandsOk(s) && i < |s.loops| && w < |s.hand| && s.loops[i].producers[w].Pushing?
    ensures Holders(s.hand[w := None], t) + Count(s.loops[i].pushed + [s.loops[i].producers[w].task], t)
         == Holders(s.hand, t) + Count(s.loops[i].pushed, t)
  {
    assert SendsHand(s, i, w);
    HoldersUpdate(s.hand, w, None, t);
    CountPush(s.loops[i].pushed, s.loops[i].producers[w].task, t);
  }

  lemma OutOfPoolKeeps(s: State, a: Action, t: nat)
    requires PartsOk(s) && HandsOk(s) && OutOfPool(s, t) && Enabled(s, a)
    ensures OutOfPool(Next(s, a), t)
  {
    match a
    case Pool(pa) => OutAfterTake(s, pa, t);
    case CheckOpen(w) => OutAfterCheck(s, w, t);
    case Loop(i, la) => OutAfterLoop(s, i, la, t);
    case Deliver(_) =>
    case Return(_) =>
    case Back(b) => BackFrame(s, b);
  }

  ghost predicate Inv(s: State)
  {
    && PartsOk(s) && TicketsOk(s) && HandsOk(s)
    && forall t :: IntoPool(s, t) && OutOfPool(s, t)
  }

  lemma NextKeeps(s: State, a: Action)
    requires Inv(s) && Enabled(s, a)
    ensures Inv(Next(s, a))
  {
    PartsKeep(s, a);
    TicketsKeep(s, a);
    HandsKeep(s, a);
    forall t: nat
      ensures IntoPool(Next(s, a), t) && OutOfPool(Next(s, a), t)
    {
      assert IntoPool(s, t) && OutOfPool(s, t);
      IntoPoolKeeps(s, a, t);
      OutOfPoolKeeps(s, a, t);
    }
  }

  lemma {:induction false} NoneCarried(ps: seq<P.Producer>, t: nat)
    requires forall p :: 0 <= p < |ps| ==> ps[p] == P.Idle
    ensures Carriers(ps, t) == 0
  {
    if ps != [] { NoneCarried(ps[1..], t); }
  }

  lemma {:induction false} NoneHeld(hs: seq<Option<nat>>, t: nat)
    requires forall w :: 0 <= w < |hs| ==> hs[w] == None
    ensures Holders(hs, t) == 0
  {
    if hs != [] { NoneHeld(hs[1..], t); }
  }

  lemma {:induction false} NonePushed(ls: seq<L.State>, t: nat)
    requires forall i :: 0 <= i < |ls| ==> ls[i].pushed == []
    ensures PushedOn(ls, t) == 0
  {
    if ls != [] { NonePushed(ls[1..], t); }
  }

  lemma InitInv(s: State)
    requires Init(s)
    ensures Inv(s)
  {
    P.InitInv(s.pool);
    forall i | 0 <= i < |s.loops|
      ensures L.Inv(s.loops[i])
    {
      L.InitInv(s.loops[i]);
    }
    forall t: nat
      ensures IntoPool(s, t) && OutOfPool(s, t)
    {
      NoneCarried(s.pool.producers, t);
      NoneHeld(s.hand, t);
      NonePushed(s.loops, t);
    }
  }

  lemma {:induction false} Always(s: State, acts: seq<Action>)
    requires Inv(s)
    ensures Inv(Exec(s, acts))
  {
    if acts != [] {
      Always(s, acts[..|acts| - 1]);
      var t := Exec(s, acts[..|acts| - 1]);
      if Enabled(t, acts[|acts| - 1]) {
        NextKeeps(t, acts[|acts| - 1]);
      }
    }
  }
}
