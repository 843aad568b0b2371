/** What the client of the echo service reads back, byte for byte. */
module EchoContent {
  import opened Framing
  import opened EndToEnd
  import opened EchoPlaces
  import opened EchoOrder
  import opened EchoHistory
  import L = LoopHandoff

  function Bodies(jobs: seq<Job>, ts: seq<nat>): seq<Bytes>
  {
    if ts == [] then [] else Bodies(jobs, ts[..|ts| - 1]) + [BodyOf(jobs, ts[|ts| - 1])]
  }

  /** The replies to a list of requests. */
  function Replies(ms: seq<Bytes>): (r: seq<Bytes>)
    ensures |r| == |ms| && forall i :: 0 <= i < |ms| ==> r[i] == Reply(ms[i])
  {
    seq(|ms|, i requires 0 <= i < |ms| => Reply(ms[i]))
  }

  lemma {:induction false} BodiesPush(jobs: seq<Job>, ts: seq<nat>, t: nat)
    ensures Bodies(jobs, ts + [t]) == Bodies(jobs, ts) + [BodyOf(jobs, t)]
  {
    assert (ts + [t])[..|ts|] == ts;
  }

  lemma {:induction false} BodiesAt(jobs: seq<Job>, ts: seq<nat>)
    ensures |Bodies(jobs, ts)| == |ts|
    ensures forall i :: 0 <= i < |ts| ==> Bodies(jobs, ts)[i] == BodyOf(jobs, ts[i])
  {
    if ts != [] {
      BodiesAt(jobs, ts[..|ts| - 1]);
    }
  }

  lemma {:induction false} BodiesGrow(jobs: seq<Job>, j: Job, ts: seq<nat>)
    requires Known(jobs, ts)
    ensures Bodies(jobs + [j], ts) == Bodies(jobs, ts)
  {
    if ts != [] {
      BodiesGrow(jobs, j, ts[..|ts| - 1]);
    }
  }

  lemma {:induction false} BodiesPrefix(jobs: seq<Job>, xs: seq<nat>, ys: seq<nat>)
    requires xs <= ys
    ensures Bodies(jobs, xs) <= Bodies(jobs, ys)
    decreases |ys|
  {
    if |xs| < |ys| {
      BodiesPrefix(jobs, xs, ys[..|ys| - 1]);
    } else {
      assert xs == ys;
    }
  }

  lemma {:induction false} RepliesPush(ms: seq<Bytes>, m: Bytes)
    ensures Replies(ms + [m]) == Replies(ms) + [Reply(m)]
  {
  }

  lemma {:induction false} EncodePush(ms: seq<Bytes>, m: Bytes)
    ensures EncodeAll(ms + [m]) == EncodeAll(ms) + Frame(m)
  {
    EncodeConcat(ms, [m]);
    EncodeCons(m, []);
    assert [m] + [] == [m];
  }

  /** What follows complete frames of a well-formed stream is well-formed. */
  lemma {:induction false} WellFormedRest(ms: seq<Bytes>, x: Bytes)
    requires ValidAll(ms) && WellFormed(EncodeAll(ms) + x)
    ensures WellFormed(x)
  {
    if ms == [] {
      assert EncodeAll(ms) + x == x;
    } else {
      var more := EncodeAll(ms[1..]);
      ConcatAssociates(Frame(ms[0]), more, x);
      FrameRoundTrip(ms[0], more + x);
      WellFormedRest(ms[1..], x);
    }
  }

  // ---------------------------------------------------------------- invariant

  /** Bytes written and waiting are the framed replies to the jobs done, none with an early NUL. */
  ghost predicate Written(jobs: seq<Job>, x: Conn)
  {
    && Known(jobs, x.done) && x.wire + x.output == EncodeAll(Replies(Bodies(jobs, x.done)))
    && forall i :: 0 <= i < |x.done| ==> Copyable(jobs, x.done[i])
  }

  /** Bytes received are the framed requests delivered, then the bytes still buffered. */
  ghost predicate Parsed(jobs: seq<Job>, x: Conn)
  {
    && Known(jobs, x.mine)
    && (WellFormed(x.received) ==>
          && ValidAll(Bodies(jobs, x.mine)) && WellFormed(x.input)
          && x.received == EncodeAll(Bodies(jobs, x.mine)) + x.input)
  }

  ghost predicate StreamOk(s: State, c: nat)
    requires c < |s.conns|
  {
    Written(s.jobs, s.conns[c]) && Parsed(s.jobs, s.conns[c])
  }

  ghost predicate ContentInv(s: State)
  {
    PlacesInv(s) && forall c :: 0 <= c < |s.conns| ==> StreamOk(s, c)
  }

  lemma ReadKeeps(jobs: seq<Job>, x: Conn, chunk: Bytes)
    requires Parsed(jobs, x)
    ensures Parsed(jobs, x.(received := x.received + chunk, input := x.input + chunk))
  {
    if WellFormed(x.received + chunk) {
      DrainSplit(x.received, chunk);
      ConcatAssociates(EncodeAll(Bodies(jobs, x.mine)), x.input, chunk);
      WellFormedRest(Bodies(jobs, x.mine), x.input + chunk);
    }
  }

  lemma PickedNext(bodies: seq<Bytes>, input: Bytes)
    requires ValidAll(bodies) && WellFormed(input) && Pick(input).Message?
    ensures var o := Pick(input);
            && ValidAll(bodies + [o.body]) && WellFormed(o.rest)
            && EncodeAll(bodies) + input == EncodeAll(bodies + [o.body]) + o.rest
  {
    var o := Pick(input);
    Reprint(input);
    EncodePush(bodies, o.body);
    ConcatAssociates(EncodeAll(bodies), Frame(o.body), o.rest);
  }

  lemma DeliverKeeps(jobs: seq<Job>, x: Conn, c: nat)
    requires Parsed(jobs, x) && Pick(x.input).Message?
    ensures Parsed(jobs + [Job(c, Pick(x.input).body)], x.(input := Pick(x.input).rest, mine := x.mine + [|jobs|]))
  {
    var j := Job(c, Pick(x.input).body);
    BodiesGrow(jobs, j, x.mine);
    BodiesPush(jobs + [j], x.mine, |jobs|);
    if WellFormed(x.received) {
      PickedNext(Bodies(jobs, x.mine), x.input);
    }
  }

  lemma GrowKeeps(jobs: seq<Job>, j: Job, x: Conn)
    requires Parsed(jobs, x)
    ensures Parsed(jobs + [j], x)
  {
    BodiesGrow(jobs, j, x.mine);
  }

  lemma GrowWritten(jobs: seq<Job>, j: Job, x: Conn)
    requires Written(jobs, x)
    ensures Written(jobs + [j], x)
  {
    BodiesGrow(jobs, j, x.done);
  }

  lemma AppendKeeps(jobs: seq<Job>, x: Conn, t: nat)
    requires Written(jobs, x) && t < |jobs| && Copyable(jobs, t)
    ensures Written(jobs, x.(output := x.output + Frame(Reply(BodyOf(jobs, t))), done := x.done + [t]))
  {
    BodiesPush(jobs, x.done, t);
    RepliesPush(Bodies(jobs, x.done), BodyOf(jobs, t));
    EncodePush(Replies(Bodies(jobs, x.done)), Reply(BodyOf(jobs, t)));
    ConcatAssociates(x.wire, x.output, Frame(Reply(BodyOf(jobs, t))));
  }

  lemma WriteKeeps(jobs: seq<Job>, x: Conn, n: nat)
    requires Written(jobs, x) && n <= |x.output|
    ensures Written(jobs, x.(wire := x.wire + x.output[..n], output := x.output[n..]))
  {
    ConcatAssociates(x.wire, x.output[..n], x.output[n..]);
    assert x.output[..n] + x.output[n..] == x.output;
  }

  /** A loop's run of a task leaves a connection's streams alone or appends one framed reply. */
  lemma RunAppends(s: State, i: nat, c: nat)
    requires PlacesInv(s) && Enabled(s, Loop(i, L.RunTask)) && c < |s.conns|
    ensures var t, k, x := NextLoop(s, i, L.RunTask), s.loops[i].queue[0], s.conns[c];
            && t.jobs == s.jobs && |t.conns| == |s.conns| && k < |s.jobs|
            && (t.conns[c] == x
                || (Copyable(s.jobs, k)
                    && t.conns[c] == x.(output := x.output + Frame(Reply(BodyOf(s.jobs, k))), done := x.done + [k])))
  {
    RunKnown(s, i);
    SendOutcome(s.(loops := s.loops[i := L.Next(s.loops[i], L.RunTask)]), s.loops[i].queue[0]);
  }

  lemma StreamRun(s: State, i: nat, c: nat)
    requires PlacesInv(s) && Enabled(s, Loop(i, L.RunTask)) && c < |s.conns| && StreamOk(s, c)
    ensures |NextLoop(s, i, L.RunTask).conns| == |s.conns| && StreamOk(NextLoop(s, i, L.RunTask), c)
  {
    RunAppends(s, i, c);
    if NextLoop(s, i, L.RunTask).conns[c] != s.conns[c] {
      AppendKeeps(s.jobs, s.conns[c], s.loops[i].queue[0]);
    }
  }

  lemma StreamDeliver(s: State, d: nat, c: nat)
    requires Enabled(s, Deliver(d)) && c < |s.conns| && StreamOk(s, c)
    ensures StreamOk(Next(s, Deliver(d)), c)
  {
    var j := Job(d, Pick(s.conns[d].input).body);
    GrowWritten(s.jobs, j, s.conns[c]);
    if c == d {
      DeliverKeeps(s.jobs, s.conns[c], c);
    } else {
      GrowKeeps(s.jobs, j, s.conns[c]);
    }
  }

  lemma StreamBack(s: State, b: Step, c: nat)
    requires Enabled(s, Back(b)) && c < |s.conns| && StreamOk(s, c)
    ensures |NextStep(s, b).conns| == |s.conns| && StreamOk(NextStep(s, b), c)
  {
    match b
    case Read(d, chunk) => ReadKeeps(s.jobs, s.conns[c], chunk);
    case Write(d, n) =>
      if c == d { WriteKeeps(s.jobs, s.conns[c], n); }
    case _ =>
  }

  lemma StreamKeeps(s: State, a: Action, c: nat)
    requires PlacesInv(s) && Enabled(s, a) && c < |s.conns| && StreamOk(s, c)
    ensures |Next(s, a).conns| == |s.conns| && StreamOk(Next(s, a), c)
  {
    match a
    case Back(b) => StreamBack(s, b, c);
    case Deliver(d) => StreamDeliver(s, d, c);
    case Loop(i, la) =>
      if la.RunTask? { StreamRun(s, i, c); }
    case _ =>
  }

  lemma {:induction false} ContentAlways(s: State, acts: seq<Action>)
    requires ContentInv(s)
    ensures ContentInv(Exec(s, acts)) && |Exec(s, acts).conns| == |s.conns|
  {
    if acts != [] {
      ContentAlways(s, acts[..|acts| - 1]);
      var t, a := Exec(s, acts[..|acts| - 1]), acts[|acts| - 1];
      if Enabled(t, a) {
        PlacesKeep(t, a);
        forall c | 0 <= c < |t.conns|
          ensures |Next(t, a).conns| == |t.conns| && StreamOk(Next(t, a), c)
        {
          StreamKeeps(t, a, c);
        }
        assert |Next(t, a).conns| == |t.conns|;
      }
    }
  }

  lemma ContentInit(s: State)
    requires Init(s)
    ensures ContentInv(s)
  {
    PlacesInit(s);
    forall c | 0 <= c < |s.conns|
      ensures StreamOk(s, c)
    {
      assert s.conns[c] == Conn([], [], [], [], [], []);
      assert Bodies([], []) == [] && Replies([]) == [] && EncodeAll([]) == [];
    }
  }

  // ---------------------------------------------------------------- any number of workers

  /** The bytes written followed by those waiting are framed messages, one for each job appended, that
      answer its request. */
  ghost predicate AnsweredBy(jobs: seq<Job>, x: Conn, replies: seq<Bytes>)
  {
    && x.wire + x.output == EncodeAll(replies) && |replies| == |x.done|
    && forall i :: 0 <= i < |x.done| ==> x.done[i] < |jobs| && Answers(replies[i], jobs[x.done[i]].body)
  }

  lemma WrittenAnswers(jobs: seq<Job>, x: Conn)
    requires Written(jobs, x)
    ensures exists replies :: AnsweredBy(jobs, x, replies)
  {
    var bodies := Bodies(jobs, x.done);
    BodiesAt(jobs, x.done);
    forall i | 0 <= i < |x.done|
      ensures Answers(Replies(bodies)[i], jobs[x.done[i]].body)
    {
      ReplyAnswers(bodies[i]);
    }
    assert AnsweredBy(jobs, x, Replies(bodies));
  }

  /** With any number of workers, on every connection, open or closed: the bytes written (as many as the
      kernel accepted in the run) followed by those waiting are framed answers to the jobs appended, each
      a job delivered from this very connection and none appended twice; and the bytes of a well-formed
      stream read in the run are the framed requests delivered followed by those still buffered. */
  lemma {:induction false} StreamsCorrect(s0: State, acts: seq<Action>, c: nat)
    requires Init(s0) && c < |s0.conns|
    ensures var s := Exec(s0, acts); c < |s.conns| && var x := s.conns[c];
            && (exists replies :: AnsweredBy(s.jobs, x, replies)) && |x.wire| == Accepted(s0, acts, c)
            && NoRepeats(x.done) && (forall i :: 0 <= i < |x.done| ==> x.done[i] in x.mine)
            && (WellFormed(BytesRead(s0, acts, c)) ==>
                  BytesRead(s0, acts, c) == EncodeAll(Bodies(s.jobs, x.mine)) + x.input)
  {
    ContentInit(s0);
    ContentAlways(s0, acts);
    StreamsAre(s0, acts, c);
    assert StreamOk(Exec(s0, acts), c);
    WrittenAnswers(Exec(s0, acts).jobs, Exec(s0, acts).conns[c]);
    DoneOnceFromMine(Exec(s0, acts), c);
  }

  // ---------------------------------------------------------------- the end-to-end theorem

  /** Requests short enough that request and reply both fit the framing. */
  predicate Short(ms: seq<Bytes>)
  {
    forall i :: 0 <= i < |ms| ==> |ms[i]| + |PREFIX| <= MAX_BODY
  }

  /** Requests that the server can answer: short ones with no NUL before the last byte. */
  predicate Answerable(ms: seq<Bytes>)
  {
    Short(ms) && forall i :: 0 <= i < |ms| ==> NoEarlyNul(ms[i])
  }

  /** Everything delivered from the connection has been answered and written. */
  predicate Settled(x: Conn) { x.done == x.mine && x.output == [] && Pick(x.input) == Incomplete }

  /** The i-th message answers the i-th request, for as many messages as there are. */
  ghost predicate InAnswer(msgs: seq<Bytes>, ms: seq<Bytes>)
  {
    |msgs| <= |ms| && forall i :: 0 <= i < |msgs| ==> Answers(msgs[i], ms[i])
  }

  lemma RepliesAnswer(msgs: seq<Bytes>, ms: seq<Bytes>)
    requires msgs <= Replies(ms)
    ensures InAnswer(msgs, ms)
  {
    forall i | 0 <= i < |msgs|
      ensures Answers(msgs[i], ms[i])
    {
      ReplyAnswers(ms[i]);
    }
  }

  /** The client has decoded one answer to each request, in order, and nothing else. */
  ghost predicate AllAnswered(wire: Bytes, ms: seq<Bytes>)
  {
    var d := Drain(wire);
    InAnswer(d.msgs, ms) && |d.msgs| == |ms| && d.rest == [] && d.verdict == Waiting
  }

  /** End to end: with one worker, for a client from which the run has read (any prefix of) the framed
      requests ms, however reads, chunks, threads and writes interleave, the i-th message the client
      decodes from the bytes the kernel accepted is the text followed by the i-th request, whether or
      not the connection has closed meanwhile. Once all requests have been read and everything has
      settled, all of them are answered, and that comes about only for requests without an early NUL. */
  lemma {:induction false} EchoCorrect(s0: State, acts: seq<Action>, c: nat, ms: seq<Bytes>)
    requires Init(s0) && |s0.pool.workers| == 1 && c < |s0.conns|
    requires Short(ms) && BytesRead(s0, acts, c) <= EncodeAll(ms)
    ensures var s := Exec(s0, acts); c < |s.conns| && var x := s.conns[c];
            && InAnswer(Drain(x.wire).msgs, ms) && |x.wire| == Accepted(s0, acts, c)
            && (BytesRead(s0, acts, c) == EncodeAll(ms) && Settled(x) ==> AllAnswered(x.wire, ms) && Answerable(ms))
  {
    ContentInit(s0);
    ContentAlways(s0, acts);
    AnswersInOrder(s0, acts, c);
    StreamsAre(s0, acts, c);
    var s := Exec(s0, acts);
    assert StreamOk(s, c);
    ClientSees(s.jobs, s.conns[c], ms);
    RepliesAnswer(Drain(s.conns[c].wire).msgs, ms);
  }

  lemma RepliesPrefix(xs: seq<Bytes>, ms: seq<Bytes>)
    requires xs <= ms && Short(ms)
    ensures Replies(xs) <= Replies(ms) && ValidAll(Replies(xs))
  {
  }

  lemma WireDecodes(wire: Bytes, output: Bytes, replies: seq<Bytes>)
    requires wire + output == EncodeAll(replies) && ValidAll(replies)
    ensures Drain(wire).msgs <= replies
    ensures output == [] ==> Drain(wire) == Drained(replies, [], Waiting)
  {
    DrainPrefix(wire, replies);
    if output == [] {
      assert wire + output == wire;
    }
  }

  lemma DoneCopyable(jobs: seq<Job>, x: Conn)
    requires Written(jobs, x)
    ensures forall i :: 0 <= i < |Bodies(jobs, x.done)| ==> NoEarlyNul(Bodies(jobs, x.done)[i])
  {
    BodiesAt(jobs, x.done);
    assert forall i :: 0 <= i < |x.done| ==> Copyable(jobs, x.done[i]);
  }

  lemma {:induction false} ClientSees(jobs: seq<Job>, x: Conn, ms: seq<Bytes>)
    requires Written(jobs, x) && Parsed(jobs, x) && x.done <= x.mine
    requires Short(ms) && x.received <= EncodeAll(ms)
    ensures Drain(x.wire).msgs <= Replies(ms)
    ensures x.received == EncodeAll(ms) && Settled(x) ==>
              Drain(x.wire) == Drained(Replies(ms), [], Waiting) && Answerable(ms)
  {
    DeliveredPrefix(jobs, x, ms);
    BodiesPrefix(jobs, x.done, x.mine);
    var done := Bodies(jobs, x.done);
    DoneCopyable(jobs, x);
    RepliesPrefix(done, ms);
    WireDecodes(x.wire, x.output, Replies(done));
  }

  /** The requests delivered so far are a prefix of those sent, and all of them when nothing is left. */
  lemma {:induction false} DeliveredPrefix(jobs: seq<Job>, x: Conn, ms: seq<Bytes>)
    requires Parsed(jobs, x) && Short(ms) && x.received <= EncodeAll(ms)
    ensures Bodies(jobs, x.mine) <= ms
    ensures x.received == EncodeAll(ms) && Pick(x.input) == Incomplete ==> Bodies(jobs, x.mine) == ms
  {
    assert ValidAll(ms);
    DrainPrefix(x.received, ms);
    var bodies := Bodies(jobs, x.mine);
    var e := EncodeAll(bodies);
    assert e == x.received[..|e|];
    DrainPrefix(e, ms);
    DrainEncode(bodies, []);
    assert e + [] == e;
    if Pick(x.input) == Incomplete {
      DrainEncode(bodies, x.input);
    }
  }
}
