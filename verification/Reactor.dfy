/** One event loop with all its connections: accepting, waiting, handling each reported channel,
    running queued sends and destroying connections, in every order. */
module Reactor {
  import opened Framing
  import opened Interest
  import opened Connections

  /** One entry of the vector returned by `Epoll::loop`. */
  datatype Ready = Ready(who: nat, revents: Mask)

  /** `destroyed` holds the connections whose last reference is gone; `freed` tells that one of them
      was used after that, through the raw pointers of a batch or of a queued task. */
  datatype State = State(poll: Poll, links: seq<Link>, batch: seq<Ready>, destroyed: set<nat>, freed: bool)

  const INIT := State(Poll(map[], false), [], [], {}, false)

  datatype Action =
    | Accept(fd: int)
    | Wait(ready: seq<Ready>)
    | Handle(eof: bool, writen: int)    // the head of the batch, with what read or send would return
    | RunSend(who: nat, body: Bytes)    // a queued or direct sendinloop
    | Destroy(who: nat)                 // the last reference is dropped and the fd closed

  predicate Alive(s: State, i: int) { 0 <= i < |s.links| && i !in s.destroyed }

  predicate Reported(s: State, r: Ready)
  {
    && Alive(s, r.who)
    && s.links[r.who].fd in s.poll.kernel
    && r.revents != {} && r.revents <= s.poll.kernel[s.links[r.who].fd] + {Err, Hup}
  }

  predicate Distinct(batch: seq<Ready>)
  {
    forall i, j :: 0 <= i < j < |batch| ==> batch[i].who != batch[j].who
  }

  predicate Enabled(s: State, a: Action)
  {
    && !s.poll.exited && !s.freed
    && match a
       case Accept(fd) => forall i :: 0 <= i < |s.links| && Alive(s, i) ==> s.links[i].fd != fd
       case Wait(ready) => s.batch == [] && Distinct(ready) && forall i :: 0 <= i < |ready| ==> Reported(s, ready[i])
       case Handle(_, writen) =>
         && s.batch != [] && s.batch[0].who < |s.links|
         && -1 <= writen <= |s.links[s.batch[0].who].output|
       case RunSend(who, _) => who < |s.links|
       case Destroy(who) => Alive(s, who)
  }

  function With(s: State, i: nat, j: Joint): State
    requires i < |s.links|
  {
    s.(poll := j.poll, links := s.links[i := j.link])
  }

  function At(s: State, i: nat): Joint
    requires i < |s.links|
  {
    Joint(s.poll, s.links[i])
  }

  /** `Channel::handleevent` on a client channel. */
  function React(j: Joint, revents: Mask, eof: bool, writen: int): Joint
    requires -1 <= writen <= |j.link.output|
  {
    match Dispatch(revents)
    case OnClose => AfterHangUp(j)
    case OnRead => if eof then AfterHangUp(j) else j
    case OnWrite => AfterWrite(j, writen)
    case OnError => AfterHangUp(j)
  }

  function Next(s: State, a: Action): State
    requires Enabled(s, a)
  {
    match a
    case Accept(fd) =>
      var j := Opened(s.poll, fd);
      s.(poll := j.poll, links := s.links + [j.link])
    case Wait(ready) => s.(batch := ready)
    case Handle(eof, writen) =>
      var i := s.batch[0].who;
      if !Alive(s, i) then s.(freed := true)
      else With(s.(batch := s.batch[1..]), i, React(At(s, i), s.batch[0].revents, eof, writen))
    case RunSend(who, body) =>
      if !Alive(s, who) then s.(freed := true) else With(s, who, AfterSend(At(s, who), body))
    case Destroy(who) =>
      s.(destroyed := s.destroyed + {who}, poll := s.poll.(kernel := s.poll.kernel - {s.links[who].fd}))
  }

  /** The state after a sequence of actions; an action that is not enabled does not happen. */
  function Exec(acts: seq<Action>): State
  {
    if acts == [] then INIT
    else
      var s := Exec(acts[..|acts| - 1]);
      if Enabled(s, acts[|acts| - 1]) then Next(s, acts[|acts| - 1]) else s
  }

  // ---------------------------------------------------------------- invariant

  /** What is true of one living connection while the process lives. */
  ghost predicate Registered(p: Poll, l: Link)
  {
    if l.disconnect then l.chan.inepoll && l.fd !in p.kernel else Armed(p, l)
  }

  /** What is true of every connection, also after its end. */
  ghost predicate Kept(l: Link)
  {
    Streamed(l) && l.hangups == (if l.disconnect then 1 else 0)
  }

  ghost predicate LinkOk(s: State, i: nat)
    requires i < |s.links|
  {
    Kept(s.links[i]) && (!s.poll.exited && Alive(s, i) ==> Registered(s.poll, s.links[i]))
  }

  ghost predicate Pending(s: State, r: Ready)
  {
    && r.who < |s.links| && (Alive(s, r.who) ==> !s.links[r.who].disconnect)
    && r.revents <= {In, Out, Err, Hup}
  }

  /** No two living connections share an fd. */
  ghost predicate OwnFds(s: State)
  {
    forall i, j :: 0 <= i < j < |s.links| && Alive(s, i) && Alive(s, j) ==> s.links[i].fd != s.links[j].fd
  }

  ghost predicate Owns(s: State, i: nat, fd: int) { Alive(s, i) && s.links[i].fd == fd }

  ghost predicate Owned(s: State)
  {
    forall fd :: fd in s.poll.kernel ==> exists i :: Owns(s, i, fd)
  }

  ghost predicate Inv(s: State)
  {
    && (forall i :: 0 <= i < |s.links| ==> LinkOk(s, i))
    && (forall i :: i in s.destroyed ==> i < |s.links|)
    && OwnFds(s)
    && Owned(s)
    && Distinct(s.batch)
    && (forall i :: 0 <= i < |s.batch| ==> Pending(s, s.batch[i]))
  }

  /** Changing one living connection and only its own table entry keeps every other's facts. */
  lemma WithKeeps(s: State, i: nat, j: Joint)
    requires Inv(s) && Alive(s, i) && !s.poll.exited
    requires j.link.fd == s.links[i].fd && Kept(j.link) && (!j.poll.exited ==> Registered(j.poll, j.link))
    requires j.poll.kernel - {j.link.fd} == s.poll.kernel - {j.link.fd}
    requires j.link.disconnect ==> s.links[i].disconnect || forall k :: 0 <= k < |s.batch| ==> s.batch[k].who != i
    ensures Inv(With(s, i, j))
  {
    var t := With(s, i, j);
    forall k | 0 <= k < |t.links|
      ensures LinkOk(t, k)
    {
      if k != i {
        assert LinkOk(s, k);
        if Alive(s, k) {
          OtherEntry(s, j.poll, i, k);
        }
      }
    }
    WithOwned(s, i, j);
    assert OwnFds(t);
    forall k | 0 <= k < |t.batch|
      ensures Pending(t, t.batch[k])
    {
      assert Pending(s, s.batch[k]);
    }
  }

  lemma WithOwned(s: State, i: nat, j: Joint)
    requires Owned(s) && Alive(s, i) && j.link.fd == s.links[i].fd
    requires j.poll.kernel - {j.link.fd} == s.poll.kernel - {j.link.fd}
    ensures Owned(With(s, i, j))
  {
    var t := With(s, i, j);
    forall fd | fd in t.poll.kernel
      ensures exists k :: Owns(t, k, fd)
    {
      if fd == j.link.fd {
        assert Owns(t, i, fd);
      } else {
        assert fd in s.poll.kernel - {j.link.fd};
        var k :| Owns(s, k, fd);
        assert Owns(t, k, fd);
      }
    }
  }

  lemma SameEntry(p: Poll, q: Poll, fd: int, l: Link)
    requires p.kernel - {fd} == q.kernel - {fd} && l.fd != fd && Registered(q, l)
    ensures Registered(p, l)
  {
    assert l.fd in p.kernel <==> l.fd in p.kernel - {fd};
    assert l.fd in q.kernel <==> l.fd in q.kernel - {fd};
    if l.fd in p.kernel {
      assert (p.kernel - {fd})[l.fd] == (q.kernel - {fd})[l.fd];
    }
  }

  lemma OtherEntry(s: State, p: Poll, i: nat, k: nat)
    requires Inv(s) && Alive(s, i) && Alive(s, k) && i != k && !s.poll.exited
    requires p.kernel - {s.links[i].fd} == s.poll.kernel - {s.links[i].fd}
    ensures Registered(p, s.links[k])
  {
    assert LinkOk(s, k);
    SameEntry(p, s.poll, s.links[i].fd, s.links[k]);
  }

  lemma AcceptKeeps(s: State, fd: int)
    requires Inv(s) && Enabled(s, Accept(fd))
    ensures Inv(Next(s, Accept(fd))) && !Next(s, Accept(fd)).poll.exited
  {
    var j := Opened(s.poll, fd);
    var t := Next(s, Accept(fd));
    assert fd !in s.poll.kernel;
    OpenedArmed(s.poll, fd);
    forall k | 0 <= k < |s.links|
      ensures LinkOk(t, k)
    {
      assert LinkOk(s, k);
      if Alive(s, k) {
        assert t.poll.kernel - {fd} == s.poll.kernel - {fd};
        SameEntry(t.poll, s.poll, fd, s.links[k]);
      }
    }
    AcceptOwned(s, fd);
    forall i | 0 <= i < |t.batch|
      ensures Pending(t, t.batch[i])
    {
      assert Pending(s, s.batch[i]);
    }
  }

  lemma AcceptOwned(s: State, fd: int)
    requires Inv(s) && Enabled(s, Accept(fd))
    requires Next(s, Accept(fd)).poll.kernel == s.poll.kernel[fd := {In}]
    ensures Owned(Next(s, Accept(fd)))
  {
    var t := Next(s, Accept(fd));
    forall g | g in t.poll.kernel
      ensures exists k :: Owns(t, k, g)
    {
      if g == fd {
        assert Owns(t, |s.links|, g);
      } else {
        var k :| Owns(s, k, g);
        assert Owns(t, k, g);
      }
    }
  }

  lemma DestroyOwned(s: State, who: nat)
    requires Inv(s) && Enabled(s, Destroy(who))
    ensures Owned(Next(s, Destroy(who)))
  {
    var t := Next(s, Destroy(who));
    forall g | g in t.poll.kernel
      ensures exists k :: Owns(t, k, g)
    {
      var k :| Owns(s, k, g);
      assert Owns(t, k, g);
    }
  }

  lemma DestroyKeeps(s: State, who: nat)
    requires Inv(s) && Enabled(s, Destroy(who))
    ensures Inv(Next(s, Destroy(who)))
  {
    var t, fd := Next(s, Destroy(who)), s.links[who].fd;
    forall k | 0 <= k < |s.links|
      ensures LinkOk(t, k)
    {
      assert LinkOk(s, k);
      if Alive(t, k) {
        OtherEntry(s, t.poll, who, k);
      }
    }
    DestroyOwned(s, who);
    forall i | 0 <= i < |t.batch|
      ensures Pending(t, t.batch[i])
    {
      assert Pending(s, s.batch[i]);
    }
  }

  lemma {:induction false} WaitKeeps(s: State, ready: seq<Ready>)
    requires Inv(s) && Enabled(s, Wait(ready))
    ensures Inv(Next(s, Wait(ready)))
  {
    var t := Next(s, Wait(ready));
    forall i | 0 <= i < |ready|
      ensures Pending(t, ready[i])
    {
      assert Reported(s, ready[i]);
      assert LinkOk(s, ready[i].who);
      assert ready[i].revents <= {In, Out} + {Err, Hup};
    }
    assert forall k :: 0 <= k < |s.links| ==> LinkOk(s, k) ==> LinkOk(t, k);
    assert Owned(s) ==> Owned(t) by {
      forall fd | fd in s.poll.kernel && Owned(s)
        ensures exists k :: Owns(t, k, fd)
      {
        var k :| Owns(s, k, fd);
        assert Owns(t, k, fd);
      }
    }
  }

  lemma HandleKeeps(s: State, eof: bool, writen: int)
    requires Inv(s) && Enabled(s, Handle(eof, writen))
    ensures Inv(Next(s, Handle(eof, writen))) && !Next(s, Handle(eof, writen)).poll.exited
  {
    var i := s.batch[0].who;
    assert Pending(s, s.batch[0]) && LinkOk(s, i);
    if Alive(s, i) {
      UnqueueKeeps(s);
      WriteKeeps(At(s, i), writen);
      HangUpKeeps(At(s, i));
      WithKeeps(s.(batch := s.batch[1..]), i, React(At(s, i), s.batch[0].revents, eof, writen));
    } else {
      FreedKeeps(s);
    }
  }

  lemma FreedKeeps(s: State)
    requires Inv(s)
    ensures Inv(s.(freed := true))
  {
    SameLinksKeep(s, s.(freed := true));
  }

  /** The facts about connections do not depend on the batch. */
  lemma SameLinksKeep(s: State, t: State)
    requires Inv(s) && t.poll == s.poll && t.links == s.links && t.destroyed == s.destroyed
    requires Distinct(t.batch) && forall k :: 0 <= k < |t.batch| ==> t.batch[k] in s.batch
    ensures Inv(t)
  {
    forall k | 0 <= k < |t.links|
      ensures LinkOk(t, k)
    {
      assert LinkOk(s, k);
    }
    forall fd | fd in t.poll.kernel
      ensures exists k :: Owns(t, k, fd)
    {
      var k :| Owns(s, k, fd);
      assert Owns(t, k, fd);
    }
    forall k | 0 <= k < |t.batch|
      ensures Pending(t, t.batch[k])
    {
      assert Pending(s, t.batch[k]);
    }
  }

  lemma UnqueueKeeps(s: State)
    requires Inv(s) && s.batch != []
    ensures Inv(s.(batch := s.batch[1..]))
    ensures forall k :: 0 <= k < |s.batch[1..]| ==> s.batch[1..][k].who != s.batch[0].who
  {
    SameLinksKeep(s, s.(batch := s.batch[1..]));
  }

  lemma SendTaskKeeps(s: State, who: nat, body: Bytes)
    requires Inv(s) && Enabled(s, RunSend(who, body))
    ensures Inv(Next(s, RunSend(who, body)))
    ensures Next(s, RunSend(who, body)).poll.exited <==> Alive(s, who) && s.links[who].disconnect
  {
    assert LinkOk(s, who);
    if Alive(s, who) {
      SendKeeps(At(s, who), body);
      WithKeeps(s, who, AfterSend(At(s, who), body));
    } else {
      FreedKeeps(s);
    }
  }

  /** Every step keeps the invariant, refuses an epoll_ctl exactly if it is a send on a living
      connection that has hung up, and uses a destroyed connection exactly if it is a send on one or
      handles a batch entry of one. */
  lemma NextKeeps(s: State, a: Action)
    requires Inv(s) && Enabled(s, a)
    ensures Inv(Next(s, a))
    ensures Next(s, a).poll.exited <==> a.RunSend? && Alive(s, a.who) && s.links[a.who].disconnect
    ensures Next(s, a).freed <==> (a.RunSend? && !Alive(s, a.who)) || (a.Handle? && !Alive(s, s.batch[0].who))
  {
    match a
    case Accept(fd) => AcceptKeeps(s, fd);
    case Wait(ready) => WaitKeeps(s, ready);
    case Handle(eof, writen) => HandleKeeps(s, eof, writen);
    case RunSend(who, body) => SendTaskKeeps(s, who, body);
    case Destroy(who) => DestroyKeeps(s, who);
  }

  lemma {:induction false} Always(acts: seq<Action>)
    ensures Inv(Exec(acts))
  {
    if acts != [] {
      Always(acts[..|acts| - 1]);
      var s := Exec(acts[..|acts| - 1]);
      if Enabled(s, acts[|acts| - 1]) {
        NextKeeps(s, acts[|acts| - 1]);
      }
    }
  }

  // ---------------------------------------------------------------- theorems over every run

  /** The bodies of the sends run on connection i, in order, told from the actions. */
  function Sends(acts: seq<Action>, i: nat): seq<Bytes>
  {
    if acts == [] then []
    else
      var before, a := acts[..|acts| - 1], acts[|acts| - 1];
      Sends(before, i)
      + (if Enabled(Exec(before), a) && a.RunSend? && a.who == i && Alive(Exec(before), i) then [a.body] else [])
  }

  lemma SentStep(s: State, a: Action, i: nat)
    requires Inv(s) && Enabled(s, a) && i < |Next(s, a).links|
    ensures i < |s.links| ==>
              Next(s, a).links[i].sent
              == s.links[i].sent + (if a.RunSend? && a.who == i && Alive(s, i) then [a.body] else [])
    ensures i >= |s.links| ==> a.Accept? && Next(s, a).links[i].sent == []
  {
    match a
    case Accept(fd) =>
      assert fd !in s.poll.kernel;
      OpenedArmed(s.poll, fd);
    case Wait(_) =>
    case Handle(eof, writen) => if Alive(s, s.batch[0].who) { HandleOutcome(s, eof, writen); }
    case RunSend(who, body) =>
      assert LinkOk(s, who);
      SendKeeps(At(s, who), body);
    case Destroy(_) =>
  }

  lemma {:induction false} NotYet(acts: seq<Action>, i: nat)
    requires i >= |Exec(acts).links|
    ensures Sends(acts, i) == []
  {
    if acts != [] { NotYet(acts[..|acts| - 1], i); }
  }

  /** What is recorded as sent is what the actions sent. */
  lemma {:induction false} SentAreSends(acts: seq<Action>, i: nat)
    requires i < |Exec(acts).links|
    ensures Exec(acts).links[i].sent == Sends(acts, i)
  {
    var before, a := acts[..|acts| - 1], acts[|acts| - 1];
    var s := Exec(before);
    Always(before);
    if i >= |s.links| {
      NotYet(before, i);
    } else {
      SentAreSends(before, i);
    }
    if Enabled(s, a) {
      SentStep(s, a, i);
    }
  }

  /** Stream refinement: in every run the bytes on a connection's wire followed by its output buffer
      are the frames of the bodies that the run's sends gave to it, in order, so its peer has decoded a
      prefix of those, and all of them once the buffer is empty. */
  lemma {:induction false} StreamRefinement(acts: seq<Action>, i: nat)
    requires i < |Exec(acts).links|
    ensures var l, bodies := Exec(acts).links[i], Sends(acts, i);
            && l.wire + l.output == EncodeAll(bodies)
            && (ValidAll(bodies) ==>
                  && Drain(l.wire).msgs <= bodies
                  && (l.output == [] ==> Drain(l.wire) == Drained(bodies, [], Waiting)))
  {
    Always(acts);
    var l := Exec(acts).links[i];
    assert LinkOk(Exec(acts), i);
    SentAreSends(acts, i);
    if ValidAll(l.sent) {
      PeerDecodes(l);
    }
  }

  // ---------------------------------------------------------------- what an event does

  predicate CanRead(revents: Mask) { In in revents || Pri in revents }

  predicate CanWrite(revents: Mask) { Out in revents }

  /** The step handles the batch entry of connection i. */
  predicate Handles(s: State, a: Action, i: nat)
  {
    Enabled(s, a) && a.Handle? && s.batch[0].who == i && Alive(s, i)
  }

  /** It read end of file, or the event was neither readable nor writable. */
  predicate HangsUp(s: State, a: Action, i: nat)
  {
    Handles(s, a, i) && var r := s.batch[0].revents; if CanRead(r) then a.eof else !CanWrite(r)
  }

  predicate WritesOut(s: State, a: Action, i: nat)
  {
    Handles(s, a, i) && CanWrite(s.batch[0].revents) && !CanRead(s.batch[0].revents)
  }

  /** The connection after writing: `writen` bytes moved to the wire if it is positive, and completion
      exactly if none is left. */
  predicate Wrote(l: Link, m: Link, writen: int)
    requires -1 <= writen <= |l.output|
  {
    && (writen > 0 ==> m.wire == l.wire + l.output[..writen] && m.output == l.output[writen..])
    && (writen <= 0 ==> m.wire == l.wire && m.output == l.output)
    && m.completions == l.completions + (if m.output == [] then 1 else 0)
    && m.hangups == l.hangups && m.disconnect == l.disconnect && m.sent == l.sent
  }

  /** What neither a hang-up nor a write touches. */
  predicate SameStreams(l: Link, m: Link)
  {
    m.wire == l.wire && m.output == l.output && m.sent == l.sent && m.completions == l.completions
  }

  lemma HandleOutcome(s: State, eof: bool, writen: int)
    requires Inv(s) && Enabled(s, Handle(eof, writen)) && Alive(s, s.batch[0].who)
    ensures var t, i, a := Next(s, Handle(eof, writen)), s.batch[0].who, Handle(eof, writen);
            && |t.links| == |s.links|
            && (forall k :: 0 <= k < |s.links| && k != i ==> t.links[k] == s.links[k])
            && (WritesOut(s, a, i) ==> Wrote(s.links[i], t.links[i], writen))
            && (HangsUp(s, a, i) ==>
                  SameStreams(s.links[i], t.links[i]) && t.links[i].hangups == s.links[i].hangups + 1 && t.links[i].disconnect)
            && (!WritesOut(s, a, i) && !HangsUp(s, a, i) ==> t.links[i] == s.links[i])
  {
    var i := s.batch[0].who;
    assert Pending(s, s.batch[0]) && LinkOk(s, i);
    WriteKeeps(At(s, i), writen);
    HangUpKeeps(At(s, i));
  }

  lemma OtherSteps(s: State, a: Action, i: nat)
    requires Inv(s) && Enabled(s, a) && i < |s.links| && !Handles(s, a, i)
    ensures var l, m := s.links[i], Next(s, a).links[i];
            m.wire == l.wire && m.completions == l.completions && m.hangups == l.hangups && m.disconnect == l.disconnect
  {
    if a.Handle? && Alive(s, s.batch[0].who) {
      HandleOutcome(s, a.eof, a.writen);
    } else if a.RunSend? && a.who == i {
      assert LinkOk(s, i);
      SendKeeps(At(s, i), a.body);
    }
  }

  /** Event dispatch over every run: at each step a connection's hang-ups grow, by one, exactly if the
      step handles a readable event of it with end of file or one that is neither readable nor
      writable; bytes reach its wire and completion fires only if it handles a writable event that is
      not readable, and then exactly the bytes `send` accepted; a readable event without end of file
      changes nothing of it. */
  lemma {:induction false} EventOutcome(acts: seq<Action>, k: nat, i: nat)
    requires k < |acts| && i < |Exec(acts[..k]).links|
    ensures var s, a, t := Exec(acts[..k]), acts[k], Exec(acts[..k + 1]);
            && i < |t.links| && var l, m := s.links[i], t.links[i];
               && m.hangups == l.hangups + (if HangsUp(s, a, i) then 1 else 0)
               && (WritesOut(s, a, i) ==> Wrote(l, m, a.writen))
               && (!WritesOut(s, a, i) ==> m.wire == l.wire && m.completions == l.completions)
               && (Handles(s, a, i) && CanRead(s.batch[0].revents) && !a.eof ==> m == l)
  {
    var s, a := Exec(acts[..k]), acts[k];
    Always(acts[..k]);
    assert acts[..k + 1][..k] == acts[..k];
    if Handles(s, a, i) {
      HandleOutcome(s, a.eof, a.writen);
    } else if Enabled(s, a) {
      OtherSteps(s, a, i);
    }
  }

  /** All entries that epoll reported, in order, told from the actions. */
  function AllReported(acts: seq<Action>): seq<Ready>
  {
    if acts == [] then []
    else
      var before, a := acts[..|acts| - 1], acts[|acts| - 1];
      AllReported(before) + Reporting(Exec(before), a)
  }

  /** The entries handled, in order. */
  function AllHandled(acts: seq<Action>): seq<Ready>
  {
    if acts == [] then []
    else
      var before, a := acts[..|acts| - 1], acts[|acts| - 1];
      AllHandled(before) + Handling(Exec(before), a)
  }

  /** What a step adds to the reports and to the entries handled. */
  function Reporting(s: State, a: Action): seq<Ready> { if a.Wait? && Enabled(s, a) then a.ready else [] }

  function Handling(s: State, a: Action): seq<Ready>
  {
    if a.Handle? && Enabled(s, a) && Alive(s, s.batch[0].who) then [s.batch[0]] else []
  }

  function After(s: State, a: Action): State { if Enabled(s, a) then Next(s, a) else s }

  lemma BatchStep(s: State, a: Action)
    ensures s.batch + Reporting(s, a) == Handling(s, a) + After(s, a).batch
  {
  }

  lemma Requeue(reported: seq<Ready>, handled: seq<Ready>, batch: seq<Ready>, more: seq<Ready>, head: seq<Ready>, rest: seq<Ready>)
    requires reported == handled + batch && batch + more == head + rest
    ensures reported + more == handled + head + rest
  {
    assert reported + more == handled + (batch + more);
  }

  /** Every reported entry is handled once, in the order of the reports. */
  lemma {:induction false} HandledInOrder(acts: seq<Action>)
    ensures AllReported(acts) == AllHandled(acts) + Exec(acts).batch
  {
    if acts != [] {
      var n := |acts| - 1;
      HandledInOrder(acts[..n]);
      var s, a := Exec(acts[..n]), acts[n];
      BatchStep(s, a);
      Requeue(AllReported(acts[..n]), AllHandled(acts[..n]), s.batch, Reporting(s, a), Handling(s, a), After(s, a).batch);
    }
  }

  /** Write-interest: between callbacks of a living process an open connection watches for
      writability, in its own mask and in the kernel's, exactly while bytes wait to be sent. */
  lemma {:induction false} WriteInterest(acts: seq<Action>, i: nat)
    requires Alive(Exec(acts), i) && !Exec(acts).poll.exited && !Exec(acts).links[i].disconnect
    ensures var s := Exec(acts); var l := s.links[i];
            && l.fd in s.poll.kernel && s.poll.kernel[l.fd] == l.chan.events
            && (Out in s.poll.kernel[l.fd] <==> l.output != [])
            && In in l.chan.events
  {
    Always(acts);
    assert LinkOk(Exec(acts), i);
  }

  /** Close at most once: no connection ever runs its close and error callbacks more than once in
      total; a living one that has run them is no longer known to the kernel, whoever had its fd
      before, and living connections never share an fd. */
  lemma {:induction false} CloseAtMostOnce(acts: seq<Action>, i: nat)
    requires i < |Exec(acts).links|
    ensures var s := Exec(acts); var l := s.links[i];
            && l.hangups <= 1
            && (l.hangups == 1 <==> l.disconnect)
            && (l.hangups == 1 && !s.poll.exited && Alive(s, i) ==> l.fd !in s.poll.kernel)
            && (forall j :: 0 <= j < |s.links| && j != i && Alive(s, i) && Alive(s, j) ==> s.links[j].fd != l.fd)
  {
    Always(acts);
    assert LinkOk(Exec(acts), i);
  }

  /** The close branch of handleevent is never taken: no channel asks for EPOLLRDHUP, so epoll never
      reports it; a hang-up shows as end of file when reading, or as an event with neither read nor
      write readiness. */
  lemma {:induction false} CloseBranchDead(acts: seq<Action>, ready: seq<Ready>, k: nat)
    requires Enabled(Exec(acts), Wait(ready)) && k < |ready|
    ensures Dispatch(ready[k].revents) != OnClose
    ensures Dispatch(ready[k].revents) == OnError <==> ready[k].revents <= {Err, Hup}
  {
    Always(acts);
    var s := Exec(acts);
    assert Reported(s, ready[k]);
    assert LinkOk(s, ready[k].who);
    assert ready[k].revents <= {In, Out, Err, Hup};
  }

  /** Step k is a sendinloop on a living connection already hung up. */
  ghost predicate LateSend(acts: seq<Action>, k: nat)
    requires k < |acts|
  {
    var s, a := Exec(acts[..k]), acts[k];
    Enabled(s, a) && a.RunSend? && Alive(s, a.who) && s.links[a.who].disconnect
  }

  ghost predicate SomeLateSend(acts: seq<Action>) { exists k :: 0 <= k < |acts| && LateSend(acts, k) }

  lemma EarlierSteps(acts: seq<Action>, k: nat)
    requires k < |acts| - 1
    ensures LateSend(acts[..|acts| - 1], k) <==> LateSend(acts, k)
  {
    assert acts[..|acts| - 1][..k] == acts[..k];
  }

  lemma SomeLateSendStep(acts: seq<Action>)
    requires acts != []
    ensures SomeLateSend(acts) <==> SomeLateSend(acts[..|acts| - 1]) || LateSend(acts, |acts| - 1)
  {
    var n := |acts| - 1;
    if k :| 0 <= k < n && LateSend(acts[..n], k) {
      EarlierSteps(acts, k);
      assert LateSend(acts, k);
    } else if SomeLateSend(acts) {
      var k :| 0 <= k < |acts| && LateSend(acts, k);
      if k < n {
        EarlierSteps(acts, k);
        assert false;
      }
    }
  }

  /** The process exits on a refused epoll_ctl exactly in the runs where some sendinloop runs on a living
      connection after it hung up: `send` tests disconnect_, the queued sendinloop does not. */
  lemma {:induction false} ExitsIffLateSend(acts: seq<Action>)
    ensures Exec(acts).poll.exited <==> SomeLateSend(acts)
  {
    if acts != [] {
      var n := |acts| - 1;
      ExitsIffLateSend(acts[..n]);
      Always(acts[..n]);
      SomeLateSendStep(acts);
      var s := Exec(acts[..n]);
      if Enabled(s, acts[n]) {
        NextKeeps(s, acts[n]);
      }
    }
  }
}
