/** How long an idle connection stays: a sub-loop's timer, first due after `timeout` and then every
    `interval`, firing on time and running the specified sweep, among arrivals and messages. */
module IdleTimer {
  import opened IdleSweep

  datatype Timer = Timer(timeout: nat, interval: nat)

  /** `due` is the instant the timerfd expires next. */
  datatype State = State(now: int, due: int, conns: seq<Entry>, server: set<int>)

  predicate Init(c: Timer, s: State)
  {
    c.timeout > 0 && c.interval > 0 && s.due == s.now + c.timeout && s.conns == [] && s.server == {}
  }

  datatype Action = Tick | Fire | Insert(fd: int) | Message(fd: int) | Close(fd: int)

  predicate Has(conns: seq<Entry>, fd: int) { exists i :: 0 <= i < |conns| && conns[i].fd == fd }

  predicate Enabled(s: State, a: Action)
  {
    match a
    case Tick => s.now < s.due
    case Fire => s.now == s.due
    case Insert(fd) => !Has(s.conns, fd)
    case Message(fd) => Has(s.conns, fd)
    case Close(fd) => true
  }

  function Touched(conns: seq<Entry>, fd: int, now: int): (r: seq<Entry>)
    ensures |r| == |conns|
    ensures forall i :: 0 <= i < |conns| ==> r[i] == if conns[i].fd == fd then Entry(fd, now) else conns[i]
  {
    seq(|conns|, i requires 0 <= i < |conns| => if conns[i].fd == fd then Entry(fd, now) else conns[i])
  }

  function Next(c: Timer, s: State, a: Action): State
    requires Enabled(s, a)
  {
    match a
    case Tick => s.(now := s.now + 1)
    case Fire =>
      State(s.now, s.now + c.interval, Kept(s.conns, s.now, c.timeout), s.server - ExpiredFds(s.conns, s.now, c.timeout))
    case Insert(fd) => s.(conns := s.conns + [Entry(fd, s.now)], server := s.server + {fd})
    case Message(fd) => s.(conns := Touched(s.conns, fd, s.now))
    case Close(fd) => s.(server := s.server - {fd})
  }

  /** The state after a sequence of actions; an action that is not enabled does not happen. */
  function Exec(c: Timer, s: State, acts: seq<Action>): State
  {
    if acts == [] then s
    else
      var t := Exec(c, s, acts[..|acts| - 1]);
      if Enabled(t, acts[|acts| - 1]) then Next(c, t, acts[|acts| - 1]) else t
  }

  // ---------------------------------------------------------------- invariant

  ghost predicate DueInTime(c: Timer, s: State)
  {
    && s.now <= s.due <= s.now + c.timeout + c.interval
    && forall e :: e in s.conns ==> s.due <= e.lasttime + c.timeout + c.interval
  }

  ghost predicate OneEach(conns: seq<Entry>)
  {
    forall d, e :: d in conns && e in conns && d.fd == e.fd ==> d == e
  }

  ghost predicate ServerKnown(s: State) { forall fd :: fd in s.server ==> Has(s.conns, fd) }

  ghost predicate Inv(c: Timer, s: State) { DueInTime(c, s) && OneEach(s.conns) && ServerKnown(s) }

  lemma HasEntry(conns: seq<Entry>, e: Entry)
    requires e in conns
    ensures Has(conns, e.fd)
  {
    var i :| 0 <= i < |conns| && conns[i] == e;
    assert conns[i].fd == e.fd;
  }

  lemma FireKeeps(c: Timer, s: State)
    requires Inv(c, s) && Enabled(s, Fire)
    ensures Inv(c, Next(c, s, Fire))
  {
    var t := Next(c, s, Fire);
    SpecifiedIs(s.conns, s.now, c.timeout);
    forall fd | fd in t.server
      ensures Has(t.conns, fd)
    {
      var i :| 0 <= i < |s.conns| && s.conns[i].fd == fd;
      assert s.conns[i] in t.conns;
      HasEntry(t.conns, s.conns[i]);
    }
  }

  lemma InsertKeeps(c: Timer, s: State, fd: int)
    requires Inv(c, s) && Enabled(s, Insert(fd))
    ensures Inv(c, Next(c, s, Insert(fd)))
  {
    var t := Next(c, s, Insert(fd));
    forall e | e in s.conns
      ensures e.fd != fd
    {
      HasEntry(s.conns, e);
    }
    forall g | g in t.server
      ensures Has(t.conns, g)
    {
      if g == fd {
        assert t.conns[|s.conns|].fd == g;
      } else {
        var i :| 0 <= i < |s.conns| && s.conns[i].fd == g;
        assert t.conns[i].fd == g;
      }
    }
  }

  lemma MessageKeeps(c: Timer, s: State, fd: int)
    requires Inv(c, s) && Enabled(s, Message(fd))
    ensures Inv(c, Next(c, s, Message(fd)))
  {
    var t := Next(c, s, Message(fd));
    forall e | e in t.conns
      ensures e == Entry(fd, s.now) || (e.fd != fd && e in s.conns)
    {
      var i :| 0 <= i < |t.conns| && t.conns[i] == e;
      assert s.conns[i] in s.conns;
    }
    forall g | g in t.server
      ensures Has(t.conns, g)
    {
      var i :| 0 <= i < |s.conns| && s.conns[i].fd == g;
      assert t.conns[i].fd == g;
    }
  }

  lemma NextKeeps(c: Timer, s: State, a: Action)
    requires Inv(c, s) && Enabled(s, a)
    ensures Inv(c, Next(c, s, a))
  {
    match a
    case Fire => FireKeeps(c, s);
    case Insert(fd) => InsertKeeps(c, s, fd);
    case Message(fd) => MessageKeeps(c, s, fd);
    case _ =>
  }

  lemma {:induction false} Always(c: Timer, s: State, acts: seq<Action>)
    requires Inv(c, s)
    ensures Inv(c, Exec(c, s, acts))
  {
    if acts != [] {
      Always(c, s, acts[..|acts| - 1]);
      var t := Exec(c, s, acts[..|acts| - 1]);
      if Enabled(t, acts[|acts| - 1]) {
        NextKeeps(c, t, acts[|acts| - 1]);
      }
    }
  }

  // ---------------------------------------------------------------- told from the actions

  /** The step happens. */
  predicate Happens(c: Timer, s0: State, acts: seq<Action>)
    requires acts != []
  {
    Enabled(Exec(c, s0, acts[..|acts| - 1]), acts[|acts| - 1])
  }

  function Ticks(c: Timer, s0: State, acts: seq<Action>): nat
  {
    if acts == [] then 0
    else Ticks(c, s0, acts[..|acts| - 1]) + (if acts[|acts| - 1] == Tick && Happens(c, s0, acts) then 1 else 0)
  }

  function Fires(c: Timer, s0: State, acts: seq<Action>): nat
  {
    if acts == [] then 0
    else Fires(c, s0, acts[..|acts| - 1]) + (if acts[|acts| - 1] == Fire && Happens(c, s0, acts) then 1 else 0)
  }

  /** The instant of the last creation or message of a connection under fd. */
  function LastHeard(c: Timer, s0: State, acts: seq<Action>, fd: int): int
  {
    if acts == [] then s0.now
    else
      var before, a := acts[..|acts| - 1], acts[|acts| - 1];
      if (a == Insert(fd) || a == Message(fd)) && Happens(c, s0, acts) then s0.now + Ticks(c, s0, before)
      else LastHeard(c, s0, before, fd)
  }

  /** fd was inserted and its connection has not closed since. */
  predicate OpenSince(c: Timer, s0: State, acts: seq<Action>, fd: int)
  {
    acts != [] &&
    var before, a := acts[..|acts| - 1], acts[|acts| - 1];
    if a == Insert(fd) && Happens(c, s0, acts) then true
    else a != Close(fd) && OpenSince(c, s0, before, fd)
  }

  /** The clock has ticked, and the timer is due at once after `timeout` and then every `interval`. */
  lemma {:induction false} ClockIs(c: Timer, s0: State, acts: seq<Action>)
    requires Init(c, s0)
    ensures var t := Exec(c, s0, acts);
            && t.now == s0.now + Ticks(c, s0, acts)
            && t.due == s0.now + c.timeout + c.interval * Fires(c, s0, acts)
  {
    if acts != [] {
      var n := |acts| - 1;
      ClockIs(c, s0, acts[..n]);
      assert c.interval * (Fires(c, s0, acts[..n]) + 1) == c.interval * Fires(c, s0, acts[..n]) + c.interval;
    }
  }

  lemma HeardStep(c: Timer, s: State, a: Action, e: Entry)
    requires Enabled(s, a) && e in Next(c, s, a).conns
    ensures if a == Insert(e.fd) || a == Message(e.fd) then e.lasttime == s.now else e in s.conns
  {
    match a
    case Fire => SpecifiedIs(s.conns, s.now, c.timeout);
    case Insert(fd) => if e in s.conns { HasEntry(s.conns, e); }
    case Message(fd) =>
      var i :| 0 <= i < |s.conns| && Touched(s.conns, fd, s.now)[i] == e;
      assert s.conns[i] in s.conns;
    case _ =>
  }

  /** An entry's time stamp is the instant of the last creation or message under its fd. */
  lemma {:induction false} HeardIs(c: Timer, s0: State, acts: seq<Action>, e: Entry)
    requires Init(c, s0) && e in Exec(c, s0, acts).conns
    ensures e.lasttime == LastHeard(c, s0, acts, e.fd)
  {
    if acts != [] {
      var n := |acts| - 1;
      var s, a := Exec(c, s0, acts[..n]), acts[n];
      ClockIs(c, s0, acts[..n]);
      if Enabled(s, a) {
        HeardStep(c, s, a, e);
      }
      if e in s.conns {
        HeardIs(c, s0, acts[..n], e);
      }
    }
  }

  lemma FireServer(c: Timer, s: State, fd: int)
    requires Inv(c, s) && Enabled(s, Fire)
    ensures var t := Next(c, s, Fire);
            fd in t.server <==> fd in s.server && Has(t.conns, fd)
    ensures Has(Next(c, s, Fire).conns, fd) ==> Has(s.conns, fd)
  {
    var t := Next(c, s, Fire);
    SpecifiedIs(s.conns, s.now, c.timeout);
    if Has(t.conns, fd) {
      var i :| 0 <= i < |t.conns| && t.conns[i].fd == fd;
      assert t.conns[i] in t.conns;
      HasEntry(s.conns, t.conns[i]);
    }
    if Has(s.conns, fd) {
      var i :| 0 <= i < |s.conns| && s.conns[i].fd == fd;
      assert s.conns[i] in s.conns;
      if !Expired(s.conns[i], s.now, c.timeout) { HasEntry(t.conns, s.conns[i]); }
    }
  }

  lemma HasStep(c: Timer, s: State, a: Action, fd: int)
    requires Enabled(s, a) && a != Fire
    ensures Has(Next(c, s, a).conns, fd) <==> Has(s.conns, fd) || a == Insert(fd)
  {
    var t := Next(c, s, a);
    if a.Insert? {
      if i :| 0 <= i < |s.conns| && s.conns[i].fd == fd {
        assert t.conns[i].fd == fd;
      }
      assert t.conns[|s.conns|].fd == a.fd;
    } else if a.Message? {
      if i :| 0 <= i < |s.conns| && s.conns[i].fd == fd {
        assert t.conns[i].fd == fd;
      }
      if i :| 0 <= i < |t.conns| && t.conns[i].fd == fd {
        assert s.conns[i].fd == fd;
      }
    }
  }

  /** The server lists exactly the connections of the sub-loop that have not closed since they came. */
  lemma {:induction false} ServerIs(c: Timer, s0: State, acts: seq<Action>, fd: int)
    requires Init(c, s0)
    ensures var t := Exec(c, s0, acts); fd in t.server <==> Has(t.conns, fd) && OpenSince(c, s0, acts, fd)
  {
    if acts != [] {
      var n := |acts| - 1;
      var s, a := Exec(c, s0, acts[..n]), acts[n];
      ServerIs(c, s0, acts[..n], fd);
      assert Inv(c, s0);
      Always(c, s0, acts[..n]);
      if Enabled(s, a) {
        if a == Fire { FireServer(c, s, fd); } else { HasStep(c, s, a, fd); }
      }
    }
  }

  // ---------------------------------------------------------------- one idle connection

  /** The connection receives nothing more and its fd is not used again. */
  predicate Silent(acts: seq<Action>, fd: int)
  {
    forall i :: 0 <= i < |acts| ==> acts[i] != Message(fd) && acts[i] != Insert(fd)
  }

  /** It is still there unchanged, or gone after more than `timeout` of silence. */
  ghost predicate Tracked(c: Timer, t: State, e: Entry)
  {
    e in t.conns || (!Has(t.conns, e.fd) && t.now > e.lasttime + c.timeout)
  }

  lemma FireTracks(c: Timer, t: State, e: Entry)
    requires Inv(c, t) && Enabled(t, Fire) && Tracked(c, t, e)
    ensures Tracked(c, Next(c, t, Fire), e)
  {
    var u := Next(c, t, Fire);
    SpecifiedIs(t.conns, t.now, c.timeout);
    if Has(u.conns, e.fd) {
      var i :| 0 <= i < |u.conns| && u.conns[i].fd == e.fd;
      assert u.conns[i] in t.conns;
      HasEntry(t.conns, u.conns[i]);
    }
  }

  lemma MessageTracks(c: Timer, t: State, fd: int, e: Entry)
    requires Enabled(t, Message(fd)) && fd != e.fd && Tracked(c, t, e)
    ensures Tracked(c, Next(c, t, Message(fd)), e)
  {
    var u := Next(c, t, Message(fd));
    if e in t.conns {
      var i :| 0 <= i < |t.conns| && t.conns[i] == e;
      assert u.conns[i] == e;
    }
    if Has(u.conns, e.fd) {
      var i :| 0 <= i < |u.conns| && u.conns[i].fd == e.fd;
      assert t.conns[i].fd == e.fd;
    }
  }

  lemma TrackStep(c: Timer, t: State, a: Action, e: Entry)
    requires Inv(c, t) && Enabled(t, a) && a != Message(e.fd) && a != Insert(e.fd) && Tracked(c, t, e)
    ensures Tracked(c, Next(c, t, a), e)
  {
    match a
    case Fire => FireTracks(c, t, e);
    case Message(fd) => MessageTracks(c, t, fd, e);
    case Insert(fd) =>
      var u := Next(c, t, a);
      if Has(u.conns, e.fd) {
        var i :| 0 <= i < |u.conns| && u.conns[i].fd == e.fd;
        assert t.conns[i].fd == e.fd;
      }
    case _ =>
  }

  lemma {:induction false} TrackRun(c: Timer, s: State, e: Entry, acts: seq<Action>)
    requires Inv(c, s) && e in s.conns && Silent(acts, e.fd)
    ensures Inv(c, Exec(c, s, acts)) && Tracked(c, Exec(c, s, acts), e)
  {
    if acts != [] {
      var n := |acts| - 1;
      TrackRun(c, s, e, acts[..n]);
      var t := Exec(c, s, acts[..n]);
      if Enabled(t, acts[n]) {
        NextKeeps(c, t, acts[n]);
        TrackStep(c, t, acts[n], e);
      }
    }
  }

  lemma {:induction false} TicksAdd(c: Timer, s0: State, acts: seq<Action>, more: seq<Action>)
    ensures Exec(c, s0, acts + more) == Exec(c, Exec(c, s0, acts), more)
    ensures Ticks(c, s0, acts + more) == Ticks(c, s0, acts) + Ticks(c, Exec(c, s0, acts), more)
  {
    if more == [] {
      assert acts + more == acts;
    } else {
      var n := |more| - 1;
      TicksAdd(c, s0, acts, more[..n]);
      assert (acts + more)[..|acts| + n] == acts + more[..n];
    }
  }

  /** Time bound: in every run a connection that was last heard of at L (its creation or last message),
      and which stays silent, is not swept by L + timeout and is out of both maps after
      L + timeout + interval; at that very instant it can be left only if the sweep that takes it is due
      now. The time now is the start plus the ticks of the run. */
  lemma {:induction false} IdleWindow(c: Timer, s0: State, acts: seq<Action>, fd: int, more: seq<Action>)
    requires Init(c, s0) && Has(Exec(c, s0, acts).conns, fd) && Silent(more, fd)
    ensures var t := Exec(c, s0, acts + more); var heard := LastHeard(c, s0, acts, fd);
            && t.now == s0.now + Ticks(c, s0, acts + more)
            && (t.now <= heard + c.timeout ==> Has(t.conns, fd))
            && (t.now > heard + c.timeout + c.interval ==> !Has(t.conns, fd) && fd !in t.server)
            && (t.now == heard + c.timeout + c.interval ==> t.due == t.now || (!Has(t.conns, fd) && fd !in t.server))
  {
    assert Inv(c, s0);
    Always(c, s0, acts);
    ClockIs(c, s0, acts + more);
    TicksAdd(c, s0, acts, more);
    var s := Exec(c, s0, acts);
    var i :| 0 <= i < |s.conns| && s.conns[i].fd == fd;
    var e := s.conns[i];
    HeardIs(c, s0, acts, e);
    TrackRun(c, s, e, more);
    if e in Exec(c, s, more).conns {
      HasEntry(Exec(c, s, more).conns, e);
    }
  }
}
