/** How long an idle connection stays under the sweep as coded: a sub-loop's timer, first due after
    `timeout` and then every `interval`, firing on time, among arrivals and messages. */
module CodedTimer {
  import opened IdleSweep
  import IT = IdleTimer

  /** `due` is the instant the timerfd expires next; `past` tells that a sweep ran past the end. */
  datatype State = State(now: int, due: int, conns: seq<Entry>, server: set<int>, past: bool)

  predicate Init(c: IT.Timer, s: State)
  {
    c.timeout > 0 && c.interval > 0 && s.due == s.now + c.timeout && s.conns == [] && s.server == {} && !s.past
  }

  predicate Enabled(s: State, a: IT.Action)
  {
    && !s.past
    && match a
       case Tick => s.now < s.due
       case Fire => s.now == s.due
       case Insert(fd) => !IT.Has(s.conns, fd)
       case Message(fd) => IT.Has(s.conns, fd)
       case Close(fd) => true
  }

  /** std::map keeps its entries in ascending order. */
  function Put(conns: seq<Entry>, e: Entry): seq<Entry>
  {
    if conns == [] || e.fd < conns[0].fd then [e] + conns else [conns[0]] + Put(conns[1..], e)
  }

  function Next(c: IT.Timer, s: State, a: IT.Action): State
    requires Enabled(s, a)
  {
    match a
    case Tick => s.(now := s.now + 1)
    case Fire =>
      (match Coded(s.conns, s.server, s.now, c.timeout)
       case Undefined => s.(past := true)
       case Swept(conns, server) => s.(due := s.now + c.interval, conns := conns, server := server))
    case Insert(fd) => s.(conns := Put(s.conns, Entry(fd, s.now)), server := s.server + {fd})
    case Message(fd) => s.(conns := IT.Touched(s.conns, fd, s.now))
    case Close(fd) => s.(server := s.server - {fd})
  }

  /** The state after a sequence of actions; an action that is not enabled does not happen. */
  function Exec(c: IT.Timer, s: State, acts: seq<IT.Action>): State
  {
    if acts == [] then s
    else
      var t := Exec(c, s, acts[..|acts| - 1]);
      if Enabled(t, acts[|acts| - 1]) then Next(c, t, acts[|acts| - 1]) else t
  }

  // ---------------------------------------------------------------- order

  lemma {:induction false} PutAscends(conns: seq<Entry>, e: Entry)
    requires Ascending(conns) && forall k :: 0 <= k < |conns| ==> conns[k].fd != e.fd
    ensures Ascending(Put(conns, e))
    ensures forall x :: x in Put(conns, e) <==> x == e || x in conns
  {
    if conns != [] && e.fd > conns[0].fd {
      var rest := conns[1..];
      assert forall k :: 0 <= k < |rest| ==> rest[k] == conns[k + 1];
      PutAscends(rest, e);
      var q := Put(rest, e);
      forall i, j | 0 <= i < j < |q| + 1
        ensures ([conns[0]] + q)[i].fd < ([conns[0]] + q)[j].fd
      {
        if i == 0 {
          assert q[j - 1] in q;
        }
      }
    }
  }

  /** An arrival moves an entry behind it by one. */
  lemma {:induction false} PutShifts(conns: seq<Entry>, e: Entry, j: nat)
    requires Ascending(conns) && j < |conns| && conns[j].fd != e.fd
    ensures var q := Put(conns, e);
            if e.fd < conns[j].fd then j + 1 < |q| && q[j + 1] == conns[j] else j < |q| && q[j] == conns[j]
  {
    if e.fd > conns[0].fd && j > 0 {
      PutShifts(conns[1..], e, j - 1);
    }
  }

  lemma {:induction false} CodedAscends(es: seq<Entry>, server: set<int>, now: int, timeout: int)
    requires Ascending(es) && Coded(es, server, now, timeout).Swept?
    ensures Ascending(Coded(es, server, now, timeout).conns)
    ensures forall x :: x in Coded(es, server, now, timeout).conns ==> x in es
    decreases |es|
  {
    if es != [] {
      if !Expired(es[0], now, timeout) {
        CodedAscends(es[1..], server, now, timeout);
        HeadAscends(es, 0, Coded(es[1..], server, now, timeout).conns);
      } else {
        CodedAscends(es[2..], server - {es[1].fd}, now, timeout);
        HeadAscends(es, 1, Coded(es[2..], server - {es[1].fd}, now, timeout).conns);
      }
    }
  }

  lemma HeadAscends(es: seq<Entry>, n: nat, tail: seq<Entry>)
    requires Ascending(es) && n < |es| && Ascending(tail) && forall x :: x in tail ==> x in es[n + 1..]
    ensures Ascending([es[n]] + tail)
    ensures forall x :: x in [es[n]] + tail ==> x in es
  {
    forall j | 0 <= j < |tail|
      ensures es[n].fd < tail[j].fd
    {
      assert tail[j] in tail;
      var i :| 0 <= i < |es[n + 1..]| && es[n + 1..][i] == tail[j];
      assert es[n + 1 + i] == tail[j];
    }
  }

  /** Where a kept entry stands after the coded sweep: not further back, and further in front if it has
      expired, because then the one before it has left. */
  lemma {:induction false} CodedPosition(es: seq<Entry>, server: set<int>, now: int, timeout: int, k: nat) returns (j: nat)
    requires Coded(es, server, now, timeout).Swept? && k < |es| && !Gone(es, k, now, timeout)
    ensures var q := Coded(es, server, now, timeout).conns;
            j <= k && j < |q| && q[j] == es[k] && (Expired(es[k], now, timeout) ==> j < k)
    decreases |es|
  {
    if !Expired(es[0], now, timeout) {
      if k == 0 {
        j := 0;
      } else {
        GoneShift(es, k - 1, 1, now, timeout);
        var i := CodedPosition(es[1..], server, now, timeout, k - 1);
        j := i + 1;
      }
    } else if k == 1 {
      j := 0;
    } else {
      GoneShift(es, k - 2, 2, now, timeout);
      var i := CodedPosition(es[2..], server - {es[1].fd}, now, timeout, k - 2);
      j := i + 1;
    }
  }

  // ---------------------------------------------------------------- one idle connection

  ghost predicate Inv(c: IT.Timer, s: State)
  {
    Ascending(s.conns) && s.now <= s.due <= s.now + c.timeout + c.interval
  }

  lemma NextKeeps(c: IT.Timer, s: State, a: IT.Action)
    requires Inv(c, s) && Enabled(s, a)
    ensures Inv(c, Next(c, s, a))
  {
    match a
    case Fire => if Coded(s.conns, s.server, s.now, c.timeout).Swept? { CodedAscends(s.conns, s.server, s.now, c.timeout); }
    case Insert(fd) => PutAscends(s.conns, Entry(fd, s.now));
    case _ =>
  }

  lemma {:induction false} Always(c: IT.Timer, s: State, acts: seq<IT.Action>)
    requires Inv(c, s)
    ensures Inv(c, Exec(c, s, acts))
  {
    if acts != [] {
      Always(c, s, acts[..|acts| - 1]);
      var t := Exec(c, s, acts[..|acts| - 1]);
      if Enabled(t, acts[|acts| - 1]) {
        NextKeeps(c, t, acts[|acts| - 1]);
      }
    }
  }

  /** Arrivals with a smaller fd. */
  function Smaller(acts: seq<IT.Action>, fd: int): nat
  {
    if acts == [] then 0
    else
      var a := acts[|acts| - 1];
      Smaller(acts[..|acts| - 1], fd) + (if a.Insert? && a.fd < fd then 1 else 0)
  }

  /** The n-th firing after the first possible one. */
  function Until(c: IT.Timer, e: Entry, n: int): int { e.lasttime + c.timeout + c.interval * n }

  lemma UntilNext(c: IT.Timer, e: Entry, n: int)
    ensures Until(c, e, n + 1) == Until(c, e, n) + c.interval
  {
  }

  lemma UntilLater(c: IT.Timer, e: Entry, m: int, n: int)
    requires m <= n
    ensures Until(c, e, m) <= Until(c, e, n)
  {
    assert c.interval * (n - m) >= 0;
    assert c.interval * n == c.interval * m + c.interval * (n - m);
  }

  /** e stands at place j, and the timer is due in time for it to move to the front within b places. */
  ghost predicate Stands(c: IT.Timer, t: State, e: Entry, j: int, b: int)
  {
    0 <= j < |t.conns| && t.conns[j] == e && j < b && t.due <= Until(c, e, b - j)
  }

  /** e is still there, or gone after more than `timeout` of silence, or a sweep ran past the end. */
  ghost predicate Tracked(c: IT.Timer, t: State, e: Entry, b: int)
  {
    || t.past
    || (exists j :: Stands(c, t, e, j, b))
    || (!IT.Has(t.conns, e.fd) && t.now > e.lasttime + c.timeout)
  }

  lemma FireStands(c: IT.Timer, t: State, e: Entry, j: nat, b: int)
    requires Inv(c, t) && Enabled(t, IT.Fire) && Stands(c, t, e, j, b)
    ensures Tracked(c, Next(c, t, IT.Fire), e, b)
  {
    var r := Coded(t.conns, t.server, t.now, c.timeout);
    var u := Next(c, t, IT.Fire);
    CodedIs(t.conns, t.server, t.now, c.timeout);
    if r.Swept? {
      assert FateOf(t.conns, j, t.server, t.now, c.timeout, r);
      if Gone(t.conns, j, t.now, c.timeout) {
        GoneAway(t.conns, j, r.conns);
      } else {
        var i := CodedPosition(t.conns, t.server, t.now, c.timeout, j);
        UntilNext(c, e, b - j);
        UntilNext(c, e, 0);
        UntilLater(c, e, b - j + 1, b - i + (if Expired(e, t.now, c.timeout) then 0 else 1));
        UntilLater(c, e, 1, b - i);
        assert Stands(c, u, e, i, b);
      }
    }
  }

  lemma GoneAway(es: seq<Entry>, j: nat, left: seq<Entry>)
    requires Ascending(es) && j < |es| && es[j] !in left && forall x :: x in left ==> x in es
    ensures !IT.Has(left, es[j].fd)
  {
    forall i | 0 <= i < |left|
      ensures left[i].fd != es[j].fd
    {
      assert left[i] in left;
    }
  }

  lemma FireAway(c: IT.Timer, t: State, e: Entry)
    requires Inv(c, t) && Enabled(t, IT.Fire) && !IT.Has(t.conns, e.fd) && Coded(t.conns, t.server, t.now, c.timeout).Swept?
    ensures !IT.Has(Next(c, t, IT.Fire).conns, e.fd)
  {
    CodedAscends(t.conns, t.server, t.now, c.timeout);
    var q := Next(c, t, IT.Fire).conns;
    if IT.Has(q, e.fd) {
      var i :| 0 <= i < |q| && q[i].fd == e.fd;
      assert q[i] in t.conns;
      IT.HasEntry(t.conns, q[i]);
    }
  }

  lemma InsertStands(c: IT.Timer, t: State, fd: int, e: Entry, j: nat, b: int)
    requires Inv(c, t) && Enabled(t, IT.Insert(fd)) && fd != e.fd && Stands(c, t, e, j, b)
    ensures Tracked(c, Next(c, t, IT.Insert(fd)), e, if fd < e.fd then b + 1 else b)
  {
    PutShifts(t.conns, Entry(fd, t.now), j);
    var u := Next(c, t, IT.Insert(fd));
    if fd < e.fd {
      assert Stands(c, u, e, j + 1, b + 1);
    } else {
      assert Stands(c, u, e, j, b);
    }
  }

  lemma InsertAway(c: IT.Timer, t: State, fd: int, e: Entry)
    requires Inv(c, t) && Enabled(t, IT.Insert(fd)) && fd != e.fd && !IT.Has(t.conns, e.fd)
    ensures !IT.Has(Next(c, t, IT.Insert(fd)).conns, e.fd)
  {
    PutAscends(t.conns, Entry(fd, t.now));
    var q := Next(c, t, IT.Insert(fd)).conns;
    if IT.Has(q, e.fd) {
      var i :| 0 <= i < |q| && q[i].fd == e.fd;
      assert q[i] in q;
      IT.HasEntry(t.conns, q[i]);
    }
  }

  lemma MessageTracks(c: IT.Timer, t: State, fd: int, e: Entry, b: int)
    requires Enabled(t, IT.Message(fd)) && fd != e.fd && Tracked(c, t, e, b)
    ensures Tracked(c, Next(c, t, IT.Message(fd)), e, b)
  {
    var u := Next(c, t, IT.Message(fd));
    if j :| Stands(c, t, e, j, b) {
      assert Stands(c, u, e, j, b);
    } else {
      assert forall i :: 0 <= i < |u.conns| ==> u.conns[i].fd == t.conns[i].fd;
    }
  }

  lemma QuietTracks(c: IT.Timer, t: State, a: IT.Action, e: Entry, b: int)
    requires Enabled(t, a) && (a.Tick? || a.Close?) && Tracked(c, t, e, b)
    ensures Tracked(c, Next(c, t, a), e, b)
  {
    if j :| Stands(c, t, e, j, b) {
      assert Stands(c, Next(c, t, a), e, j, b);
    }
  }

  lemma TrackStep(c: IT.Timer, t: State, a: IT.Action, e: Entry, b: int)
    requires Inv(c, t) && Enabled(t, a) && a != IT.Message(e.fd) && a != IT.Insert(e.fd) && Tracked(c, t, e, b)
    ensures Tracked(c, Next(c, t, a), e, if a.Insert? && a.fd < e.fd then b + 1 else b)
  {
    match a
    case Fire =>
      if j :| Stands(c, t, e, j, b) {
        FireStands(c, t, e, j, b);
      } else if Coded(t.conns, t.server, t.now, c.timeout).Swept? {
        FireAway(c, t, e);
      }
    case Insert(fd) =>
      if j :| Stands(c, t, e, j, b) {
        InsertStands(c, t, fd, e, j, b);
      } else {
        InsertAway(c, t, fd, e);
      }
    case Message(fd) => MessageTracks(c, t, fd, e, b);
    case Tick => QuietTracks(c, t, a, e, b);
    case Close(_) => QuietTracks(c, t, a, e, b);
  }

  lemma {:induction false} TrackRun(c: IT.Timer, s: State, e: Entry, k: nat, acts: seq<IT.Action>)
    requires Inv(c, s) && Tracked(c, s, e, k + 1) && IT.Silent(acts, e.fd)
    ensures Inv(c, Exec(c, s, acts)) && Tracked(c, Exec(c, s, acts), e, k + 1 + Smaller(acts, e.fd))
  {
    if acts != [] {
      var n := |acts| - 1;
      TrackRun(c, s, e, k, acts[..n]);
      var t := Exec(c, s, acts[..n]);
      if Enabled(t, acts[n]) {
        NextKeeps(c, t, acts[n]);
        TrackStep(c, t, acts[n], e, k + 1 + Smaller(acts[..n], e.fd));
      } else {
        Looser(c, t, e, k + 1 + Smaller(acts[..n], e.fd));
      }
    }
  }

  lemma Looser(c: IT.Timer, t: State, e: Entry, b: int)
    requires Tracked(c, t, e, b)
    ensures Tracked(c, t, e, b + 1)
  {
    if j :| Stands(c, t, e, j, b) {
      UntilLater(c, e, b - j, b + 1 - j);
      assert Stands(c, t, e, j, b + 1);
    }
  }

  // ---------------------------------------------------------------- told from the actions

  predicate Happens(c: IT.Timer, s0: State, acts: seq<IT.Action>)
    requires acts != []
  {
    Enabled(Exec(c, s0, acts[..|acts| - 1]), acts[|acts| - 1])
  }

  function Ticks(c: IT.Timer, s0: State, acts: seq<IT.Action>): nat
  {
    if acts == [] then 0
    else Ticks(c, s0, acts[..|acts| - 1]) + (if acts[|acts| - 1] == IT.Tick && Happens(c, s0, acts) then 1 else 0)
  }

  function Fires(c: IT.Timer, s0: State, acts: seq<IT.Action>): nat
  {
    if acts == [] then 0
    else Fires(c, s0, acts[..|acts| - 1]) + (if acts[|acts| - 1] == IT.Fire && Happens(c, s0, acts) then 1 else 0)
  }

  /** The instant of the last creation or message of a connection under fd. */
  function LastHeard(c: IT.Timer, s0: State, acts: seq<IT.Action>, fd: int): int
  {
    if acts == [] then s0.now
    else
      var before, a := acts[..|acts| - 1], acts[|acts| - 1];
      if (a == IT.Insert(fd) || a == IT.Message(fd)) && Happens(c, s0, acts) then s0.now + Ticks(c, s0, before)
      else LastHeard(c, s0, before, fd)
  }

  /** A sweep that erases the entry before that of fd. */
  predicate Robs(conns: seq<Entry>, now: int, timeout: int, fd: int)
  {
    exists k :: 0 < k < |conns| && conns[k].fd == fd && Gone(conns, k - 1, now, timeout)
  }

  /** fd was inserted, and since then its connection has not closed and no sweep erased the entry
      before it. */
  predicate ListedSince(c: IT.Timer, s0: State, acts: seq<IT.Action>, fd: int)
  {
    acts != [] &&
    var before, a := acts[..|acts| - 1], acts[|acts| - 1];
    var s := Exec(c, s0, before);
    if !Happens(c, s0, acts) then ListedSince(c, s0, before, fd)
    else if a == IT.Insert(fd) then true
    else a != IT.Close(fd) && ListedSince(c, s0, before, fd)
         && (a == IT.Fire && Coded(s.conns, s.server, s.now, c.timeout).Swept? ==> !Robs(s.conns, s.now, c.timeout, fd))
  }

  /** The clock has ticked, and the timer is due at once after `timeout` and then every `interval`. */
  lemma {:induction false} ClockIs(c: IT.Timer, s0: State, acts: seq<IT.Action>)
    requires Init(c, s0)
    ensures var t := Exec(c, s0, acts);
            && t.now == s0.now + Ticks(c, s0, acts)
            && (!t.past ==> t.due == s0.now + c.timeout + c.interval * Fires(c, s0, acts))
  {
    if acts != [] {
      var n := |acts| - 1;
      ClockIs(c, s0, acts[..n]);
      assert c.interval * (Fires(c, s0, acts[..n]) + 1) == c.interval * Fires(c, s0, acts[..n]) + c.interval;
    }
  }

  lemma HeardStep(c: IT.Timer, s: State, a: IT.Action, e: Entry)
    requires Inv(c, s) && Enabled(s, a) && e in Next(c, s, a).conns
    ensures if a == IT.Insert(e.fd) || a == IT.Message(e.fd) then e.lasttime == s.now else e in s.conns
  {
    match a
    case Fire => if Coded(s.conns, s.server, s.now, c.timeout).Swept? { CodedAscends(s.conns, s.server, s.now, c.timeout); }
    case Insert(fd) =>
      PutAscends(s.conns, Entry(fd, s.now));
      if e in s.conns { IT.HasEntry(s.conns, e); }
    case Message(fd) =>
      var i :| 0 <= i < |s.conns| && IT.Touched(s.conns, fd, s.now)[i] == e;
      assert s.conns[i] in s.conns;
    case _ =>
  }

  /** An entry's time stamp is the instant of the last creation or message under its fd. */
  lemma {:induction false} HeardIs(c: IT.Timer, s0: State, acts: seq<IT.Action>, e: Entry)
    requires Init(c, s0) && e in Exec(c, s0, acts).conns
    ensures e.lasttime == LastHeard(c, s0, acts, e.fd)
  {
    if acts != [] {
      var n := |acts| - 1;
      var s, a := Exec(c, s0, acts[..n]), acts[n];
      ClockIs(c, s0, acts[..n]);
      Always(c, s0, acts[..n]);
      if Enabled(s, a) {
        HeardStep(c, s, a, e);
      }
      if e in s.conns {
        HeardIs(c, s0, acts[..n], e);
      }
    }
  }

  lemma FireServer(c: IT.Timer, s: State, fd: int)
    requires Inv(c, s) && Coded(s.conns, s.server, s.now, c.timeout).Swept?
    ensures fd in Coded(s.conns, s.server, s.now, c.timeout).server <==>
            fd in s.server && !Robs(s.conns, s.now, c.timeout, fd)
  {
    var r := Coded(s.conns, s.server, s.now, c.timeout);
    CodedIs(s.conns, s.server, s.now, c.timeout);
    CodedServer(s.conns, s.server, s.now, c.timeout, fd);
    if k :| 0 <= k < |s.conns| && s.conns[k].fd == fd {
      assert FateOf(s.conns, k, s.server, s.now, c.timeout, r);
      assert forall j :: 0 <= j < |s.conns| && s.conns[j].fd == fd ==> j == k;
    }
  }

  /** The server lists exactly the connections that came and have since neither closed nor stood behind
      an entry that a sweep erased. */
  lemma {:induction false} ServerIs(c: IT.Timer, s0: State, acts: seq<IT.Action>, fd: int)
    requires Init(c, s0)
    ensures fd in Exec(c, s0, acts).server <==> ListedSince(c, s0, acts, fd)
  {
    if acts != [] {
      var n := |acts| - 1;
      var s, a := Exec(c, s0, acts[..n]), acts[n];
      ServerIs(c, s0, acts[..n], fd);
      Always(c, s0, acts[..n]);
      if Enabled(s, a) && a == IT.Fire && Coded(s.conns, s.server, s.now, c.timeout).Swept? {
        FireServer(c, s, fd);
      }
    }
  }

  /** Time bound of the coded sweep: in every run a connection that is heard of now (created, or its last
      message comes), at place k of its sub-loop's map, and which stays silent while m connections with
      smaller fds arrive, is not swept before `timeout` has passed, and is out of the sub-loop's map once
      a further k + m + 1 intervals have, unless some sweep ran past the end of the map first. */
  lemma {:induction false} CodedWindow(c: IT.Timer, s0: State, acts: seq<IT.Action>, k: nat, more: seq<IT.Action>)
    requires Init(c, s0) && k < |Exec(c, s0, acts).conns|
    requires var s := Exec(c, s0, acts); LastHeard(c, s0, acts, s.conns[k].fd) == s.now && IT.Silent(more, s.conns[k].fd)
    ensures var s := Exec(c, s0, acts); var t, fd := Exec(c, s, more), s.conns[k].fd;
            && s.now == s0.now + Ticks(c, s0, acts)
            && (t.now <= s.now + c.timeout ==> t.past || IT.Has(t.conns, fd))
            && (t.now > s.now + c.timeout + c.interval * (k + 1 + Smaller(more, fd)) ==> t.past || !IT.Has(t.conns, fd))
  {
    Always(c, s0, acts);
    var s := Exec(c, s0, acts);
    ClockIs(c, s0, acts);
    HeardIs(c, s0, acts, s.conns[k]);
    Window(c, s, k, more);
    var t := Exec(c, s, more);
    if s.conns[k] in t.conns {
      IT.HasEntry(t.conns, s.conns[k]);
    }
  }

  lemma {:induction false} Window(c: IT.Timer, s: State, k: nat, more: seq<IT.Action>)
    requires Inv(c, s) && k < |s.conns| && s.conns[k].lasttime == s.now && IT.Silent(more, s.conns[k].fd)
    ensures var e := s.conns[k]; var t := Exec(c, s, more);
            && (t.now <= e.lasttime + c.timeout ==> t.past || e in t.conns)
            && (t.now > e.lasttime + c.timeout + c.interval * (k + 1 + Smaller(more, e.fd)) ==>
                  t.past || !IT.Has(t.conns, e.fd))
  {
    var e := s.conns[k];
    UntilNext(c, e, 0);
    assert Stands(c, s, e, k, k + 1);
    TrackRun(c, s, e, k, more);
    InWindow(c, Exec(c, s, more), e, k + 1 + Smaller(more, e.fd));
  }

  lemma InWindow(c: IT.Timer, t: State, e: Entry, b: int)
    requires Inv(c, t) && Tracked(c, t, e, b)
    ensures t.now <= e.lasttime + c.timeout ==> t.past || e in t.conns
    ensures t.now > Until(c, e, b) ==> t.past || !IT.Has(t.conns, e.fd)
  {
    if j :| Stands(c, t, e, j, b) {
      UntilLater(c, e, b - j, b);
    }
  }
}
