/** The two registries of connections: the server's map and one map per sub-loop, kept in step by the
    acceptor's thread, the sub-loops' close callbacks and their idle sweeps, all interleaved.
    A sweep may report the key it erased, as the EventLoop header specifies, or that of the entry
    behind it and skip that one, as the loop is coded. */
module Registry {
  import opened Sequences

  /** The acceptor's place in `TcpServer::newconnection`. */
  datatype Acceptor = Resting | BeforeServer(fd: int, id: nat) | BeforeSub(fd: int, id: nat)

  /** A sub-loop's place in `handletimer`: `Erased` lies between its two erases, and `report` is the key
      that the second will take. */
  datatype Sweep = Quiet | Scanning(cursor: int) | Erased(fd: int, id: nat, report: int)

  /** `owner` maps every fd the kernel has open to the Connection that owns it; identities are never
      reused. `closed`, `stolen` and `orphaned` are history: connections whose close or error callback
      has run, whose server entry a sweep removed on behalf of another connection, and which a sweep
      erased without reporting them. */
  datatype State = State(
    server: map<int, nat>, subs: seq<map<int, nat>>, owner: map<int, nat>, nextId: nat,
    acceptor: Acceptor, sweeps: seq<Sweep>, closed: set<nat>, stolen: set<nat>,
    orphaned: set<nat>)

  /** The sub-loop that `fd % threadnum_` selects. */
  function Home(n: nat, fd: int): (h: nat)
    requires n > 0
    ensures h < n
  {
    fd % n
  }

  lemma QuotientIs(n: int, x: int, q: int, r: int)
    requires n > 0 && 0 <= r < n && x == n * q + r
    ensures x % n == r
  {
    var d := x / n - q;
    assert x == n * (x / n) + x % n;
    assert n * (x / n) - n * q == n * d;
    assert d >= 1 ==> n * d >= n;
    assert d <= -1 ==> n * d <= -n;
  }

  /** Which sub-loop that is: fds below the number of sub-loops go to their own, and fds that differ by a
      multiple of that number go to the same. */
  lemma HomeIs(n: nat, i: nat, q: int)
    requires i < n
    ensures Home(n, n * q + i) == i
  {
    QuotientIs(n, n * q + i, q, i);
  }

  predicate Init(s: State)
  {
    && |s.subs| > 0 && |s.sweeps| == |s.subs|
    && s.server == map[] && s.owner == map[] && s.acceptor == Resting && s.closed == {} && s.stolen == {} && s.orphaned == {}
    && (forall i :: 0 <= i < |s.subs| ==> s.subs[i] == map[])
    && (forall i :: 0 <= i < |s.sweeps| ==> s.sweeps[i] == Quiet)
  }

  datatype Action =
    | Accept(fd: int)                              // the kernel hands out an fd nobody owns
    | InsertServer
    | InsertSub
    | Close(fd: int)                               // closeconnection or errorconnection
    | StartSweep(loop: nat)
    | Visit(loop: nat, key: int, late: bool, report: int) // look at the next key; erase it if idle too long
    | Report(loop: nat)                            // timercallback_: removeconn
    | EndSweep(loop: nat)
    | Destroy(fd: int)                             // the last reference is dropped, the fd is closed

  predicate NextKey(m: map<int, nat>, cursor: int, key: int)
  {
    key in m && key > cursor && forall k :: k in m && k > cursor ==> key <= k
  }

  predicate Unreferenced(s: State, fd: int)
  {
    && fd !in s.server
    && (forall i :: 0 <= i < |s.subs| ==> fd !in s.subs[i])
    && (s.acceptor.Resting? || s.acceptor.fd != fd)
  }

  predicate Enabled(s: State, a: Action)
  {
    match a
    case Accept(fd) => s.acceptor.Resting? && fd >= 0 && fd !in s.owner
    case InsertServer => s.acceptor.BeforeServer?
    case InsertSub => s.acceptor.BeforeSub? && |s.subs| > 0
    case Close(fd) => fd in s.owner && s.owner[fd] !in s.closed
    case StartSweep(i) => i < |s.sweeps| && s.sweeps[i] == Quiet
    case Visit(i, key, late, report) =>
      && i < |s.sweeps| && i < |s.subs| && s.sweeps[i].Scanning? && NextKey(s.subs[i], s.sweeps[i].cursor, key)
      && (late ==> report == key || NextKey(s.subs[i], key, report))
    case Report(i) => i < |s.sweeps| && s.sweeps[i].Erased?
    case EndSweep(i) =>
      && i < |s.sweeps| && i < |s.subs| && s.sweeps[i].Scanning?
      && forall k :: k in s.subs[i] ==> k <= s.sweeps[i].cursor
    case Destroy(fd) => fd in s.owner && Unreferenced(s, fd)
  }

  function Next(s: State, a: Action): State
    requires Enabled(s, a)
  {
    match a
    case Accept(fd) => s.(acceptor := BeforeServer(fd, s.nextId), owner := s.owner[fd := s.nextId], nextId := s.nextId + 1)
    case InsertServer =>
      var c := s.acceptor;
      s.(server := s.server[c.fd := c.id], acceptor := BeforeSub(c.fd, c.id))
    case InsertSub =>
      var h := Home(|s.subs|, s.acceptor.fd);
      var m: map<int, nat> := s.subs[h][s.acceptor.fd := s.acceptor.id];
      s.(subs := s.subs[h := m], acceptor := Resting)
    case Close(fd) => s.(server := s.server - {fd}, closed := s.closed + {s.owner[fd]})
    case StartSweep(i) => s.(sweeps := s.sweeps[i := Scanning(-1)])
    case Visit(i, key, late, report) =>
      if late then
        s.(subs := s.subs[i := s.subs[i] - {key}], sweeps := s.sweeps[i := Erased(key, s.subs[i][key], report)],
           orphaned := if report == key then s.orphaned else s.orphaned + {s.subs[i][key]})
      else s.(sweeps := s.sweeps[i := Scanning(key)])
    case Report(i) =>
      var e := s.sweeps[i];
      s.(server := s.server - {e.report}, sweeps := s.sweeps[i := Scanning(e.report)],
         stolen := if e.report in s.server && s.server[e.report] != e.id then s.stolen + {s.server[e.report]} else s.stolen)
    case EndSweep(i) => s.(sweeps := s.sweeps[i := Quiet])
    case Destroy(fd) => s.(owner := s.owner - {fd})
  }

  /** The state after a sequence of actions; an action that is not enabled does not happen. */
  function Exec(s: State, acts: seq<Action>): State
  {
    if acts == [] then s
    else
      var t := Exec(s, acts[..|acts| - 1]);
      if Enabled(t, acts[|acts| - 1]) then Next(t, acts[|acts| - 1]) else t
  }

  // ---------------------------------------------------------------- invariant

  ghost predicate Shape(s: State)
  {
    && |s.subs| > 0 && |s.sweeps| == |s.subs|
    && (forall fd :: fd in s.owner ==> s.owner[fd] < s.nextId)
    && (forall i :: 0 <= i < |s.sweeps| && s.sweeps[i].Erased? ==> s.sweeps[i].id < s.nextId)
    && (!s.acceptor.Resting? ==> s.acceptor.fd in s.owner && s.owner[s.acceptor.fd] == s.acceptor.id)
  }

  /** Every key of sub-loop i belongs to shard i and names the connection that owns the fd. */
  ghost predicate Sharded(s: State)
    requires |s.subs| > 0
  {
    forall i, fd :: 0 <= i < |s.subs| && fd in s.subs[i] ==>
      Home(|s.subs|, fd) == i && fd in s.owner && s.subs[i][fd] == s.owner[fd]
  }

  /** Sweep i is between its two erases for connection id and will report it. */
  ghost predicate Reporting(s: State, i: nat, fd: int, id: nat)
    requires i < |s.sweeps|
  {
    s.sweeps[i] == Erased(fd, id, fd)
  }

  /** A server entry has its twin, or the acceptor or a sweep is between its two updates for it, or a
      sweep has erased the twin without reporting it. */
  ghost predicate Twinned(s: State, fd: int)
    requires |s.subs| > 0 && |s.sweeps| == |s.subs| && fd in s.server
  {
    var h, id := Home(|s.subs|, fd), s.server[fd];
    || (fd in s.subs[h] && s.subs[h][fd] == id)
    || s.acceptor == BeforeSub(fd, id)
    || Reporting(s, h, fd, id)
    || id in s.orphaned
  }

  ghost predicate ServerOk(s: State)
    requires |s.subs| > 0 && |s.sweeps| == |s.subs|
  {
    forall fd :: fd in s.server ==> fd in s.owner && s.server[fd] == s.owner[fd] && Twinned(s, fd)
  }

  /** The acceptor's connection is in no sub-loop yet. */
  ghost predicate NotYetSharded(s: State)
  {
    !s.acceptor.Resting? ==> InNoSub(s, s.acceptor.fd)
  }

  ghost predicate InNoSub(s: State, fd: int)
  {
    forall j :: 0 <= j < |s.subs| ==> fd !in s.subs[j]
  }

  /** A connection being swept out, if still alive, is in no sub-loop and not in the acceptor's hands. */
  ghost predicate SweptOut(s: State)
  {
    forall i :: 0 <= i < |s.sweeps| && s.sweeps[i].Erased? ==> Departed(s, s.sweeps[i].fd, s.sweeps[i].id)
  }

  ghost predicate Departed(s: State, fd: int, id: nat)
  {
    fd in s.owner && s.owner[fd] == id ==> (s.acceptor.Resting? || s.acceptor.fd != fd) && InNoSub(s, fd)
  }

  /** Why an entry may be missing from the server's map. */
  ghost predicate Excused(s: State, id: nat) { id in s.closed || id in s.stolen }

  ghost predicate SubsKnown(s: State)
  {
    && (forall i, fd :: 0 <= i < |s.subs| && fd in s.subs[i] ==> fd in s.server || Excused(s, s.subs[i][fd]))
    && (s.acceptor.BeforeSub? ==> s.acceptor.fd in s.server || Excused(s, s.acceptor.id))
  }

  /** A connection between its two erases is of that loop's shard, and still in the server's map or
      missing there for a reason. */
  ghost predicate SweepKnown(s: State)
    requires |s.subs| > 0
  {
    forall i :: 0 <= i < |s.sweeps| && s.sweeps[i].Erased? ==>
      && Home(|s.subs|, s.sweeps[i].fd) == i && Home(|s.subs|, s.sweeps[i].report) == i
      && Accounted(s, s.sweeps[i].fd, s.sweeps[i].id)
  }

  ghost predicate Accounted(s: State, fd: int, id: nat)
  {
    (fd in s.server && s.server[fd] == id) || Excused(s, id)
  }

  /** A connection has one fd, also while it is being swept out. */
  ghost predicate OneFd(s: State)
  {
    && (forall f, g :: f in s.owner && g in s.owner && s.owner[f] == s.owner[g] ==> f == g)
    && (forall i, f :: 0 <= i < |s.sweeps| && s.sweeps[i].Erased? && f in s.owner && s.owner[f] == s.sweeps[i].id ==>
          f == s.sweeps[i].fd)
  }

  /** A connection that lost its server entry to another's sweep does not come back. */
  ghost predicate StolenGone(s: State)
  {
    && (forall id :: id in s.stolen ==> id < s.nextId)
    && (forall fd :: fd in s.server ==> s.server[fd] !in s.stolen)
    && (s.acceptor.BeforeServer? ==> s.acceptor.id !in s.stolen && s.acceptor.fd !in s.server)
  }

  /** A connection erased without report is in no sub-loop, and does not come back. */
  ghost predicate OrphansOut(s: State)
  {
    && (forall id :: id in s.orphaned ==> id < s.nextId)
    && (forall i, fd :: 0 <= i < |s.subs| && fd in s.subs[i] ==> s.subs[i][fd] !in s.orphaned)
    && (!s.acceptor.Resting? ==> s.acceptor.id !in s.orphaned)
  }

  ghost predicate Inv(s: State)
  {
    && OrphansOut(s) && Shape(s) && Sharded(s) && ServerOk(s) && NotYetSharded(s) && SweptOut(s) && SubsKnown(s)
    && SweepKnown(s) && OneFd(s) && StolenGone(s)
  }

  lemma ShapeKeeps(s: State, a: Action)
    requires Inv(s) && Enabled(s, a)
    ensures Shape(Next(s, a))
  {
    if a.Visit? {
      assert s.subs[a.loop][a.key] == s.owner[a.key];
    }
  }

  lemma ShardedKeeps(s: State, a: Action)
    requires Shape(s) && Sharded(s) && Enabled(s, a)
    ensures Sharded(Next(s, a))
  {
  }

  lemma ServerKeeps(s: State, a: Action)
    requires Shape(s) && Sharded(s) && ServerOk(s) && Enabled(s, a)
    ensures ServerOk(Next(s, a))
  {
    var t := Next(s, a);
    forall fd | fd in t.server
      ensures fd in t.owner && t.server[fd] == t.owner[fd] && Twinned(t, fd)
    {
      if !(a.InsertServer? && fd == s.acceptor.fd) {
        assert fd in s.server && Twinned(s, fd);
      }
    }
  }

  lemma NotYetShardedKeeps(s: State, a: Action)
    requires Shape(s) && Sharded(s) && NotYetSharded(s) && Enabled(s, a)
    ensures NotYetSharded(Next(s, a))
  {
  }

  lemma DepartedKeeps(s: State, a: Action, fd: int, id: nat)
    requires |s.subs| > 0 && Departed(s, fd, id) && id < s.nextId && Enabled(s, a)
    ensures Departed(Next(s, a), fd, id)
  {
    var t := Next(s, a);
    if fd in t.owner && t.owner[fd] == id {
      assert fd in s.owner && s.owner[fd] == id;
      assert InNoSub(s, fd);
    }
  }

  lemma VisitDeparts(s: State, i: nat, key: int, report: int)
    requires Shape(s) && Sharded(s) && NotYetSharded(s) && Enabled(s, Visit(i, key, true, report))
    ensures Departed(Next(s, Visit(i, key, true, report)), key, s.subs[i][key])
  {
    var t := Next(s, Visit(i, key, true, report));
    assert Home(|s.subs|, key) == i;
    forall j | 0 <= j < |t.subs|
      ensures key !in t.subs[j]
    {
      assert key in s.subs[j] ==> Home(|s.subs|, key) == j;
    }
  }

  lemma SweptOutKeeps(s: State, a: Action)
    requires Shape(s) && Sharded(s) && NotYetSharded(s) && SweptOut(s) && Enabled(s, a)
    ensures SweptOut(Next(s, a))
  {
    var t := Next(s, a);
    forall i | 0 <= i < |t.sweeps| && t.sweeps[i].Erased?
      ensures Departed(t, t.sweeps[i].fd, t.sweeps[i].id)
    {
      if a.Visit? && a.late && a.loop == i {
        VisitDeparts(s, i, a.key, a.report);
      } else {
        assert t.sweeps[i] == s.sweeps[i];
        DepartedKeeps(s, a, t.sweeps[i].fd, t.sweeps[i].id);
      }
    }
  }

  lemma SubsKnownKeeps(s: State, a: Action)
    requires Inv(s) && Enabled(s, a)
    ensures SubsKnown(Next(s, a))
  {
  }

  lemma AccountedKeeps(s: State, a: Action, i: nat)
    requires Shape(s) && ServerOk(s) && SweptOut(s) && SweepKnown(s) && Enabled(s, a)
    requires i < |s.sweeps| && s.sweeps[i].Erased? && a != Report(i)
    ensures Accounted(Next(s, a), s.sweeps[i].fd, s.sweeps[i].id)
  {
    var fd, id := s.sweeps[i].fd, s.sweeps[i].id;
    assert Departed(s, fd, id) && Accounted(s, fd, id);
    if a.Report? {
      assert s.sweeps[a.loop].report != fd;
    }
  }

  lemma VisitKnown(s: State, i: nat, key: int, report: int)
    requires Shape(s) && Sharded(s) && SubsKnown(s) && ServerOk(s) && Enabled(s, Visit(i, key, true, report))
    ensures Home(|s.subs|, key) == i && Home(|s.subs|, report) == i
    ensures Accounted(Next(s, Visit(i, key, true, report)), key, s.subs[i][key])
  {
    assert s.subs[i][key] == s.owner[key];
    assert report in s.subs[i];
  }

  lemma SweepKnownKeeps(s: State, a: Action)
    requires Inv(s) && Enabled(s, a)
    ensures SweepKnown(Next(s, a))
  {
    var t := Next(s, a);
    forall i | 0 <= i < |t.sweeps| && t.sweeps[i].Erased?
      ensures Home(|t.subs|, t.sweeps[i].fd) == i && Home(|t.subs|, t.sweeps[i].report) == i
      ensures Accounted(t, t.sweeps[i].fd, t.sweeps[i].id)
    {
      if a.Visit? && a.late && a.loop == i {
        VisitKnown(s, i, a.key, a.report);
      } else {
        assert t.sweeps[i] == s.sweeps[i];
        AccountedKeeps(s, a, i);
      }
    }
  }

  lemma OneFdKeeps(s: State, a: Action)
    requires Shape(s) && Sharded(s) && OneFd(s) && Enabled(s, a)
    ensures OneFd(Next(s, a))
  {
    if a.Visit? {
      assert a.key in s.owner && s.subs[a.loop][a.key] == s.owner[a.key];
    }
  }

  lemma StolenGoneKeeps(s: State, a: Action)
    requires Shape(s) && ServerOk(s) && OneFd(s) && StolenGone(s) && Enabled(s, a)
    ensures StolenGone(Next(s, a))
  {
  }

  lemma OrphansKeep(s: State, a: Action)
    requires OrphansOut(s) && Shape(s) && Sharded(s) && OneFd(s) && NotYetSharded(s) && Enabled(s, a)
    ensures OrphansOut(Next(s, a))
  {
    if a.Visit? && a.late {
      VisitOrphans(s, a.loop, a.key, a.report);
    }
  }

  lemma VisitOrphans(s: State, i: nat, key: int, report: int)
    requires OrphansOut(s) && Shape(s) && Sharded(s) && OneFd(s) && NotYetSharded(s) && Enabled(s, Visit(i, key, true, report))
    ensures OrphansOut(Next(s, Visit(i, key, true, report)))
  {
    var t, id := Next(s, Visit(i, key, true, report)), s.subs[i][key];
    assert Home(|s.subs|, key) == i && s.owner[key] == id;
    forall j, fd | 0 <= j < |t.subs| && fd in t.subs[j]
      ensures t.subs[j][fd] !in t.orphaned
    {
      assert fd in s.subs[j] && Home(|s.subs|, fd) == j && s.owner[fd] == s.subs[j][fd];
    }
  }

  lemma NextKeeps(s: State, a: Action)
    requires Inv(s) && Enabled(s, a)
    ensures Inv(Next(s, a))
  {
    ShapeKeeps(s, a);
    ShardedKeeps(s, a);
    ServerKeeps(s, a);
    NotYetShardedKeeps(s, a);
    SweptOutKeeps(s, a);
    SubsKnownKeeps(s, a);
    SweepKnownKeeps(s, a);
    OneFdKeeps(s, a);
    StolenGoneKeeps(s, a);
    OrphansKeep(s, a);
  }

  lemma {:induction false} Always(s: State, acts: seq<Action>)
    requires Inv(s)
    ensures Inv(Exec(s, acts))
  {
    if acts != [] {
      Always(s, acts[..|acts| - 1]);
      var t := Exec(s, acts[..|acts| - 1]);
      if Enabled(t, acts[|acts| - 1]) {
        NextKeeps(t, acts[|acts| - 1]);
      }
    }
  }

  lemma InitInv(s: State)
    requires Init(s)
    ensures Inv(s)
  {
  }

  // ---------------------------------------------------------------- theorems over every run

  /** The sub-loop of fd holds the same connection. */
  ghost predicate HasTwin(s: State, fd: int, id: nat)
    requires |s.subs| > 0
  {
    var h := Home(|s.subs|, fd);
    fd in s.subs[h] && s.subs[h][fd] == id
  }

  /** A server entry has its twin, unless a sweep erased the twin without reporting it (then it has
      none), and except while the acceptor or a sweep is between its two updates for it. */
  ghost predicate Agrees(s: State, fd: int)
    requires |s.subs| > 0 && |s.sweeps| == |s.subs| && fd in s.server
  {
    var id := s.server[fd];
    if id in s.orphaned then !HasTwin(s, fd, id)
    else HasTwin(s, fd, id) || s.acceptor == BeforeSub(fd, id) || Reporting(s, Home(|s.subs|, fd), fd, id)
  }

  lemma EntryAgrees(s: State, fd: int)
    requires Shape(s) && OrphansOut(s) && ServerOk(s) && fd in s.server
    ensures Agrees(s, fd)
  {
    assert Twinned(s, fd);
  }

  /** All server entries agree, sub-loop maps hold only their own shard, and no fd is in two of them. */
  ghost predicate Agreed(s: State)
  {
    && |s.subs| > 0 && |s.sweeps| == |s.subs|
    && (forall fd :: fd in s.server ==> Agrees(s, fd))
    && (forall i, fd :: 0 <= i < |s.subs| && fd in s.subs[i] ==> Home(|s.subs|, fd) == i)
    && (forall i, j :: 0 <= i < j < |s.subs| ==> s.subs[i].Keys !! s.subs[j].Keys)
  }

  lemma AllAgree(s: State)
    requires Shape(s) && OrphansOut(s) && ServerOk(s) && Sharded(s)
    ensures Agreed(s)
  {
    forall fd | fd in s.server
      ensures Agrees(s, fd)
    {
      EntryAgrees(s, fd);
    }
    ShardsApart(s);
  }

  /** Registry agreement, exactly: in every interleaving a server entry has its twin, same connection,
      in the sub-loop its fd selects, unless a sweep erased the twin without reporting it (then it has
      none), and except while the acceptor is between its two inserts or a sweep between its two erases
      for that very connection; sub-loop maps hold only their own shard, so no fd is in two of them. */
  lemma {:induction false} Agreement(s0: State, acts: seq<Action>)
    requires Init(s0)
    ensures Agreed(Exec(s0, acts))
  {
    InitInv(s0);
    Always(s0, acts);
    AllAgree(Exec(s0, acts));
  }

  lemma ShardsApart(s: State)
    requires |s.subs| > 0 && Sharded(s)
    ensures forall i, j :: 0 <= i < j < |s.subs| ==> s.subs[i].Keys !! s.subs[j].Keys
  {
    forall i, j | 0 <= i < j < |s.subs|
      ensures s.subs[i].Keys !! s.subs[j].Keys
    {
      ShardsDisjoint(s, i, j);
    }
  }

  lemma ShardsDisjoint(s: State, i: nat, j: nat)
    requires |s.subs| > 0 && Sharded(s) && i < j < |s.subs|
    ensures s.subs[i].Keys !! s.subs[j].Keys
  {
    forall fd | fd in s.subs[i]
      ensures fd !in s.subs[j]
    {
      assert Home(|s.subs|, fd) == i;
    }
  }

  /** The converse: a connection in a sub-loop is missing from the server's map only if a step of the run
      closed it, or a sweep removed its entry on behalf of another connection. */
  lemma {:induction false} MissingOnlyIf(s0: State, acts: seq<Action>, i: nat, fd: int)
    requires Init(s0)
    requires i < |Exec(s0, acts).subs| && fd in Exec(s0, acts).subs[i]
    ensures var s := Exec(s0, acts);
            fd !in s.server ==>
              SomeMark(Closing, s0, acts, s.subs[i][fd]) || SomeMark(Stealing, s0, acts, s.subs[i][fd])
  {
    InitInv(s0);
    Always(s0, acts);
    MarkedIff(Closing, s0, acts, Exec(s0, acts).subs[i][fd]);
    MarkedIff(Stealing, s0, acts, Exec(s0, acts).subs[i][fd]);
  }

  /** The report removes the server entry of a connection other than the swept one. */
  ghost predicate TakesOther(s: State, i: nat)
    requires Enabled(s, Report(i))
  {
    exists fd :: fd in s.server && fd !in Next(s, Report(i)).server && s.server[fd] != s.sweeps[i].id
  }

  /** Checkable before the report: what it will take is registered and belongs to another connection. */
  predicate Foreign(s: State, i: nat)
  {
    i < |s.sweeps| && s.sweeps[i].Erased? &&
    var e := s.sweeps[i]; e.report in s.server && e.report in s.owner && s.owner[e.report] != e.id
  }

  /** The server does not list the connection under any fd. */
  ghost predicate Unlisted(s: State, id: nat) { forall fd :: fd in s.server ==> s.server[fd] != id }

  lemma ReportTakes(s: State, i: nat)
    requires Shape(s) && ServerOk(s) && Enabled(s, Report(i))
    ensures TakesOther(s, i) <==> Foreign(s, i)
  {
    var e, t := s.sweeps[i], Next(s, Report(i));
    if TakesOther(s, i) {
      var fd :| fd in s.server && fd !in t.server && s.server[fd] != e.id;
      assert fd == e.report;
    }
    if Foreign(s, i) {
      assert e.report !in t.server && s.server[e.report] == s.owner[e.report];
    }
  }

  lemma ForeignLeft(s: State, i: nat)
    requires Shape(s) && ServerOk(s) && OneFd(s) && SweepKnown(s) && Foreign(s, i) && s.sweeps[i].report == s.sweeps[i].fd
    ensures Excused(s, s.sweeps[i].id) && Unlisted(s, s.sweeps[i].id)
  {
    assert Accounted(s, s.sweeps[i].fd, s.sweeps[i].id);
    forall fd | fd in s.server
      ensures s.server[fd] != s.sweeps[i].id
    {
      assert s.server[fd] == s.owner[fd];
    }
  }

  /** In every run a sweep's report removes another connection's entry if and only if what it reports is
      registered and has another owner. For the coded sweep that is whenever the successor is still
      registered; for the specified one it takes a swept connection which had closed, or lost its entry
      this way, and which the server no longer lists. */
  lemma {:induction false} ReportTakesOtherIff(s0: State, acts: seq<Action>, i: nat)
    requires Init(s0) && Enabled(Exec(s0, acts), Report(i))
    ensures var s := Exec(s0, acts); var e := s.sweeps[i];
            && (TakesOther(s, i) <==> Foreign(s, i))
            && (e.report != e.fd ==> (TakesOther(s, i) <==> e.report in s.server))
            && (e.report == e.fd && TakesOther(s, i) ==> Excused(s, e.id) && Unlisted(s, e.id))
  {
    InitInv(s0);
    Always(s0, acts);
    var s := Exec(s0, acts);
    ReportTakes(s, i);
    if Foreign(s, i) && s.sweeps[i].report == s.sweeps[i].fd {
      ForeignLeft(s, i);
    }
  }

  /** A report of the run took another connection's entry. */
  ghost predicate ForeignAt(s0: State, acts: seq<Action>, k: nat)
    requires k < |acts|
  {
    acts[k].Report? && Foreign(Exec(s0, acts[..k]), acts[k].loop)
  }

  lemma ForeignEarlier(s0: State, acts: seq<Action>, n: nat)
    requires n < |acts|
    ensures forall k :: 0 <= k < n ==> (ForeignAt(s0, acts[..n], k) <==> ForeignAt(s0, acts, k))
  {
    forall k | 0 <= k < n
      ensures ForeignAt(s0, acts[..n], k) <==> ForeignAt(s0, acts, k)
    {
      assert acts[..n][..k] == acts[..k];
    }
  }

  lemma StolenStep(s: State, a: Action)
    requires Shape(s) && ServerOk(s) && Enabled(s, a)
    ensures Next(s, a).stolen == {} <==> s.stolen == {} && !(a.Report? && Foreign(s, a.loop))
  {
    if a.Report? && s.sweeps[a.loop].report in s.server {
      var id := s.server[s.sweeps[a.loop].report];
      assert id == s.owner[s.sweeps[a.loop].report];
      assert Foreign(s, a.loop) ==> id in Next(s, a).stolen;
    }
  }

  lemma {:induction false} StolenIff(s0: State, acts: seq<Action>)
    requires Init(s0)
    ensures Exec(s0, acts).stolen == {} <==> forall k :: 0 <= k < |acts| ==> !ForeignAt(s0, acts, k)
  {
    if acts != [] {
      var n := |acts| - 1;
      StolenIff(s0, acts[..n]);
      ForeignEarlier(s0, acts, n);
      StolenLast(s0, acts, Exec(s0, acts[..n]));
    }
  }

  lemma {:induction false} StolenLast(s0: State, acts: seq<Action>, t: State)
    requires Init(s0) && acts != [] && t == Exec(s0, acts[..|acts| - 1])
    ensures Exec(s0, acts).stolen == {} <==> t.stolen == {} && !ForeignAt(s0, acts, |acts| - 1)
  {
    InitInv(s0);
    Always(s0, acts[..|acts| - 1]);
    var a := acts[|acts| - 1];
    if Enabled(t, a) {
      StolenStep(t, a);
    }
  }

  /** No connection loses its entry to another's sweep exactly in the runs with no such report; in
      those a sub-loop's connection is missing from the server's map only if it closed, and in every
      run the ones that lost their entry stay unlisted. */
  lemma {:induction false} NoneStolenIff(s0: State, acts: seq<Action>)
    requires Init(s0)
    ensures var s := Exec(s0, acts);
            && (s.stolen == {} <==> forall k :: 0 <= k < |acts| ==> !ForeignAt(s0, acts, k))
            && (s.stolen == {} ==> forall i, fd :: 0 <= i < |s.subs| && fd in s.subs[i] && fd !in s.server ==>
                                     s.subs[i][fd] in s.closed)
            && (forall id :: id in s.stolen ==> Unlisted(s, id))
  {
    InitInv(s0);
    Always(s0, acts);
    StolenIff(s0, acts);
  }

  // ---------------------------------------------------------------- how the specified sweep comes to it

  function Before(s0: State, acts: seq<Action>, k: nat): State
    requires k <= |acts|
  {
    Exec(s0, acts[..k])
  }

  /** Step k is enabled. */
  predicate Happens(s0: State, acts: seq<Action>, k: nat)
    requires k < |acts|
  {
    Enabled(Before(s0, acts, k), acts[k])
  }

  lemma OneStep(s0: State, acts: seq<Action>, k: nat)
    requires k < |acts|
    ensures var s := Before(s0, acts, k);
            Before(s0, acts, k + 1) == if Happens(s0, acts, k) then Next(s, acts[k]) else s
  {
    assert acts[..k + 1][..k] == acts[..k];
  }

  /** Step v: sweep i erases connection id under fd and will report it. */
  ghost predicate SweptAt(s0: State, acts: seq<Action>, v: nat, i: nat, fd: int, id: nat)
    requires v < |acts|
  {
    var s := Before(s0, acts, v);
    acts[v] == Visit(i, fd, true, fd) && Happens(s0, acts, v) && s.subs[i][fd] == id
  }

  ghost predicate DestroyedAt(s0: State, acts: seq<Action>, d: nat, fd: int)
    requires d < |acts|
  {
    acts[d] == Destroy(fd) && Happens(s0, acts, d)
  }

  ghost predicate AcceptedAt(s0: State, acts: seq<Action>, a: nat, fd: int)
    requires a < |acts|
  {
    acts[a] == Accept(fd) && Happens(s0, acts, a)
  }

  ghost predicate InsertedAt(s0: State, acts: seq<Action>, n: nat, fd: int)
    requires n < |acts|
  {
    acts[n] == InsertServer && Happens(s0, acts, n) && Before(s0, acts, n).acceptor.fd == fd
  }

  /** The fd of a swept connection is closed, handed out again and registered, in this order, after the
      sweep's first erase. */
  ghost predicate Reuse(s0: State, acts: seq<Action>, i: nat, fd: int, id: nat, v: nat, d: nat, a: nat, n: nat)
  {
    && v < d < a < n < |acts| && SweptAt(s0, acts, v, i, fd, id) && DestroyedAt(s0, acts, d, fd)
    && AcceptedAt(s0, acts, a, fd) && InsertedAt(s0, acts, n, fd)
  }

  lemma SweptTurn(s: State, a: Action, i: nat, fd: int, id: nat)
    requires Enabled(s, a) && i < |s.sweeps| && s.sweeps[i] != Erased(fd, id, fd)
    requires i < |Next(s, a).sweeps| && Next(s, a).sweeps[i] == Erased(fd, id, fd)
    ensures a == Visit(i, fd, true, fd) && s.subs[i][fd] == id
  {
  }

  lemma OwnerTurn(s: State, a: Action, fd: int)
    requires Shape(s) && Enabled(s, a)
    ensures fd in s.owner && (fd !in Next(s, a).owner || Next(s, a).owner[fd] != s.owner[fd]) ==> a == Destroy(fd)
    ensures fd !in s.owner && fd in Next(s, a).owner ==> a == Accept(fd)
    ensures fd !in s.server && fd in Next(s, a).server ==> a == InsertServer && s.acceptor.fd == fd
    ensures a == Destroy(fd) ==> fd !in Next(s, a).owner
  {
  }

  lemma {:induction false} Sizes(s: State, acts: seq<Action>)
    ensures |Exec(s, acts).sweeps| == |s.sweeps|
  {
    if acts != [] { Sizes(s, acts[..|acts| - 1]); }
  }

  lemma FindSweep(s0: State, acts: seq<Action>, i: nat, fd: int, id: nat) returns (v: nat)
    requires Init(s0) && i < |s0.sweeps|
    requires i < |Before(s0, acts, |acts|).sweeps| && Before(s0, acts, |acts|).sweeps[i] == Erased(fd, id, fd)
    ensures v < |acts| && SweptAt(s0, acts, v, i, fd, id)
  {
    forall k | 0 <= k <= |acts|
      ensures |Before(s0, acts, k).sweeps| == |s0.sweeps|
    {
      Sizes(s0, acts[..k]);
    }
    var other := seq(|acts| + 1, k requires 0 <= k <= |acts| => Before(s0, acts, k).sweeps[i] != Erased(fd, id, fd));
    assert Before(s0, acts, 0) == s0;
    v := Turn(other, 0);
    OneStep(s0, acts, v);
    SweptTurn(Before(s0, acts, v), acts[v], i, fd, id);
  }

  ghost predicate Unowned(s: State, fd: int) { fd !in s.owner }

  ghost predicate Unknown(s: State, fd: int) { fd !in s.server }

  lemma StepInv(s0: State, acts: seq<Action>, k: nat)
    requires Init(s0) && k < |acts|
    ensures var s, t := Before(s0, acts, k), Before(s0, acts, k + 1);
            Inv(s) && Inv(t) && (t == s || (Enabled(s, acts[k]) && t == Next(s, acts[k])))
  {
    InitInv(s0);
    Always(s0, acts[..k]);
    Always(s0, acts[..k + 1]);
    OneStep(s0, acts, k);
  }

  lemma IsDestroy(s0: State, acts: seq<Action>, d: nat, fd: int)
    requires Init(s0) && d < |acts|
    requires var s, t := Before(s0, acts, d), Before(s0, acts, d + 1);
             fd in s.owner && !(fd in t.owner && t.owner[fd] == s.owner[fd])
    ensures DestroyedAt(s0, acts, d, fd) && fd !in Before(s0, acts, d + 1).owner
  {
    StepInv(s0, acts, d);
    OwnerTurn(Before(s0, acts, d), acts[d], fd);
  }

  lemma IsAccept(s0: State, acts: seq<Action>, a: nat, fd: int)
    requires Init(s0) && a < |acts| && fd !in Before(s0, acts, a).owner && fd in Before(s0, acts, a + 1).owner
    ensures AcceptedAt(s0, acts, a, fd) && fd !in Before(s0, acts, a + 1).server
  {
    StepInv(s0, acts, a);
    OwnerTurn(Before(s0, acts, a), acts[a], fd);
  }

  lemma IsInsert(s0: State, acts: seq<Action>, n: nat, fd: int)
    requires Init(s0) && n < |acts| && fd !in Before(s0, acts, n).server && fd in Before(s0, acts, n + 1).server
    ensures InsertedAt(s0, acts, n, fd)
  {
    StepInv(s0, acts, n);
    OwnerTurn(Before(s0, acts, n), acts[n], fd);
  }

  lemma FindDestroy(s0: State, acts: seq<Action>, m: nat, fd: int, id: nat) returns (d: nat)
    requires Init(s0) && m <= |acts|
    requires var s, t := Before(s0, acts, m), Before(s0, acts, |acts|);
             fd in s.owner && s.owner[fd] == id && !(fd in t.owner && t.owner[fd] == id)
    ensures m <= d < |acts| && DestroyedAt(s0, acts, d, fd) && fd !in Before(s0, acts, d + 1).owner
  {
    var mine := seq(|acts| + 1, k requires 0 <= k <= |acts| =>
                      fd in Before(s0, acts, k).owner && Before(s0, acts, k).owner[fd] == id);
    d := Turn(mine, m);
    IsDestroy(s0, acts, d, fd);
  }

  lemma FindAccept(s0: State, acts: seq<Action>, m: nat, fd: int) returns (a: nat)
    requires Init(s0) && m <= |acts| && fd !in Before(s0, acts, m).owner && fd in Before(s0, acts, |acts|).owner
    ensures m <= a < |acts| && AcceptedAt(s0, acts, a, fd) && fd !in Before(s0, acts, a + 1).server
  {
    var none := seq(|acts| + 1, k requires 0 <= k <= |acts| => Unowned(Before(s0, acts, k), fd));
    a := Turn(none, m);
    assert Unowned(Before(s0, acts, a), fd) && !Unowned(Before(s0, acts, a + 1), fd);
    IsAccept(s0, acts, a, fd);
  }

  lemma FindInsert(s0: State, acts: seq<Action>, m: nat, fd: int) returns (n: nat)
    requires Init(s0) && m <= |acts| && fd !in Before(s0, acts, m).server && fd in Before(s0, acts, |acts|).server
    ensures m <= n < |acts| && InsertedAt(s0, acts, n, fd)
  {
    var none := seq(|acts| + 1, k requires 0 <= k <= |acts| => Unknown(Before(s0, acts, k), fd));
    n := Turn(none, m);
    assert Unknown(Before(s0, acts, n), fd) && !Unknown(Before(s0, acts, n + 1), fd);
    IsInsert(s0, acts, n, fd);
  }

  lemma NewerStep(s: State, a: Action, fd: int, bound: nat)
    requires Enabled(s, a) && s.nextId >= bound && (fd in s.owner ==> s.owner[fd] >= bound)
    ensures var t := Next(s, a); t.nextId >= bound && (fd in t.owner ==> t.owner[fd] >= bound)
  {
  }

  /** Identities grow: what owns an fd handed out at step a is newer than all before. */
  lemma {:induction false} Newer(s0: State, acts: seq<Action>, m: nat, fd: int, bound: nat)
    requires Init(s0) && m <= |acts| && Before(s0, acts, m).nextId >= bound
    requires fd in Before(s0, acts, m).owner ==> Before(s0, acts, m).owner[fd] >= bound
    ensures var t := Exec(s0, acts); fd in t.owner ==> t.owner[fd] >= bound
    decreases |acts| - m
  {
    if m == |acts| {
      assert acts[..m] == acts;
    } else {
      OneStep(s0, acts, m);
      if Happens(s0, acts, m) {
        NewerStep(Before(s0, acts, m), acts[m], fd, bound);
      }
      Newer(s0, acts, m + 1, fd, bound);
    }
  }

  lemma SweptOld(s0: State, acts: seq<Action>, v: nat, i: nat, fd: int, id: nat)
    requires Init(s0) && v < |acts| && SweptAt(s0, acts, v, i, fd, id)
    ensures var s := Before(s0, acts, v + 1); fd in s.owner && s.owner[fd] == id && id < s.nextId
  {
    InitInv(s0);
    Always(s0, acts[..v]);
    OneStep(s0, acts, v);
    assert Sharded(Before(s0, acts, v));
  }

  lemma {:induction false} NextIdGrows(s0: State, acts: seq<Action>, m: nat, k: nat)
    requires m <= k <= |acts|
    ensures Before(s0, acts, m).nextId <= Before(s0, acts, k).nextId
    decreases k - m
  {
    if m < k {
      OneStep(s0, acts, m);
      NextIdGrows(s0, acts, m + 1, k);
    }
  }

  ghost predicate SomeReuse(s0: State, acts: seq<Action>, i: nat, fd: int, id: nat)
  {
    exists v, d, a, n :: Reuse(s0, acts, i, fd, id, v, d, a, n)
  }

  lemma ReuseFound(s0: State, acts: seq<Action>, i: nat, fd: int, id: nat)
    requires Init(s0) && i < |s0.sweeps|
    requires var s := Before(s0, acts, |acts|);
             && i < |s.sweeps| && s.sweeps[i] == Erased(fd, id, fd)
             && fd in s.server && fd in s.owner && s.owner[fd] != id
    ensures SomeReuse(s0, acts, i, fd, id)
  {
    var v := FindSweep(s0, acts, i, fd, id);
    SweptOld(s0, acts, v, i, fd, id);
    var d := FindDestroy(s0, acts, v + 1, fd, id);
    var a := FindAccept(s0, acts, d + 1, fd);
    var n := FindInsert(s0, acts, a + 1, fd);
    assert Reuse(s0, acts, i, fd, id, v, d, a, n);
  }

  /** The specified sweep takes another's entry exactly in the runs in which, since its first erase, the
      swept connection was destroyed, its fd handed out again and the newcomer registered, which is
      still so when it reports. */
  lemma {:induction false} ReuseIff(s0: State, acts: seq<Action>, i: nat)
    requires Init(s0) && Enabled(Exec(s0, acts), Report(i)) && Exec(s0, acts).sweeps[i].report == Exec(s0, acts).sweeps[i].fd
    ensures var s := Exec(s0, acts); var e := s.sweeps[i];
            TakesOther(s, i) <==> e.fd in s.server && SomeReuse(s0, acts, i, e.fd, e.id)
  {
    var s := Exec(s0, acts);
    var fd, id := s.sweeps[i].fd, s.sweeps[i].id;
    assert acts[..|acts|] == acts;
    ReportTakesOtherIff(s0, acts, i);
    Sizes(s0, acts);
    if Foreign(s, i) {
      ReuseFound(s0, acts, i, fd, id);
    }
    if fd in s.server && SomeReuse(s0, acts, i, fd, id) {
      var v, d, a, n :| Reuse(s0, acts, i, fd, id, v, d, a, n);
      ReuseForeign(s0, acts, i, fd, id, v, a);
    }
  }

  lemma AcceptedNewer(s0: State, acts: seq<Action>, a: nat, fd: int, id: nat)
    requires Init(s0) && a < |acts| && AcceptedAt(s0, acts, a, fd) && id < Before(s0, acts, a).nextId
    ensures var t := Exec(s0, acts); fd in t.owner ==> t.owner[fd] != id
  {
    OneStep(s0, acts, a);
    Newer(s0, acts, a + 1, fd, Before(s0, acts, a).nextId);
  }

  lemma ServerOwned(s0: State, acts: seq<Action>, fd: int)
    requires Init(s0) && fd in Exec(s0, acts).server
    ensures fd in Exec(s0, acts).owner
  {
    InitInv(s0);
    Always(s0, acts);
    assert ServerOk(Exec(s0, acts));
  }

  lemma ReuseForeign(s0: State, acts: seq<Action>, i: nat, fd: int, id: nat, v: nat, a: nat)
    requires Init(s0) && v < a < |acts| && SweptAt(s0, acts, v, i, fd, id) && AcceptedAt(s0, acts, a, fd)
    requires fd in Exec(s0, acts).server
    ensures fd in Exec(s0, acts).owner && Exec(s0, acts).owner[fd] != id
  {
    SweptOld(s0, acts, v, i, fd, id);
    NextIdGrows(s0, acts, v + 1, a);
    AcceptedNewer(s0, acts, a, fd, id);
    ServerOwned(s0, acts, fd);
  }

  // ---------------------------------------------------------------- who is listed, told from the actions

  ghost predicate Listed(s: State, fd: int, id: nat) { fd in s.server && s.server[fd] == id }

  /** Step n: the acceptor inserts connection id under fd into the server's map. */
  ghost predicate ListsAt(s0: State, acts: seq<Action>, n: nat, fd: int, id: nat)
    requires n < |acts|
  {
    InsertedAt(s0, acts, n, fd) && Before(s0, acts, n).acceptor.id == id
  }

  /** Step k: the connection that owns fd closes. */
  ghost predicate ClosesAt(s0: State, acts: seq<Action>, k: nat, fd: int)
    requires k < |acts|
  {
    acts[k] == Close(fd) && Happens(s0, acts, k)
  }

  /** Step k: a sweep reports fd. */
  ghost predicate ReportsAt(s0: State, acts: seq<Action>, k: nat, fd: int)
    requires k < |acts|
  {
    acts[k].Report? && Happens(s0, acts, k) && Before(s0, acts, k).sweeps[acts[k].loop].report == fd
  }

  /** Nobody closes or reports fd from step m on. */
  ghost predicate Undisturbed(s0: State, acts: seq<Action>, m: nat, fd: int)
  {
    forall k :: m <= k < |acts| ==> !ClosesAt(s0, acts, k, fd) && !ReportsAt(s0, acts, k, fd)
  }

  ghost predicate ListedSince(s0: State, acts: seq<Action>, n: nat, fd: int, id: nat)
  {
    n < |acts| && ListsAt(s0, acts, n, fd, id) && Undisturbed(s0, acts, n + 1, fd)
  }

  ghost predicate SomeListing(s0: State, acts: seq<Action>, fd: int, id: nat)
  {
    exists n :: ListedSince(s0, acts, n, fd, id)
  }

  lemma ListedStep(s: State, a: Action, fd: int, id: nat)
    requires Inv(s) && Enabled(s, a)
    ensures Listed(Next(s, a), fd, id) <==>
            || (a == InsertServer && s.acceptor.fd == fd && s.acceptor.id == id)
            || (Listed(s, fd, id) && a != Close(fd) && !(a.Report? && s.sweeps[a.loop].report == fd))
  {
  }

  lemma SameEarlier(s0: State, acts: seq<Action>, k: nat, fd: int, id: nat)
    requires k < |acts| - 1
    ensures var b := acts[..|acts| - 1];
            && (ListsAt(s0, b, k, fd, id) <==> ListsAt(s0, acts, k, fd, id))
            && (ClosesAt(s0, b, k, fd) <==> ClosesAt(s0, acts, k, fd))
            && (ReportsAt(s0, b, k, fd) <==> ReportsAt(s0, acts, k, fd))
  {
    assert acts[..|acts| - 1][..k] == acts[..k];
  }

  /** The last step of a run disturbs fd. */
  ghost predicate LastDisturbs(s0: State, acts: seq<Action>, fd: int)
    requires acts != []
  {
    ClosesAt(s0, acts, |acts| - 1, fd) || ReportsAt(s0, acts, |acts| - 1, fd)
  }

  lemma UndisturbedStep(s0: State, acts: seq<Action>, m: nat, fd: int)
    requires acts != [] && m < |acts|
    ensures Undisturbed(s0, acts, m, fd) <==> Undisturbed(s0, acts[..|acts| - 1], m, fd) && !LastDisturbs(s0, acts, fd)
  {
    var n := |acts| - 1;
    forall k | 0 <= k < n
      ensures ClosesAt(s0, acts[..n], k, fd) <==> ClosesAt(s0, acts, k, fd)
      ensures ReportsAt(s0, acts[..n], k, fd) <==> ReportsAt(s0, acts, k, fd)
    {
      SameEarlier(s0, acts, k, fd, 0);
    }
    if Undisturbed(s0, acts, m, fd) {
      forall k | m <= k < n
        ensures !ClosesAt(s0, acts[..n], k, fd) && !ReportsAt(s0, acts[..n], k, fd)
      {
        assert !ClosesAt(s0, acts, k, fd) && !ReportsAt(s0, acts, k, fd);
      }
    }
    if Undisturbed(s0, acts[..n], m, fd) && !LastDisturbs(s0, acts, fd) {
      forall k | m <= k < |acts|
        ensures !ClosesAt(s0, acts, k, fd) && !ReportsAt(s0, acts, k, fd)
      {
        if k < n {
          assert !ClosesAt(s0, acts[..n], k, fd) && !ReportsAt(s0, acts[..n], k, fd);
        }
      }
    }
  }

  lemma ListingLasts(s0: State, acts: seq<Action>, n: nat, fd: int, id: nat)
    requires n < |acts| - 1
    ensures ListedSince(s0, acts, n, fd, id) <==>
            ListedSince(s0, acts[..|acts| - 1], n, fd, id) && !LastDisturbs(s0, acts, fd)
  {
    SameEarlier(s0, acts, n, fd, id);
    UndisturbedStep(s0, acts, n + 1, fd);
  }

  lemma SomeListingStep(s0: State, acts: seq<Action>, fd: int, id: nat)
    requires acts != []
    ensures SomeListing(s0, acts, fd, id) <==>
            || ListsAt(s0, acts, |acts| - 1, fd, id)
            || (SomeListing(s0, acts[..|acts| - 1], fd, id) && !LastDisturbs(s0, acts, fd))
  {
    var m := |acts| - 1;
    if ListsAt(s0, acts, m, fd, id) {
      assert ListedSince(s0, acts, m, fd, id);
    }
    if SomeListing(s0, acts[..m], fd, id) && !LastDisturbs(s0, acts, fd) {
      var n: nat :| ListedSince(s0, acts[..m], n, fd, id);
      ListingLasts(s0, acts, n, fd, id);
    }
    if SomeListing(s0, acts, fd, id) && !ListsAt(s0, acts, m, fd, id) {
      var n: nat :| ListedSince(s0, acts, n, fd, id);
      ListingLasts(s0, acts, n, fd, id);
    }
  }

  /** Whom the server lists, exactly: connection id under fd in precisely the runs in which the acceptor
      inserted it and since then neither it closed nor a sweep reported its fd. */
  lemma {:induction false} ListedIff(s0: State, acts: seq<Action>, fd: int, id: nat)
    requires Init(s0)
    ensures Listed(Exec(s0, acts), fd, id) <==> SomeListing(s0, acts, fd, id)
  {
    if acts != [] {
      var n := |acts| - 1;
      ListedIff(s0, acts[..n], fd, id);
      SomeListingStep(s0, acts, fd, id);
      InitInv(s0);
      Always(s0, acts[..n]);
      if Happens(s0, acts, n) {
        ListedStep(Before(s0, acts, n), acts[n], fd, id);
      }
    }
  }

  // ---------------------------------------------------------------- the histories, told from the actions

  /** What can befall a connection: it closes, a sweep erases it without reporting it, or a report on
      another's behalf removes its entry. */
  datatype Mark = Closing | Orphaning | Stealing

  /** The step does that to connection id. */
  predicate Marks(m: Mark, s: State, a: Action, id: nat)
    requires Enabled(s, a)
  {
    match m
    case Closing => a.Close? && s.owner[a.fd] == id
    case Orphaning => a.Visit? && a.late && a.report != a.key && s.subs[a.loop][a.key] == id
    case Stealing =>
      a.Report? && var e := s.sweeps[a.loop]; e.report in s.server && s.server[e.report] == id && id != e.id
  }

  function Marked(m: Mark, s: State): set<nat>
  {
    match m
    case Closing => s.closed
    case Orphaning => s.orphaned
    case Stealing => s.stolen
  }

  ghost predicate MarkAt(m: Mark, s0: State, acts: seq<Action>, k: nat, id: nat)
    requires k < |acts|
  {
    Happens(s0, acts, k) && Marks(m, Before(s0, acts, k), acts[k], id)
  }

  ghost predicate SomeMark(m: Mark, s0: State, acts: seq<Action>, id: nat)
  {
    exists k :: 0 <= k < |acts| && MarkAt(m, s0, acts, k, id)
  }

  lemma SameMark(m: Mark, s0: State, acts: seq<Action>, k: nat, id: nat)
    requires k < |acts| - 1
    ensures MarkAt(m, s0, acts[..|acts| - 1], k, id) <==> MarkAt(m, s0, acts, k, id)
  {
    assert acts[..|acts| - 1][..k] == acts[..k];
  }

  lemma SomeMarkStep(m: Mark, s0: State, acts: seq<Action>, id: nat)
    requires acts != []
    ensures SomeMark(m, s0, acts, id) <==> SomeMark(m, s0, acts[..|acts| - 1], id) || MarkAt(m, s0, acts, |acts| - 1, id)
  {
    var n := |acts| - 1;
    if k :| 0 <= k < n && MarkAt(m, s0, acts[..n], k, id) {
      SameMark(m, s0, acts, k, id);
      assert MarkAt(m, s0, acts, k, id);
    } else if k :| 0 <= k < |acts| && MarkAt(m, s0, acts, k, id) {
      if k < n { SameMark(m, s0, acts, k, id); }
    }
  }

  lemma MarkStep(m: Mark, s: State, a: Action, id: nat)
    requires Enabled(s, a)
    ensures id in Marked(m, Next(s, a)) <==> id in Marked(m, s) || Marks(m, s, a, id)
  {
  }

  /** Recorded as closed, erased without report or robbed are exactly the connections to which a step of
      the run did that. */
  lemma {:induction false} MarkedIff(m: Mark, s0: State, acts: seq<Action>, id: nat)
    requires Init(s0)
    ensures id in Marked(m, Exec(s0, acts)) <==> SomeMark(m, s0, acts, id)
  {
    if acts != [] {
      var n := |acts| - 1;
      MarkedIff(m, s0, acts[..n], id);
      SomeMarkStep(m, s0, acts, id);
      if Happens(s0, acts, n) {
        MarkStep(m, Before(s0, acts, n), acts[n], id);
      }
    }
  }

  lemma DisturbedBy(s0: State, acts: seq<Action>, m: nat, fd: int, k: nat)
    requires k < |acts| && Undisturbed(s0, acts, m, fd) && ClosesAt(s0, acts, k, fd)
    ensures k < m
  {
  }

  ghost predicate ListedAfter(s0: State, acts: seq<Action>, fd: int, id: nat, k: nat)
  {
    exists n :: ListedSince(s0, acts, n, fd, id) && k < n
  }

  /** A connection that closed is listed by the server only if it closed before the acceptor inserted it:
      the server forgets it at every close after that. */
  lemma {:induction false} ClosedListed(s0: State, acts: seq<Action>, id: nat, k: nat)
    requires Init(s0) && k < |acts| && MarkAt(Closing, s0, acts, k, id)
    ensures Listed(Exec(s0, acts), acts[k].fd, id) ==> ListedAfter(s0, acts, acts[k].fd, id, k)
  {
    var fd := acts[k].fd;
    ListedIff(s0, acts, fd, id);
    if SomeListing(s0, acts, fd, id) {
      var n: nat :| ListedSince(s0, acts, n, fd, id);
      DisturbedBy(s0, acts, n + 1, fd, k);
      assert acts[n] == InsertServer && acts[k].Close?;
    }
  }

  // ---------------------------------------------------------------- it happens

  lemma {:induction false} ExecStep(s: State, acts: seq<Action>, a: Action)
    ensures Exec(s, acts + [a]) == var t := Exec(s, acts); if Enabled(t, a) then Next(t, a) else t
  {
    assert (acts + [a])[..|acts|] == acts;
  }

  /** Connection 5 is open in sub-loop 0 and the server does not know it. */
  ghost predicate Evicted(s: State)
  {
    && |s.subs| == 1 && |s.sweeps| == 1 && s.sweeps[0].Scanning?
    && 5 in s.subs[0] && s.subs[0][5] !in s.closed && 5 !in s.server
  }

  /** That window is real even with the specified sweep: close, sweep out of the sub-loop, destroy,
      reuse of the fd, then the saved key takes the newcomer out of the server's map. */
  lemma {:induction false} OpenConnectionEvicted(s0: State) returns (acts: seq<Action>)
    requires Init(s0) && |s0.subs| == 1
    ensures Evicted(Exec(s0, acts))
  {
    acts := AcceptFive(s0, []);
    ExecStep(s0, acts, Close(5));
    acts := acts + [Close(5)];
    acts := SweptAway(s0, acts);
    acts := AcceptFive(s0, acts);
    ExecStep(s0, acts, Report(0));
    acts := acts + [Report(0)];
  }

  lemma {:induction false} AcceptFive(s0: State, before: seq<Action>) returns (acts: seq<Action>)
    requires Enabled(Exec(s0, before), Accept(5)) && |Exec(s0, before).subs| == 1
    ensures var s, t := Exec(s0, before), Exec(s0, acts);
            && t == s.(server := s.server[5 := s.nextId], subs := [s.subs[0][5 := s.nextId]],
                       owner := s.owner[5 := s.nextId], nextId := s.nextId + 1)
  {
    ExecStep(s0, before, Accept(5));
    acts := before + [Accept(5)];
    ExecStep(s0, acts, InsertServer);
    acts := acts + [InsertServer];
    assert Home(1, 5) == 0;
    ExecStep(s0, acts, InsertSub);
    acts := acts + [InsertSub];
  }

  lemma {:induction false} SweptAway(s0: State, before: seq<Action>) returns (acts: seq<Action>)
    requires var s := Exec(s0, before);
             && |s.subs| == 1 && s.sweeps == [Quiet] && s.acceptor == Resting
             && 5 in s.subs[0] && (forall k :: k in s.subs[0] ==> k == 5)
             && 5 !in s.server && 5 in s.owner
    ensures var s, t := Exec(s0, before), Exec(s0, acts);
            && |t.subs| == 1 && t.sweeps == [Erased(5, s.subs[0][5], 5)] && t.acceptor == Resting
            && 5 !in t.owner && t.closed == s.closed && t.nextId == s.nextId
  {
    var s := Exec(s0, before);
    ExecStep(s0, before, StartSweep(0));
    acts := before + [StartSweep(0)];
    ExecStep(s0, acts, Visit(0, 5, true, 5));
    acts := acts + [Visit(0, 5, true, 5)];
    var t := Exec(s0, acts);
    assert t.sweeps == [Erased(5, s.subs[0][5], 5)];
    assert Unreferenced(t, 5);
    ExecStep(s0, acts, Destroy(5));
    acts := acts + [Destroy(5)];
  }
}
