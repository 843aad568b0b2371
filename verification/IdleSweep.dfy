/** The idle sweep of `handletimer`: what its header specifies, what its loop does, and how long an
    idle connection can stay. */
module IdleSweep {

  /** An entry of a sub-loop's std::map, which iterates in ascending order of fd. */
  datatype Entry = Entry(fd: int, lasttime: int)

  predicate Ascending(es: seq<Entry>) { forall i, j :: 0 <= i < j < |es| ==> es[i].fd < es[j].fd }

  /** `Connection::timeout`. */
  predicate Expired(e: Entry, now: int, timeout: int) { now - e.lasttime > timeout }

  /** What a sweep leaves in the sub-loop's map and in the server's map. */
  datatype Swept = Swept(conns: seq<Entry>, server: set<int>) | Undefined

  /** What `SweepAsSpecified` below leaves: the entries that are not expired, and a server's map
      without the fds of the others. */
  function Specified(es: seq<Entry>, server: set<int>, now: int, timeout: int): Swept
  {
    Swept(Kept(es, now, timeout), server - ExpiredFds(es, now, timeout))
  }

  function Kept(es: seq<Entry>, now: int, timeout: int): seq<Entry>
  {
    if es == [] then []
    else (if Expired(es[0], now, timeout) then [] else [es[0]]) + Kept(es[1..], now, timeout)
  }

  function ExpiredFds(es: seq<Entry>, now: int, timeout: int): set<int>
  {
    if es == [] then {}
    else (if Expired(es[0], now, timeout) then {es[0].fd} else {}) + ExpiredFds(es[1..], now, timeout)
  }

  /** As coded: after `aa = conns_.erase(aa)` the iterator is at the successor, whose key is reported
      to the server, and the loop's own increment then skips it. At the end both are undefined. */
  function Coded(es: seq<Entry>, server: set<int>, now: int, timeout: int): Swept
    decreases |es|
  {
    if es == [] then Swept([], server)
    else if !Expired(es[0], now, timeout) then Prepend([es[0]], Coded(es[1..], server, now, timeout))
    else if |es| == 1 then Undefined
    else Prepend([es[1]], Coded(es[2..], server - {es[1].fd}, now, timeout))
  }

  function Prepend(es: seq<Entry>, r: Swept): Swept
  {
    match r
    case Undefined => Undefined
    case Swept(conns, server) => Swept(es + conns, server)
  }

  /** Checkable before the sweep: each expired connection has already left the server's map and is
      followed by one that has left it too and is not expired. */
  predicate Harmless(es: seq<Entry>, server: set<int>, now: int, timeout: int)
  {
    forall k :: 0 <= k < |es| && Expired(es[k], now, timeout) ==> HarmlessAt(es, k, server, now, timeout)
  }

  predicate HarmlessAt(es: seq<Entry>, k: nat, server: set<int>, now: int, timeout: int)
    requires k < |es|
  {
    && es[k].fd !in server
    && k + 1 < |es| && !Expired(es[k + 1], now, timeout) && es[k + 1].fd !in server
  }

  // ---------------------------------------------------------------- specified sweep

  /** The specified sweep keeps exactly the entries that are not expired and takes exactly the fds of
      the expired ones out of the server's map. */
  lemma {:induction false} SpecifiedIs(es: seq<Entry>, now: int, timeout: int)
    ensures forall e :: e in Kept(es, now, timeout) <==> e in es && !Expired(e, now, timeout)
    ensures forall fd :: fd in ExpiredFds(es, now, timeout) <==> exists e :: e in es && Expired(e, now, timeout) && e.fd == fd
  {
    if es != [] {
      SpecifiedIs(es[1..], now, timeout);
      assert forall e :: e in es <==> e == es[0] || e in es[1..];
    }
  }

  lemma HeadApart(es: seq<Entry>, fd: int, now: int, timeout: int)
    requires forall k :: 0 <= k < |es| ==> es[k].fd != fd
    ensures fd !in ExpiredFds(es, now, timeout)
  {
    if es != [] {
      HeadApart(es[1..], fd, now, timeout);
    }
  }

  // ---------------------------------------------------------------- coded sweep

  /** The coded sweep removes from the server's map only fds of the entries it walks over, and adds none. */
  lemma {:induction false} CodedServer(es: seq<Entry>, server: set<int>, now: int, timeout: int, fd: int)
    requires Coded(es, server, now, timeout).Swept?
    ensures fd in Coded(es, server, now, timeout).server ==> fd in server
    ensures fd in server && (forall k :: 0 <= k < |es| ==> es[k].fd != fd) ==> fd in Coded(es, server, now, timeout).server
    decreases |es|
  {
    if es != [] {
      if !Expired(es[0], now, timeout) {
        CodedServer(es[1..], server, now, timeout, fd);
      } else {
        CodedServer(es[2..], server - {es[1].fd}, now, timeout, fd);
      }
    }
  }

  /** The coded sweep erases an expired entry exactly if it did not erase the one before it. */
  predicate Gone(es: seq<Entry>, k: nat, now: int, timeout: int)
    requires k < |es|
  {
    Expired(es[k], now, timeout) && (k == 0 || !Gone(es, k - 1, now, timeout))
  }

  lemma {:induction false} GoneShift(es: seq<Entry>, k: nat, n: nat, now: int, timeout: int)
    requires 1 <= n <= |es| && k + n < |es| && !Gone(es, n - 1, now, timeout)
    ensures Gone(es, k + n, now, timeout) <==> Gone(es[n..], k, now, timeout)
  {
    if k > 0 {
      GoneShift(es, k - 1, n, now, timeout);
    }
  }

  /** What becomes of entry k: it leaves the sub-loop's map if it is gone, and the server's map if the
      one before it is. */
  ghost predicate FateOf(es: seq<Entry>, k: nat, server: set<int>, now: int, timeout: int, r: Swept)
    requires k < |es| && r.Swept?
  {
    && (es[k] in r.conns <==> !Gone(es, k, now, timeout))
    && (es[k].fd in r.server <==> es[k].fd in server && !(k > 0 && Gone(es, k - 1, now, timeout)))
  }

  /** The coded sweep, exactly: it runs past the end if and only if it erases the last entry; otherwise
      every second entry of a block of expired ones leaves the sub-loop's map, and each one's successor
      leaves the server's. */
  lemma {:induction false} CodedIs(es: seq<Entry>, server: set<int>, now: int, timeout: int)
    requires Ascending(es)
    ensures var r := Coded(es, server, now, timeout);
            && (r.Undefined? <==> es != [] && Gone(es, |es| - 1, now, timeout))
            && (r.Swept? ==> (forall e :: e in r.conns ==> e in es)
                             && forall k :: 0 <= k < |es| ==> FateOf(es, k, server, now, timeout, r))
    decreases |es|
  {
    if es != [] {
      if !Expired(es[0], now, timeout) {
        CodedIs(es[1..], server, now, timeout);
        CodedShift(es, 1, server, server, now, timeout, [es[0]]);
      } else if |es| > 1 {
        CodedIs(es[2..], server - {es[1].fd}, now, timeout);
        CodedShift(es, 2, server, server - {es[1].fd}, now, timeout, [es[1]]);
      }
    }
  }

  lemma CodedShift(es: seq<Entry>, n: nat, server: set<int>, left: set<int>, now: int, timeout: int, head: seq<Entry>)
    requires Ascending(es) && 1 <= n <= |es| && !Gone(es, n - 1, now, timeout)
    requires (n == 1 && head == [es[0]] && left == server)
             || (n == 2 && head == [es[1]] && left == server - {es[1].fd} && Gone(es, 0, now, timeout))
    requires var q := Coded(es[n..], left, now, timeout);
             && (q.Undefined? <==> es[n..] != [] && Gone(es[n..], |es| - n - 1, now, timeout))
             && (q.Swept? ==> (forall e :: e in q.conns ==> e in es[n..])
                              && forall k :: 0 <= k < |es| - n ==> FateOf(es[n..], k, left, now, timeout, q))
    ensures var r := Prepend(head, Coded(es[n..], left, now, timeout));
            && (r.Undefined? <==> Gone(es, |es| - 1, now, timeout))
            && (r.Swept? ==> (forall e :: e in r.conns ==> e in es)
                             && forall k :: 0 <= k < |es| ==> FateOf(es, k, server, now, timeout, r))
  {
    var q := Coded(es[n..], left, now, timeout);
    if |es| > n {
      GoneShift(es, |es| - n - 1, n, now, timeout);
    }
    if q.Swept? {
      forall k | 0 <= k < |es|
        ensures FateOf(es, k, server, now, timeout, Prepend(head, q))
      {
        if k >= n {
          assert FateOf(es[n..], k - n, left, now, timeout, q) && es[n..][k - n] == es[k];
          GoneShift(es, k - n, n, now, timeout);
          if k > n { GoneShift(es, k - n - 1, n, now, timeout); }
        } else {
          HeadFate(es, k, n, left, now, timeout, q);
        }
      }
    }
  }

  /** An entry before position n is touched by nothing the sweep does from there on. */
  lemma HeadFate(es: seq<Entry>, k: nat, n: nat, left: set<int>, now: int, timeout: int, q: Swept)
    requires Ascending(es) && k < n <= |es| && q == Coded(es[n..], left, now, timeout) && q.Swept?
    requires forall e :: e in q.conns ==> e in es[n..]
    ensures es[k] !in q.conns && (es[k].fd in q.server <==> es[k].fd in left)
  {
    forall j | 0 <= j < |es[n..]|
      ensures es[n..][j].fd != es[k].fd
    {
      assert es[n..][j] == es[j + n];
    }
    CodedServer(es[n..], left, now, timeout, es[k].fd);
  }

  lemma HarmlessTail(es: seq<Entry>, server: set<int>, now: int, timeout: int)
    requires es != [] && !Expired(es[0], now, timeout)
    ensures Harmless(es, server, now, timeout) <==> Harmless(es[1..], server, now, timeout)
  {
    var r := es[1..];
    if Harmless(es, server, now, timeout) {
      forall k | 0 <= k < |r| && Expired(r[k], now, timeout)
        ensures HarmlessAt(r, k, server, now, timeout)
      {
        assert r[k] == es[k + 1];
        assert HarmlessAt(es, k + 1, server, now, timeout);
      }
    }
    if Harmless(r, server, now, timeout) {
      forall k | 0 <= k < |es| && Expired(es[k], now, timeout)
        ensures HarmlessAt(es, k, server, now, timeout)
      {
        assert es[k] == r[k - 1];
        assert HarmlessAt(r, k - 1, server, now, timeout);
      }
    }
  }

  lemma HarmlessHead(es: seq<Entry>, server: set<int>, now: int, timeout: int)
    requires |es| >= 2 && Expired(es[0], now, timeout)
    ensures Harmless(es, server, now, timeout) <==>
            HarmlessAt(es, 0, server, now, timeout) && Harmless(es[2..], server, now, timeout)
  {
    if HarmlessAt(es, 0, server, now, timeout) {
      HarmlessTail(es[1..], server, now, timeout);
      assert es[1..][1..] == es[2..];
      if Harmless(es[1..], server, now, timeout) {
        forall k | 0 <= k < |es| && Expired(es[k], now, timeout)
          ensures HarmlessAt(es, k, server, now, timeout)
        {
          if k > 0 {
            assert HarmlessAt(es[1..], k - 1, server, now, timeout);
          }
        }
      }
      if Harmless(es, server, now, timeout) {
        forall k | 0 <= k < |es[1..]| && Expired(es[1..][k], now, timeout)
          ensures HarmlessAt(es[1..], k, server, now, timeout)
        {
          assert HarmlessAt(es, k + 1, server, now, timeout);
        }
      }
    }
  }

  /** If the coded sweep agrees with the specified one although its first entry is expired, then that
      entry and its successor were already out of the server's map and the successor is not expired. */
  lemma AgreesAtHead(es: seq<Entry>, server: set<int>, now: int, timeout: int)
    requires Ascending(es) && |es| >= 2 && Expired(es[0], now, timeout)
    requires Coded(es, server, now, timeout) == Specified(es, server, now, timeout)
    ensures HarmlessAt(es, 0, server, now, timeout)
  {
    var tail := es[2..];
    var r := Coded(tail, server - {es[1].fd}, now, timeout);
    SpecifiedIs(es, now, timeout);
    assert Kept(es, now, timeout) == [es[1]] + r.conns;
    assert es[1] in Kept(es, now, timeout);
    assert es[1..][1..] == tail;
    forall k | 0 <= k < |tail|
      ensures tail[k].fd != es[0].fd && tail[k].fd != es[1].fd
    {
      assert tail[k] == es[k + 2];
    }
    CodedServer(tail, server - {es[1].fd}, now, timeout, es[0].fd);
    CodedServer(tail, server - {es[1].fd}, now, timeout, es[1].fd);
    HeadApart(tail, es[1].fd, now, timeout);
  }

  lemma AgreesAfterHead(es: seq<Entry>, server: set<int>, now: int, timeout: int)
    requires Ascending(es) && |es| >= 2 && Expired(es[0], now, timeout) && HarmlessAt(es, 0, server, now, timeout)
    ensures Coded(es, server, now, timeout) == Specified(es, server, now, timeout) <==>
            Coded(es[2..], server, now, timeout) == Specified(es[2..], server, now, timeout)
  {
    var tail := es[2..];
    assert es[1..][1..] == tail;
    assert server - {es[1].fd} == server;
    assert Kept(es, now, timeout) == [] + ([es[1]] + Kept(tail, now, timeout));
    assert Kept(es, now, timeout) == [es[1]] + Kept(tail, now, timeout);
    assert server - ExpiredFds(es, now, timeout) == server - ExpiredFds(tail, now, timeout);
    var r := Coded(tail, server, now, timeout);
    if r.Swept? && [es[1]] + r.conns == [es[1]] + Kept(tail, now, timeout) {
      assert ([es[1]] + r.conns)[1..] == r.conns;
      assert ([es[1]] + Kept(tail, now, timeout))[1..] == Kept(tail, now, timeout);
    }
  }

  lemma AgreesPastKept(es: seq<Entry>, server: set<int>, now: int, timeout: int)
    requires es != [] && !Expired(es[0], now, timeout)
    ensures Coded(es, server, now, timeout) == Specified(es, server, now, timeout) <==>
            Coded(es[1..], server, now, timeout) == Specified(es[1..], server, now, timeout)
  {
    var r := Coded(es[1..], server, now, timeout);
    var kept := Kept(es[1..], now, timeout);
    assert ExpiredFds(es, now, timeout) == ExpiredFds(es[1..], now, timeout);
    if r.Swept? && [es[0]] + r.conns == [es[0]] + kept {
      assert ([es[0]] + r.conns)[1..] == r.conns;
      assert ([es[0]] + kept)[1..] == kept;
    }
  }

  /** The coded sweep does what is specified exactly when it is harmless. */
  lemma {:induction false} CodedMeetsSpecificationIff(es: seq<Entry>, server: set<int>, now: int, timeout: int)
    requires Ascending(es)
    ensures Coded(es, server, now, timeout) == Specified(es, server, now, timeout)
       <==> Harmless(es, server, now, timeout)
    decreases |es|
  {
    if es != [] {
      if !Expired(es[0], now, timeout) {
        AgreesPastKept(es, server, now, timeout);
        HarmlessTail(es, server, now, timeout);
        CodedMeetsSpecificationIff(es[1..], server, now, timeout);
      } else if |es| == 1 {
        assert !HarmlessAt(es, 0, server, now, timeout);
      } else {
        HarmlessHead(es, server, now, timeout);
        if Coded(es, server, now, timeout) == Specified(es, server, now, timeout) {
          AgreesAtHead(es, server, now, timeout);
        }
        if HarmlessAt(es, 0, server, now, timeout) {
          AgreesAfterHead(es, server, now, timeout);
          CodedMeetsSpecificationIff(es[2..], server, now, timeout);
        }
      }
    }
  }

  /** While every connection of the sub-loop is still in the server's map, that means: exactly when
      nothing has expired. */
  lemma CodedSweepsNothing(es: seq<Entry>, server: set<int>, now: int, timeout: int)
    requires Ascending(es) && forall k :: 0 <= k < |es| ==> es[k].fd in server
    ensures Coded(es, server, now, timeout) == Specified(es, server, now, timeout)
       <==> forall k :: 0 <= k < |es| ==> !Expired(es[k], now, timeout)
  {
    CodedMeetsSpecificationIff(es, server, now, timeout);
  }

  /** Two idle connections: the first leaves the sub-loop and stays with the server, the second the
      other way round. */
  lemma CodedSweepFails()
    ensures Coded([Entry(4, 0), Entry(7, 0)], {4, 7}, 100, 10) == Swept([Entry(7, 0)], {4})
    ensures Specified([Entry(4, 0), Entry(7, 0)], {4, 7}, 100, 10) == Swept([], {})
  {
    var es := [Entry(4, 0), Entry(7, 0)];
    assert es[2..] == [] && es[1..] == [Entry(7, 0)] && es[1..][1..] == [];
    assert Coded([], {4, 7} - {7}, 100, 10) == Swept([], {4, 7} - {7});
    assert [es[1]] + [] == [Entry(7, 0)];
  }

  // ---------------------------------------------------------------- the objects

  class ServerMap {
    var fds: set<int>

    method RemoveConn(fd: int)
      modifies this
      ensures fds == old(fds) - {fd}
    {
      fds := fds - {fd};
    }
  }

  class SubLoop {
    var conns: seq<Entry>
    const timeout: int
    const server: ServerMap

    constructor (timeout: int, server: ServerMap)
      ensures conns == [] && this.timeout == timeout && this.server == server
    {
      conns := [];
      this.timeout := timeout;
      this.server := server;
    }

    /** The sweep the header describes, on the code's own objects: an expired connection's key is
        saved, its entry erased and that key reported; the iterator moves on only past a kept entry. */
    method SweepAsSpecified(now: int)
      modifies this`conns, server
      ensures Swept(conns, server.fds) == Specified(old(conns), old(server.fds), now, timeout)
    {
      var aa := 0;
      assert conns[0..] == conns && [] + Kept(conns, now, timeout) == Kept(conns, now, timeout);
      while aa < |conns|
        invariant 0 <= aa <= |conns|
        invariant StillSpecified(conns[..aa], conns[aa..], server.fds, now, timeout)
               == Specified(old(conns), old(server.fds), now, timeout)
        decreases |conns| - aa
      {
        ghost var done, left := conns[..aa], conns[aa..];
        if Expired(conns[aa], now, timeout) {
          var key := conns[aa].fd;
          EraseStep(done, left, server.fds, now, timeout);
          CutOut(conns, aa);
          conns := conns[..aa] + conns[aa + 1..];
          server.RemoveConn(key);
        } else {
          KeepStep(done, left, server.fds, now, timeout);
          StepOver(conns, aa);
          aa := aa + 1;
        }
      }
      assert conns[..aa] + [] == conns;
    }

    /** The loop of `handletimer` as it stands; `aa` is the iterator, `defined` tells whether it
        stayed clear of dereferencing or incrementing end(). */
    method HandleTimer(now: int) returns (defined: bool)
      modifies this`conns, server
      ensures Coded(old(conns), old(server.fds), now, timeout)
           == if defined then Swept(conns, server.fds) else Undefined
    {
      var aa := 0;
      assert conns[0..] == conns;
      PrependNothing(Coded(conns, server.fds, now, timeout));
      while aa < |conns|
        invariant 0 <= aa <= |conns|
        invariant Coded(old(conns), old(server.fds), now, timeout)
               == Prepend(conns[..aa], Coded(conns[aa..], server.fds, now, timeout))
        decreases |conns| - aa
      {
        ghost var done, left, fds := conns[..aa], conns[aa..], server.fds;
        if Expired(conns[aa], now, timeout) {
          conns := conns[..aa] + conns[aa + 1..];
          if aa == |conns| { return false; }
          server.RemoveConn(conns[aa].fd);
          assert conns[aa] == left[1] && conns[aa + 1..] == left[2..];
        } else {
          assert conns[aa + 1..] == left[1..];
        }
        PrependMore(done, conns[aa], Coded(conns[aa + 1..], server.fds, now, timeout));
        assert conns[..aa + 1] == done + [conns[aa]];
        aa := aa + 1;
      }
      assert conns[..aa] + [] == conns;
      return true;
    }
  }

  lemma CutOut(es: seq<Entry>, aa: nat)
    requires aa < |es|
    ensures var cut := es[..aa] + es[aa + 1..]; cut[..aa] == es[..aa] && cut[aa..] == es[aa..][1..]
  {
  }

  lemma StepOver(es: seq<Entry>, aa: nat)
    requires aa < |es|
    ensures es[..aa + 1] == es[..aa] + [es[aa..][0]] && es[aa + 1..] == es[aa..][1..]
  {
  }

  /** What is specified of a sweep that has done `done` and has `left` before it. */
  ghost function StillSpecified(done: seq<Entry>, left: seq<Entry>, fds: set<int>, now: int, timeout: int): Swept
  {
    Swept(done + Kept(left, now, timeout), fds - ExpiredFds(left, now, timeout))
  }

  lemma EraseStep(done: seq<Entry>, left: seq<Entry>, fds: set<int>, now: int, timeout: int)
    requires left != [] && Expired(left[0], now, timeout)
    ensures StillSpecified(done, left, fds, now, timeout)
         == StillSpecified(done, left[1..], fds - {left[0].fd}, now, timeout)
  {
    var more, out := Kept(left[1..], now, timeout), ExpiredFds(left[1..], now, timeout);
    assert [] + more == more;
    assert fds - ({left[0].fd} + out) == fds - {left[0].fd} - out;
  }

  lemma KeepStep(done: seq<Entry>, left: seq<Entry>, fds: set<int>, now: int, timeout: int)
    requires left != [] && !Expired(left[0], now, timeout)
    ensures StillSpecified(done, left, fds, now, timeout)
         == StillSpecified(done + [left[0]], left[1..], fds, now, timeout)
  {
    var more, out := Kept(left[1..], now, timeout), ExpiredFds(left[1..], now, timeout);
    assert done + ([left[0]] + more) == (done + [left[0]]) + more;
    assert {} + out == out;
  }

  lemma PrependNothing(r: Swept)
    ensures Prepend([], r) == r
  {
    if r.Swept? {
      assert [] + r.conns == r.conns;
    }
  }

  lemma PrependMore(es: seq<Entry>, e: Entry, r: Swept)
    ensures Prepend(es, Prepend([e], r)) == Prepend(es + [e], r)
  {
    if r.Swept? {
      assert es + ([e] + r.conns) == (es + [e]) + r.conns;
    }
  }
}
