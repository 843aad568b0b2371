/** Channels and the epoll interest table. The kernel table is a map from fd to mask; `exit(-1)`
    after a refused epoll_ctl is the sticky flag `exited`, after which nothing happens any more. */
module Interest {

  datatype Event = In | Pri | Out | RdHup | Err | Hup

  type Mask = set<Event>

  datatype Poll = Poll(kernel: map<int, Mask>, exited: bool)

  datatype Chan = Chan(inepoll: bool, events: Mask)

  datatype View = View(poll: Poll, chan: Chan)

  datatype Op = EnableReading | DisableReading | EnableWriting | DisableWriting | DisableAll | Remove

  /** `Epoll::updatechannel`: MOD when the channel believes it is registered, ADD otherwise.
      The kernel refuses MOD on an absent fd and ADD on a present one. */
  function Update(fd: int, v: View): View
  {
    if v.poll.exited then v
    else if v.chan.inepoll != (fd in v.poll.kernel) then v.(poll := v.poll.(exited := true))
    else View(Poll(v.poll.kernel[fd := v.chan.events], false), v.chan.(inepoll := true))
  }

  /** `Epoll::removechannel`: DEL, leaving the channel's own flag set. */
  function Delete(fd: int, v: View): View
  {
    if v.poll.exited || !v.chan.inepoll then v
    else if fd !in v.poll.kernel then v.(poll := v.poll.(exited := true))
    else v.(poll := Poll(v.poll.kernel - {fd}, false))
  }

  /** One operation of a channel. */
  function Apply(fd: int, v: View, op: Op): View
  {
    if v.poll.exited then v
    else
      var e := v.chan.events;
      match op
      case EnableReading => Update(fd, v.(chan := v.chan.(events := e + {In})))
      case DisableReading => Update(fd, v.(chan := v.chan.(events := e - {In})))
      case EnableWriting => Update(fd, v.(chan := v.chan.(events := e + {Out})))
      case DisableWriting => Update(fd, v.(chan := v.chan.(events := e - {Out})))
      case DisableAll => Update(fd, v.(chan := v.chan.(events := {})))
      case Remove => Delete(fd, Update(fd, v.(chan := v.chan.(events := {}))))
  }

  function Run(fd: int, v: View, ops: seq<Op>): View
  {
    if ops == [] then v
    else Apply(fd, Run(fd, v, ops[..|ops| - 1]), ops[|ops| - 1])
  }

  const FRESH := Chan(false, {})

  /** Some operation comes after a removal. */
  ghost predicate UsedAfterRemove(ops: seq<Op>)
  {
    exists i :: 0 <= i < |ops| - 1 && ops[i] == Remove
  }

  lemma {:induction false} UsedAfterRemoveStep(ops: seq<Op>)
    requires ops != []
    ensures var before := ops[..|ops| - 1];
            UsedAfterRemove(ops) <==>
            UsedAfterRemove(before) || (before != [] && before[|before| - 1] == Remove)
  {
    var n := |ops| - 1;
    var before := ops[..n];
    if UsedAfterRemove(before) {
      var i :| 0 <= i < n - 1 && before[i] == Remove;
      assert ops[i] == Remove;
    }
    if before != [] && before[n - 1] == Remove {
      assert ops[n - 1] == Remove;
    }
    if UsedAfterRemove(ops) {
      var i :| 0 <= i < n && ops[i] == Remove;
      assert before[i] == Remove;
    }
  }

  /** One operation: it is refused exactly when the channel's flag and the table disagree. */
  lemma ApplyOnce(fd: int, v: View, op: Op)
    requires !v.poll.exited
    ensures var w := Apply(fd, v, op);
            && (w.poll.exited <==> v.chan.inepoll != (fd in v.poll.kernel))
            && w.poll.kernel - {fd} == v.poll.kernel - {fd}
            && (!w.poll.exited ==>
                  && w.chan.inepoll
                  && (if op == Remove then fd !in w.poll.kernel
                      else fd in w.poll.kernel && w.poll.kernel[fd] == w.chan.events))
  {
  }

  /** Interest-table agreement: over every run of one channel, an epoll_ctl is refused exactly when
      something follows a `remove`; until then the kernel's mask is the channel's own, a removed fd
      is gone from the table, and no other fd's entry is ever touched. */
  lemma {:induction false} InterestAgreement(fd: int, kernel: map<int, Mask>, ops: seq<Op>)
    requires fd !in kernel
    ensures var v := Run(fd, View(Poll(kernel, false), FRESH), ops);
            && (v.poll.exited <==> UsedAfterRemove(ops))
            && v.poll.kernel - {fd} == kernel
            && (!v.poll.exited && ops != [] ==>
                  && v.chan.inepoll
                  && (if ops[|ops| - 1] == Remove then fd !in v.poll.kernel
                      else fd in v.poll.kernel && v.poll.kernel[fd] == v.chan.events))
  {
    if ops != [] {
      var before := ops[..|ops| - 1];
      InterestAgreement(fd, kernel, before);
      UsedAfterRemoveStep(ops);
      var v := Run(fd, View(Poll(kernel, false), FRESH), before);
      if !v.poll.exited {
        ApplyOnce(fd, v, ops[|ops| - 1]);
      }
    }
  }

  /** `on` was asked for and nothing after that withdrew it. */
  ghost predicate Wanted(ops: seq<Op>, on: Op, off: Op)
  {
    exists i :: 0 <= i < |ops| && ops[i] == on && Standing(ops, i, off)
  }

  ghost predicate Standing(ops: seq<Op>, i: int, off: Op)
    requires 0 <= i < |ops|
  {
    forall j :: i < j < |ops| ==> Leaves(ops[j], off)
  }

  /** The operation does not withdraw what `off` withdraws. */
  predicate Leaves(op: Op, off: Op) { op != off && op != DisableAll && op != Remove }

  lemma {:induction false} WantedBefore(ops: seq<Op>, on: Op, off: Op)
    requires ops != [] && Wanted(ops, on, off) && ops[|ops| - 1] != on
    ensures Leaves(ops[|ops| - 1], off) && Wanted(ops[..|ops| - 1], on, off)
  {
    var n := |ops| - 1;
    var i :| 0 <= i < |ops| && ops[i] == on && Standing(ops, i, off);
    assert i < n && Leaves(ops[n], off);
    assert ops[..n][i] == on && Standing(ops[..n], i, off);
  }

  lemma {:induction false} WantedAfter(ops: seq<Op>, on: Op, off: Op)
    requires ops != [] && Wanted(ops[..|ops| - 1], on, off) && Leaves(ops[|ops| - 1], off)
    ensures Wanted(ops, on, off)
  {
    var n := |ops| - 1;
    var i :| 0 <= i < n && ops[..n][i] == on && Standing(ops[..n], i, off);
    forall j | i < j < |ops|
      ensures Leaves(ops[j], off)
    {
      if j < n {
        assert Leaves(ops[..n][j], off);
      }
    }
    assert ops[i] == on && Standing(ops, i, off);
  }

  lemma {:induction false} WantedStep(ops: seq<Op>, on: Op, off: Op)
    requires ops != []
    ensures var last := ops[|ops| - 1];
            Wanted(ops, on, off) <==> last == on || (Leaves(last, off) && Wanted(ops[..|ops| - 1], on, off))
  {
    var last := ops[|ops| - 1];
    if last == on {
      assert Standing(ops, |ops| - 1, off);
    } else if Wanted(ops, on, off) {
      WantedBefore(ops, on, off);
    }
    if Leaves(last, off) && Wanted(ops[..|ops| - 1], on, off) {
      WantedAfter(ops, on, off);
    }
  }

  lemma ApplyEvents(fd: int, v: View, op: Op)
    requires !v.poll.exited
    ensures var e, w := v.chan.events, Apply(fd, v, op).chan.events;
            && (In in w <==> op == EnableReading || (op !in {DisableReading, DisableAll, Remove} && In in e))
            && (Out in w <==> op == EnableWriting || (op !in {DisableWriting, DisableAll, Remove} && Out in e))
            && (e <= {In, Out} ==> w <= {In, Out})
  {
  }

  /** What a channel watches, over every run not cut short by a refused epoll_ctl: reading (writing)
      exactly if it was enabled and not withdrawn since, and nothing else. */
  lemma {:induction false} WatchesWanted(fd: int, kernel: map<int, Mask>, ops: seq<Op>)
    requires fd !in kernel
    requires !UsedAfterRemove(ops)
    ensures var e := Run(fd, View(Poll(kernel, false), FRESH), ops).chan.events;
            && (In in e <==> Wanted(ops, EnableReading, DisableReading))
            && (Out in e <==> Wanted(ops, EnableWriting, DisableWriting))
            && e <= {In, Out}
  {
    if ops != [] {
      var before := ops[..|ops| - 1];
      UsedAfterRemoveStep(ops);
      WatchesWanted(fd, kernel, before);
      InterestAgreement(fd, kernel, before);
      WantedStep(ops, EnableReading, DisableReading);
      WantedStep(ops, EnableWriting, DisableWriting);
      ApplyEvents(fd, Run(fd, View(Poll(kernel, false), FRESH), before), ops[|ops| - 1]);
    }
  }

  // ---------------------------------------------------------------- dispatch

  datatype Reaction = OnClose | OnRead | OnWrite | OnError

  /** `Channel::handleevent`: the first matching branch only. */
  function Dispatch(revents: Mask): Reaction
  {
    if RdHup in revents then OnClose
    else if In in revents || Pri in revents then OnRead
    else if Out in revents then OnWrite
    else OnError
  }

  // ---------------------------------------------------------------- the objects

  class Epoll {
    var kernel: map<int, Mask>
    var exited: bool

    constructor ()
      ensures kernel == map[] && !exited
    {
      kernel := map[];
      exited := false;
    }

    method UpdateChannel(ch: Channel)
      requires ch.loop == this
      modifies this, ch`inepoll
      ensures ch.Now() == Update(ch.fd, old(ch.Now()))
    {
      if exited { return; }
      if ch.inepoll {
        if ch.fd in kernel {
          kernel := kernel[ch.fd := ch.events];
        } else {
          exited := true;
        }
      } else {
        if ch.fd !in kernel {
          kernel := kernel[ch.fd := ch.events];
          ch.inepoll := true;
        } else {
          exited := true;
        }
      }
    }

    method RemoveChannel(ch: Channel)
      requires ch.loop == this
      modifies this
      ensures ch.Now() == Delete(ch.fd, old(ch.Now()))
    {
      if exited { return; }
      if ch.inepoll {
        if ch.fd in kernel {
          kernel := kernel - {ch.fd};
        } else {
          exited := true;
        }
      }
    }
  }

  class Channel {
    const fd: int
    const loop: Epoll
    var inepoll: bool
    var events: Mask
    var revents: Mask

    ghost function Now(): View
      reads this, loop
    {
      View(Poll(loop.kernel, loop.exited), Chan(inepoll, events))
    }

    constructor (loop: Epoll, fd: int)
      ensures this.loop == loop && this.fd == fd
      ensures inepoll == false && events == {} && revents == {}
    {
      this.loop := loop;
      this.fd := fd;
      inepoll := false;
      events := {};
      revents := {};
    }

    method EnableReading()
      modifies this`inepoll, this`events, loop
      ensures Now() == Apply(fd, old(Now()), Op.EnableReading)
    {
      if loop.exited { return; }
      events := events + {In};
      loop.UpdateChannel(this);
    }

    method DisableReading()
      modifies this`inepoll, this`events, loop
      ensures Now() == Apply(fd, old(Now()), Op.DisableReading)
    {
      if loop.exited { return; }
      events := events - {In};
      loop.UpdateChannel(this);
    }

    method EnableWriting()
      modifies this`inepoll, this`events, loop
      ensures Now() == Apply(fd, old(Now()), Op.EnableWriting)
    {
      if loop.exited { return; }
      events := events + {Out};
      loop.UpdateChannel(this);
    }

    method DisableWriting()
      modifies this`inepoll, this`events, loop
      ensures Now() == Apply(fd, old(Now()), Op.DisableWriting)
    {
      if loop.exited { return; }
      events := events - {Out};
      loop.UpdateChannel(this);
    }

    method DisableAll()
      modifies this`inepoll, this`events, loop
      ensures Now() == Apply(fd, old(Now()), Op.DisableAll)
    {
      if loop.exited { return; }
      events := {};
      loop.UpdateChannel(this);
    }

    method Remove()
      modifies this`inepoll, this`events, loop
      ensures Now() == Apply(fd, old(Now()), Op.Remove)
    {
      if loop.exited { return; }
      DisableAll();
      loop.RemoveChannel(this);
    }
  }
}
