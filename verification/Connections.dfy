/** One connection: reading and extracting messages, queueing frames, writing them out, hanging up. */
module Connections {
  import opened Framing
  import opened Buffers
  import opened Interest

  // ---------------------------------------------------------------- reading

  /** One result of `read` on the non-blocking socket. */
  datatype Read = Data(bytes: Bytes) | Interrupted | Failed | WouldBlock | Eof

  /** The results one call of `onmessage` sees: it goes on until EAGAIN or end of file. */
  predicate OneCall(results: seq<Read>)
  {
    && results != []
    && (results[|results| - 1] == WouldBlock || results[|results| - 1] == Eof)
    && forall i :: 0 <= i < |results| - 1 ==> results[i] != WouldBlock && results[i] != Eof
  }

  function Received(results: seq<Read>): Bytes
  {
    if results == [] then []
    else
      var last := results[|results| - 1];
      Received(results[..|results| - 1]) + (if last.Data? then last.bytes else [])
  }

  lemma ReceivedStep(results: seq<Read>, i: nat)
    requires i < |results|
    ensures Received(results[..i + 1]) == Received(results[..i]) + (if results[i].Data? then results[i].bytes else [])
  {
    assert results[..i + 1][..i] == results[..i];
  }

  /** What `Received` is: data in order, and nothing from the other results. */
  lemma {:induction false} ReceivedIs(a: seq<Read>, b: seq<Read>, bytes: Bytes)
    ensures Received(a + b) == Received(a) + Received(b)
    ensures Received([Data(bytes)]) == bytes
    ensures Received([Interrupted]) == Received([Failed]) == Received([WouldBlock]) == Received([Eof]) == []
  {
    assert [Data(bytes)][..0] == [] && [Interrupted][..0] == [] && [Failed][..0] == [] && [WouldBlock][..0] == [] && [Eof][..0] == [];
    if b == [] {
      assert a + b == a;
    } else {
      var n := |b| - 1;
      var last := if b[n].Data? then b[n].bytes else [];
      ReceivedIs(a, b[..n], bytes);
      assert (a + b)[..|a| + n] == a + b[..n];
      ConcatAssociates(Received(a), Received(b[..n]), last);
    }
  }

  predicate Calls(calls: seq<seq<Read>>) { forall i :: 0 <= i < |calls| ==> OneCall(calls[i]) }

  datatype Phase = Live | Closed | Stuck

  /** What a series of read callbacks has delivered, what it left buffered, and whether the
      connection still reads: it hung up at end of file, or never came out of the extraction loop. */
  datatype Reading = Reading(delivered: seq<Bytes>, input: Bytes, phase: Phase)

  /** One read callback: messages are extracted at EAGAIN only. */
  function AfterCall(r: Reading, call: seq<Read>): Reading
    requires OneCall(call)
  {
    var all := r.input + Received(call);
    if r.phase != Live then r
    else if call[|call| - 1] == Eof then Reading(r.delivered, all, Closed)
    else Reading(r.delivered + Drain(all).msgs, Drain(all).rest, if Drain(all).verdict == Waiting then Live else Stuck)
  }

  function Session(calls: seq<seq<Read>>): Reading
    requires Calls(calls)
  {
    if calls == [] then Reading([], [], Live)
    else AfterCall(Session(calls[..|calls| - 1]), calls[|calls| - 1])
  }

  /** Some call saw end of file; calls after that do not read. */
  predicate Ended(calls: seq<seq<Read>>)
    requires Calls(calls)
  {
    calls != [] && (Ended(calls[..|calls| - 1]) || var last := calls[|calls| - 1]; last[|last| - 1] == Eof)
  }

  /** All bytes read. */
  function Arrived(calls: seq<seq<Read>>): Bytes
    requires Calls(calls)
  {
    if calls == [] then []
    else
      var before := calls[..|calls| - 1];
      if Ended(before) then Arrived(before) else Arrived(before) + Received(calls[|calls| - 1])
  }

  /** The bytes read up to the last EAGAIN. */
  function Answered(calls: seq<seq<Read>>): Bytes
    requires Calls(calls)
  {
    if Ended(calls) then Answered(calls[..|calls| - 1]) else Arrived(calls)
  }

  /** The bytes read together with the end of file. */
  function Final(calls: seq<seq<Read>>): Bytes
    requires Calls(calls)
  {
    if !Ended(calls) then []
    else if Ended(calls[..|calls| - 1]) then Final(calls[..|calls| - 1])
    else Received(calls[|calls| - 1])
  }

  lemma {:induction false} ArrivedParts(calls: seq<seq<Read>>)
    requires Calls(calls)
    ensures Arrived(calls) == Answered(calls) + Final(calls)
  {
    if Ended(calls) {
      ArrivedParts(calls[..|calls| - 1]);
    }
  }

  /** The input buffer never outgrows what was read. */
  lemma {:induction false} SessionFits(calls: seq<seq<Read>>)
    requires Calls(calls)
    ensures |Session(calls).input| <= |Arrived(calls)|
    ensures Ended(calls) ==> Session(calls).phase != Live
  {
    if calls != [] {
      var before, last := calls[..|calls| - 1], calls[|calls| - 1];
      SessionFits(before);
      DrainEnds(Session(before).input + Received(last));
    }
  }

  lemma {:induction false} ArrivedGrows(calls: seq<seq<Read>>, n: nat)
    requires Calls(calls) && n <= |calls|
    ensures |Arrived(calls[..n])| <= |Arrived(calls)|
    decreases |calls| - n
  {
    if n < |calls| {
      assert calls[..n + 1][..n] == calls[..n];
      ArrivedGrows(calls, n + 1);
    } else {
      assert calls[..n] == calls;
    }
  }

  lemma ReadFits(calls: seq<seq<Read>>, i: nat)
    requires Calls(calls) && i < |calls| && Session(calls[..i]).phase == Live
    ensures |Session(calls[..i]).input| + |Received(calls[i])| <= |Arrived(calls)|
  {
    assert calls[..i + 1][..i] == calls[..i];
    SessionFits(calls[..i]);
    ArrivedGrows(calls, i + 1);
  }

  /** `r` parsed the bytes `answered`, kept the rest and put `final` behind it. */
  ghost predicate ParsedAs(r: Reading, answered: Bytes, final: Bytes, ended: bool)
  {
    var d := Drain(answered);
    r == Reading(d.msgs, d.rest + final, if ended then Closed else Live)
  }

  lemma DrainMore(a: Bytes, b: Bytes)
    requires WellFormed(a + b)
    ensures var d := Drain(Drain(a).rest + b);
            Drain(a + b).msgs == Drain(a).msgs + d.msgs && Drain(a + b).rest == d.rest && d.verdict == Waiting
  {
    DrainSplit(a, b);
    DrainSound(Drain(a).rest + b);
  }

  lemma QuietCall(r: Reading, answered: Bytes, call: seq<Read>)
    requires OneCall(call) && call[|call| - 1] != Eof && WellFormed(answered + Received(call))
    requires ParsedAs(r, answered, [], false)
    ensures ParsedAs(AfterCall(r, call), answered + Received(call), [], false)
  {
    var more := Received(call);
    DrainMore(answered, more);
    assert r.input == Drain(answered).rest;
    assert AfterCall(r, call) == Reading(Drain(answered + more).msgs, Drain(answered + more).rest, Live);
  }

  lemma EofCall(r: Reading, answered: Bytes, call: seq<Read>)
    requires OneCall(call) && call[|call| - 1] == Eof && ParsedAs(r, answered, [], false)
    ensures ParsedAs(AfterCall(r, call), answered, Received(call), true)
  {
    var d := Drain(answered);
    assert d.rest + [] == d.rest;
  }

  /** The session so far parsed the bytes read up to the last EAGAIN and kept the others. */
  ghost predicate Parsed(calls: seq<seq<Read>>)
    requires Calls(calls)
  {
    ParsedAs(Session(calls), Answered(calls), Final(calls), Ended(calls))
  }

  /** Chunking independence: however a well-formed stream is cut into reads and wherever EAGAIN
      falls, the delivered messages are the parse of the bytes read up to the last EAGAIN, and the
      buffer holds the unparsed rest followed by what came with the end of file. */
  lemma {:induction false} ChunkingIndependence(calls: seq<seq<Read>>)
    requires Calls(calls) && WellFormed(Answered(calls))
    ensures Parsed(calls)
  {
    if calls != [] {
      var before, call := calls[..|calls| - 1], calls[|calls| - 1];
      if !Ended(calls) {
        DrainSplit(Arrived(before), Received(call));
        ChunkingIndependence(before);
        QuietCall(Session(before), Arrived(before), call);
      } else {
        ChunkingIndependence(before);
        if !Ended(before) {
          EofCall(Session(before), Arrived(before), call);
        }
      }
    }
  }

  /** Nothing that arrived is lost exactly if no message is complete only with the bytes that came
      together with the end of file: those are buffered and never extracted. */
  lemma NothingLostIff(calls: seq<seq<Read>>)
    requires Calls(calls) && WellFormed(Arrived(calls))
    ensures Session(calls).delivered == Drain(Arrived(calls)).msgs
            <==> Pick(Drain(Answered(calls)).rest + Final(calls)) == Incomplete
    ensures Drain(Arrived(calls)).msgs == Session(calls).delivered + Drain(Session(calls).input).msgs
  {
    var early, last := Answered(calls), Final(calls);
    ArrivedParts(calls);
    DrainSplit(early, last);
    ChunkingIndependence(calls);
    DrainSound(Drain(early).rest + last);
  }

  /** A request that arrives together with the peer's shutdown is not delivered. */
  lemma LastRequestLost(m: Bytes)
    requires ValidBody(m)
    ensures var calls := [[Data(Frame(m)), Eof]];
            Calls(calls) && Session(calls) == Reading([], Frame(m), Closed) && Drain(Arrived(calls)).msgs == [m]
  {
    var call := [Data(Frame(m)), Eof];
    assert call[..1] == [Data(Frame(m))] && call[..1][..0] == [];
    assert Received(call[..1]) == Received([]) + Frame(m) == Frame(m);
    assert Received(call) == Received(call[..1]) + [] == Frame(m);
    assert Session([call][..0]) == Reading([], [], Live);
    assert [] + Frame(m) == Frame(m);
    DrainEncode([m], []);
    EncodeCons(m, []);
    assert EncodeAll([m]) + [] == Frame(m);
  }

  /** The same, from the sender's side: a peer that has sent a prefix of printed messages has had a
      prefix of them delivered, every byte read is in a delivered message or still buffered, and all
      are delivered exactly if every byte was read before the last EAGAIN. */
  lemma ReceivedInOrder(calls: seq<seq<Read>>, ms: seq<Bytes>)
    requires Calls(calls) && ValidAll(ms) && Arrived(calls) <= EncodeAll(ms)
    ensures Session(calls).delivered <= ms
    ensures EncodeAll(Session(calls).delivered) + Session(calls).input == Arrived(calls)
    ensures Session(calls).delivered == ms <==> Answered(calls) == EncodeAll(ms)
  {
    ArrivedParts(calls);
    DrainPrefix(Answered(calls), ms);
    DrainSound(Answered(calls));
    ChunkingIndependence(calls);
    var d := Drain(Answered(calls));
    ConcatAssociates(EncodeAll(d.msgs), d.rest, Final(calls));
  }

  // ---------------------------------------------------------------- writing

  /** A connection's sending half. `wire` holds the bytes the kernel has accepted, `sent` the bodies
      given to `sendinloop`, `completions` the runs of the send-complete callback and `hangups` the
      runs of `closecallback` and `errorcallback`. */
  datatype Link = Link(fd: int, chan: Chan, output: Bytes, disconnect: bool,
                       wire: Bytes, sent: seq<Bytes>, completions: nat, hangups: nat)

  datatype Joint = Joint(poll: Poll, link: Link)

  function Rearm(j: Joint, op: Op): Joint
  {
    var v := Apply(j.link.fd, View(j.poll, j.link.chan), op);
    Joint(v.poll, j.link.(chan := v.chan))
  }

  /** The constructor: reading is enabled at once. */
  function Opened(p: Poll, fd: int): Joint
  {
    Rearm(Joint(p, Link(fd, FRESH, [], false, [], [], 0, 0)), EnableReading)
  }

  function AfterSend(j: Joint, m: Bytes): Joint
  {
    if j.poll.exited then j
    else Rearm(Joint(j.poll, j.link.(output := j.link.output + Frame(m), sent := j.link.sent + [m])), EnableWriting)
  }

  /** `writecallback`; `writen` is the result of ::send on the whole buffer. */
  function AfterWrite(j: Joint, writen: int): Joint
    requires -1 <= writen <= |j.link.output|
  {
    if j.poll.exited then j
    else
      var n := if writen > 0 then writen else 0;
      var l := j.link.(wire := j.link.wire + j.link.output[..n], output := j.link.output[n..]);
      if l.output == [] then Rearm(Joint(j.poll, l.(completions := l.completions + 1)), DisableWriting)
      else Joint(j.poll, l)
  }

  /** `closecallback` and `errorcallback`, which differ only in the server function they report to. */
  function AfterHangUp(j: Joint): Joint
  {
    if j.poll.exited then j
    else Rearm(Joint(j.poll, j.link.(disconnect := true, hangups := j.link.hangups + 1)), Remove)
  }

  /** Bytes on the wire followed by the buffered bytes are the frames given to sendinloop, in order. */
  ghost predicate Streamed(l: Link) { l.wire + l.output == EncodeAll(l.sent) }

  /** What the extraction loop does in all, having delivered some messages and with `buf` left. */
  ghost function StillToDrain(delivered: seq<Bytes>, buf: Bytes): Drained
  {
    Drained(delivered + Drain(buf).msgs, Drain(buf).rest, Drain(buf).verdict)
  }

  lemma DrainRound(delivered: seq<Bytes>, buf: Bytes)
    requires Pick(buf).Message?
    ensures var o := Pick(buf);
            StillToDrain(delivered, buf)
            == if |o.rest| == |buf| then Drained(delivered + [o.body], o.rest, Looping)
               else StillToDrain(delivered + [o.body], o.rest)
  {
    var o := Pick(buf);
    PickShrinks(buf);
    if |o.rest| < |buf| {
      ConcatAssociates(delivered, [o.body], Drain(o.rest).msgs);
    }
  }

  lemma DrainStops(delivered: seq<Bytes>, buf: Bytes)
    requires !Pick(buf).Message?
    ensures StillToDrain(delivered, buf) == Drained(delivered, buf, if Pick(buf) == Incomplete then Waiting else Undefined)
  {
    assert delivered + [] == delivered;
  }

  /** An open link: its interest is the kernel's, and write interest is on exactly while bytes wait. */
  ghost predicate Armed(p: Poll, l: Link)
  {
    && l.chan.inepoll && l.fd in p.kernel && p.kernel[l.fd] == l.chan.events
    && In in l.chan.events && l.chan.events <= {In, Out}
    && (Out in l.chan.events <==> l.output != [])
  }

  lemma OpenedArmed(p: Poll, fd: int)
    requires !p.exited && fd !in p.kernel
    ensures var k := Opened(p, fd);
            && !k.poll.exited && k.poll.kernel == p.kernel[fd := {In}] && Armed(k.poll, k.link)
            && Streamed(k.link) && !k.link.disconnect && k.link.hangups == 0 && k.link.fd == fd
            && k.link.sent == [] && k.link.wire == [] && k.link.completions == 0
  {
    assert {} + {In} == {In};
  }

  lemma SendKeeps(j: Joint, m: Bytes)
    requires !j.poll.exited && Streamed(j.link)
    ensures var k := AfterSend(j, m);
            && Streamed(k.link)
            && k.link == j.link.(output := j.link.output + Frame(m), sent := j.link.sent + [m], chan := k.link.chan)
            && (Armed(j.poll, j.link) ==> !k.poll.exited && Armed(k.poll, k.link))
            && (j.link.chan.inepoll && j.link.fd !in j.poll.kernel ==> k.poll.exited)
            && k.poll.kernel - {j.link.fd} == j.poll.kernel - {j.link.fd}
  {
    ApplyOnce(j.link.fd, View(j.poll, j.link.chan), EnableWriting);
    EncodeConcat(j.link.sent, [m]);
    EncodeCons(m, []);
    ConcatAssociates(j.link.wire, j.link.output, Frame(m));
  }

  lemma WriteKeeps(j: Joint, writen: int)
    requires !j.poll.exited && Streamed(j.link) && -1 <= writen <= |j.link.output|
    ensures var k := AfterWrite(j, writen);
            && Streamed(k.link)
            && (writen > 0 ==> k.link.wire == j.link.wire + j.link.output[..writen] && k.link.output == j.link.output[writen..])
            && (writen <= 0 ==> k.link.wire == j.link.wire && k.link.output == j.link.output)
            && k.link.completions == j.link.completions + (if k.link.output == [] then 1 else 0)
            && k.link == j.link.(wire := k.link.wire, output := k.link.output, chan := k.link.chan, completions := k.link.completions)
            && (Armed(j.poll, j.link) ==> !k.poll.exited && Armed(k.poll, k.link))
            && k.poll.kernel - {j.link.fd} == j.poll.kernel - {j.link.fd}
  {
    var n := if writen > 0 then writen else 0;
    ApplyOnce(j.link.fd, View(j.poll, j.link.chan), DisableWriting);
    ConcatAssociates(j.link.wire, j.link.output[..n], j.link.output[n..]);
    assert j.link.output[..n] + j.link.output[n..] == j.link.output;
  }

  lemma HangUpKeeps(j: Joint)
    requires !j.poll.exited && Streamed(j.link) && Armed(j.poll, j.link)
    ensures var k := AfterHangUp(j);
            && Streamed(k.link)
            && k.link == j.link.(disconnect := true, hangups := j.link.hangups + 1, chan := k.link.chan)
            && !k.poll.exited && k.link.chan.inepoll && j.link.fd !in k.poll.kernel
            && k.poll.kernel - {j.link.fd} == j.poll.kernel - {j.link.fd}
  {
    ApplyOnce(j.link.fd, View(j.poll, j.link.chan), Remove);
  }

  /** A peer decoding with the same framing has always received a prefix of the bodies sent,
      and all of them once the output buffer is empty. */
  lemma PeerDecodes(l: Link)
    requires Streamed(l) && ValidAll(l.sent)
    ensures Drain(l.wire).msgs <= l.sent
    ensures l.output == [] ==> Drain(l.wire) == Drained(l.sent, [], Waiting)
  {
    DrainPrefix(l.wire, l.sent);
  }

  // ---------------------------------------------------------------- draining the output

  /** Write callbacks with no sends in between; `room` is what the kernel would accept each time. */
  function Writes(j: Joint, room: seq<nat>): Joint
  {
    if room == [] then j
    else
      var k := Writes(j, room[..|room| - 1]);
      AfterWrite(k, if room[|room| - 1] < |k.link.output| then room[|room| - 1] else |k.link.output|)
  }

  /** After the first n callbacks bytes still wait and completion has not fired. */
  ghost predicate Busy(j: Joint, room: seq<nat>, n: nat)
    requires n <= |room|
  {
    var k := Writes(j, room[..n]).link;
    k.output != [] && k.completions == j.link.completions
  }

  lemma WriteSome(k: Joint, w: int)
    requires !k.poll.exited && Streamed(k.link) && Armed(k.poll, k.link) && 1 <= w <= |k.link.output|
    ensures var n := AfterWrite(k, w);
            && !n.poll.exited && Streamed(n.link) && Armed(n.poll, n.link)
            && |n.link.output| == |k.link.output| - w
            && n.link.completions == k.link.completions + (if n.link.output == [] then 1 else 0)
  {
    WriteKeeps(k, w);
  }

  /** With every write accepting at least one byte, some number of callbacks not above the buffered
      size empties the buffer; completion fires at that one and at no earlier one. */
  lemma {:induction false} DrainBound(j: Joint, room: seq<nat>) returns (n: nat)
    requires !j.poll.exited && Streamed(j.link) && Armed(j.poll, j.link) && j.link.output != []
    requires |room| >= |j.link.output| && forall i :: 0 <= i < |room| ==> room[i] >= 1
    ensures 1 <= n <= |j.link.output|
    ensures forall i :: 0 <= i < n ==> Busy(j, room, i)
    ensures var k := Writes(j, room[..n]).link;
            k.output == [] && Out !in k.chan.events && k.completions == j.link.completions + 1
  {
    n := 0;
    var k := j;
    assert room[..0] == [];
    while k.link.output != []
      invariant 0 <= n && |k.link.output| + n <= |j.link.output|
      invariant k == Writes(j, room[..n])
      invariant !k.poll.exited && Streamed(k.link) && Armed(k.poll, k.link)
      invariant k.link.completions == j.link.completions + (if k.link.output == [] then 1 else 0)
      invariant forall i :: 0 <= i < n ==> Busy(j, room, i)
      decreases |k.link.output|
    {
      assert Busy(j, room, n);
      var w := if room[n] < |k.link.output| then room[n] else |k.link.output|;
      WriteSome(k, w);
      assert room[..n + 1][..n] == room[..n];
      k := AfterWrite(k, w);
      n := n + 1;
    }
  }

  // ---------------------------------------------------------------- the object

  ghost function Copies(now: int, n: nat): seq<int> { seq(n, i => now) }

  lemma CopiesPush(times: seq<int>, now: int, n: nat)
    ensures times + Copies(now, n) + [now] == times + Copies(now, n + 1)
  {
  }

  ghost predicate Ascending(ts: seq<int>) { forall i, j :: 0 <= i < j < |ts| ==> ts[i] <= ts[j] }

  class Connection {
    const loop: Epoll
    const channel: Channel
    const inputbuffer: Buffer
    const outputbuffer: Buffer
    var disconnect: bool
    var lasttime: int
    ghost var heard: seq<int>   // the times of creation and of every message delivered
    ghost var wire: Bytes
    ghost var sent: seq<Bytes>
    ghost var completions: nat
    ghost var hangups: nat

    ghost predicate Valid()
      reads this
    {
      && channel.loop == loop && inputbuffer != outputbuffer
      && heard != [] && lasttime == heard[|heard| - 1]
    }

    ghost function Now(): Joint
      requires Valid()
      reads this, channel, loop, outputbuffer
    {
      Joint(Poll(loop.kernel, loop.exited),
            Link(channel.fd, Chan(channel.inepoll, channel.events), outputbuffer.buf, disconnect,
                 wire, sent, completions, hangups))
    }

    constructor (loop: Epoll, fd: int, now: int)
      modifies loop
      ensures Valid() && fresh(channel) && fresh(inputbuffer) && fresh(outputbuffer) && this.loop == loop
      ensures inputbuffer.buf == [] && heard == [now]
      ensures Now() == Opened(old(Poll(loop.kernel, loop.exited)), fd)
    {
      var ch := new Channel(loop, fd);
      var ib := new Buffer();
      var ob := new Buffer();
      this.loop := loop;
      channel := ch;
      inputbuffer := ib;
      outputbuffer := ob;
      disconnect := false;
      lasttime := now;
      heard := [now];
      wire, sent, completions, hangups := [], [], 0, 0;
      new;
      channel.EnableReading();
    }

    /** `onmessage`. `results` are the results of the successive reads of this call, `now` the clock.
        On EAGAIN everything extractable is delivered; on end of file the connection hangs up and
        the buffered bytes stay unparsed. */
    method OnMessage(results: seq<Read>, now: int, beyond: Bytes) returns (delivered: seq<Bytes>, verdict: Verdict)
      requires Valid() && OneCall(results) && |beyond| >= 3
      requires |inputbuffer.buf| + |Received(results)| <= MAX_STRING
      modifies this, inputbuffer, channel, loop
      ensures Valid()
      ensures var all := old(inputbuffer.buf) + Received(results);
              if results[|results| - 1] == WouldBlock then
                && Drained(delivered, inputbuffer.buf, verdict) == Drain(all)
                && heard == old(heard) + Copies(now, |delivered|)
                && Now() == old(Now())
              else
                && delivered == [] && inputbuffer.buf == all && heard == old(heard)
                && Now() == AfterHangUp(old(Now()))
    {
      delivered, verdict := [], Waiting;
      var eof := Fill(results);
      if eof {
        CloseCallback();
      } else {
        delivered, verdict := Extract(now, beyond);
      }
    }

    /** The read callbacks of one connection, one after the other, `times` being the clock at each:
        what they deliver is the session, and every delivered message refreshes the idle time. */
    method ReadEvents(calls: seq<seq<Read>>, times: seq<int>, beyond: Bytes)
      returns (delivered: seq<Bytes>, phase: Phase)
      requires Valid() && inputbuffer.buf == [] && Calls(calls) && |times| == |calls| && |beyond| >= 3
      requires |Arrived(calls)| <= MAX_STRING
      modifies this, inputbuffer, channel, loop
      ensures Valid() && Reading(delivered, inputbuffer.buf, phase) == Session(calls)
      ensures |heard| == |old(heard)| + |delivered| && old(heard) <= heard
      ensures Now() == if phase == Closed then AfterHangUp(old(Now())) else old(Now())
    {
      delivered, phase := [], Live;
      for i := 0 to |calls|
        invariant Valid() && Reading(delivered, inputbuffer.buf, phase) == Session(calls[..i])
        invariant |heard| == |old(heard)| + |delivered| && old(heard) <= heard
        invariant Now() == if phase == Closed then AfterHangUp(old(Now())) else old(Now())
      {
        assert calls[..i + 1][..i] == calls[..i];
        if phase == Live {
          ReadFits(calls, i);
          var more, verdict := OnMessage(calls[i], times[i], beyond);
          delivered := delivered + more;
          phase := if calls[i][|calls[i]| - 1] == Eof then Closed else if verdict == Waiting then Live else Stuck;
        }
      }
      assert calls[..|calls|] == calls;
    }

    /** The outer loop: every chunk read goes into the input buffer; EINTR and other errors retry. */
    method Fill(results: seq<Read>) returns (eof: bool)
      requires OneCall(results)
      modifies inputbuffer
      ensures inputbuffer.buf == old(inputbuffer.buf) + Received(results)
      ensures eof <==> results[|results| - 1] == Eof
    {
      var i := 0;
      assert results[..0] == [];
      while !(results[i] == WouldBlock || results[i] == Eof)
        invariant 0 <= i < |results|
        invariant inputbuffer.buf == old(inputbuffer.buf) + Received(results[..i])
        decreases |results| - i
      {
        ReceivedStep(results, i);
        if results[i].Data? {
          inputbuffer.Append(results[i].bytes);
        }
        i := i + 1;
      }
      eof := results[i] == Eof;
      ReceivedStep(results, i);
      assert results[..i + 1] == results;
    }

    /** The inner loop: pick and deliver until no message is left. */
    method Extract(now: int, beyond: Bytes) returns (delivered: seq<Bytes>, verdict: Verdict)
      requires Valid() && |beyond| >= 3 && |inputbuffer.buf| <= MAX_STRING
      modifies this`lasttime, this`heard, inputbuffer
      ensures Valid() && heard == old(heard) + Copies(now, |delivered|)
      ensures Drained(delivered, inputbuffer.buf, verdict) == Drain(old(inputbuffer.buf))
    {
      delivered := [];
      ghost var whole := Drain(inputbuffer.buf);
      assert heard == heard + Copies(now, 0) && StillToDrain([], inputbuffer.buf) == whole;
      while true
        invariant |inputbuffer.buf| <= MAX_STRING
        invariant whole == StillToDrain(delivered, inputbuffer.buf)
        invariant Valid() && heard == old(heard) + Copies(now, |delivered|)
        decreases |inputbuffer.buf|
      {
        var before := inputbuffer.buf;
        var o := inputbuffer.PickMessage(beyond);
        match o
        case Message(m, rest) =>
          lasttime := now;
          CopiesPush(old(heard), now, |delivered|);
          heard := heard + [now];
          DrainRound(delivered, before);
          delivered := delivered + [m];
          if |rest| == |before| { return delivered, Looping; }
        case Incomplete =>
          DrainStops(delivered, before);
          return delivered, Waiting;
        case _ =>
          DrainStops(delivered, before);
          return delivered, Undefined;
      }
    }

    method CloseCallback()
      requires Valid()
      modifies this`disconnect, this`hangups, channel, loop
      ensures Now() == AfterHangUp(old(Now()))
      ensures !old(loop.exited) ==> disconnect && hangups == old(hangups) + 1
    {
      if loop.exited { return; }
      disconnect := true;
      hangups := hangups + 1;
      channel.Remove();
    }

    /** `sendinloop`. `copy` is the memory at the pointer it was given. */
    method SendInLoop(copy: Bytes, size: nat) returns (ok: bool)
      requires Valid()
      modifies this`sent, channel, loop, outputbuffer
      ensures ok <==> old(loop.exited) || Print(copy, size).Printed?
      ensures Now() == if size <= |copy| then AfterSend(old(Now()), copy[..size]) else old(Now())
      ensures outputbuffer.buf == old(outputbuffer.buf) + (if ok && !old(loop.exited) then Frame(copy[..size]) else [])
      ensures size <= |copy| && !old(loop.exited) ==> sent == old(sent) + [copy[..size]] && Event.Out in channel.events
    {
      if loop.exited { return true; }
      ok := outputbuffer.AppendWithSep(copy, size);
      if ok {
        sent := sent + [copy[..size]];
        channel.EnableWriting();
      }
    }

    method WriteCallback(writen: int)
      requires Valid() && -1 <= writen <= |outputbuffer.buf|
      modifies this`wire, this`completions, channel, loop, outputbuffer
      ensures Now() == AfterWrite(old(Now()), writen)
      ensures writen <= 0 ==> wire == old(wire) && outputbuffer.buf == old(outputbuffer.buf)
      ensures writen > 0 && !old(loop.exited) ==>
                && wire == old(wire) + old(outputbuffer.buf)[..writen]
                && outputbuffer.buf == old(outputbuffer.buf)[writen..]
    {
      if loop.exited { return; }
      if writen > 0 {
        wire := wire + outputbuffer.buf[..writen];
        var ok := outputbuffer.Erase(0, writen);
      }
      var left := outputbuffer.Size();
      if left == 0 {
        completions := completions + 1;
        channel.DisableWriting();
      }
    }

    /** A connection is timed out exactly if, under a clock that does not step back, neither its
        creation nor any message lies within the last `val` seconds. */
    method Timeout(now: int, val: int) returns (late: bool)
      requires Valid()
      ensures late <==> now - heard[|heard| - 1] > val
      ensures Ascending(heard) ==> (late <==> forall i :: 0 <= i < |heard| ==> heard[i] + val < now)
    {
      late := now - lasttime > val;
    }
  }
}
