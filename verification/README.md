# A verified model of a multi-threaded reactor server

The server reads length-prefixed messages from non-blocking sockets in several event loops, hands them
to a pool of worker threads, and sends the replies back through the loop that owns the connection. This
project models that path in Dafny and proves what it delivers, over every input and every interleaving.

`dafny verify dfyconfig.toml` checks everything. One module per file:

- `Framing`: the four-byte header and body, read with the arithmetic of the C++ code, printed, and
  extracted until nothing is left. `Buffers` is the `Buffer` object over it.
- `Interest`: channels and the epoll interest table. `Connections`: reading, queueing, writing and
  hanging up of one connection. `Reactor`: one loop with all its connections.
- `ThreadPools`: workers, producers and `Stop` around one mutex and condition variable.
- `LoopHandoff`: `queueinloop`, the eventfd, `handlewakeup`, `run` and `stop`.
- `Shutdown`: `TcpServer::stop` over the sub-loops and the pool that runs them.
- `Registry`: the server's map and the sub-loops' maps under concurrent accept, close and sweep, the sweep
  reporting the key it erased (as specified) or its successor's (as coded).
  `IdleSweep`: the sweep as specified and as coded. `IdleTimer`, `CodedTimer`: how long an idle connection
  stays under the one and under the other.
- `EndToEnd`: the echo service composed of the pool, the loops with their client callbacks, and the
  connections' byte streams. On it: `EchoPlaces` (where every job is), `EchoOrder` (in which order, with one
  worker), `EchoHistory` (what was read, written, delivered and closed), `EchoContent` (what the client decodes), `EchoCallbacks` (what a loop has in hand, and callbacks
  that never return), `EchoProgress` (that jobs get through), `EchoEnd` (when the process ends). `EchoRuns`:
  runs that go wrong. `Confinement`: which thread touches an output buffer.
- `Options`, `Sequences`: an optional value; where a sequence turns.

Sequential code is modelled as classes whose methods are proved against functions on values. Threads are
modelled as step machines: a state, the actions enabled in it, and `Exec`, the state after any sequence of
actions (one that is not enabled does not happen), so a statement about `Exec` for all sequences is a
statement about every interleaving. `exit(-1)` is a flag after which nothing happens. Where a state records
history (tasks pushed, bytes sent, connections closed), a lemma says what it is in terms of the actions alone.

Two assumptions bear on statements about progress. In `ThreadPools`, and for the pool in `Shutdown`, every
task a worker runs returns. In `LoopHandoff` and `Shutdown` the callback of every channel other than the
wake-up channel, and every queued task, returns. In `EndToEnd` neither is assumed of this server's own
callbacks and tasks: a read callback has its two loops, and `EchoProgress.LeavesIff` says when it returns.

What holds only under a condition, with the exact condition and a run that violates it:

- A printed message is read back exactly up to 2^31-5 bytes (`Framing.FrameRoundTrip`). The extraction
  loop repeats forever exactly at a header -4 and overflows exactly at one above 2^31-5
  (`Framing.DrainEnds`, `Framing.BadHeaders`). A loop that has come to such a header never leaves the
  callback nor runs another queued reply (`EchoCallbacks.StuckForever`, `EchoRuns.HeaderKeepsLoop`); any other
  read callback can return, and with all of them jobs get through (`EchoProgress.LeavesIff`, `JobsSettle`).
- Messages are extracted at EAGAIN only, so what completes together with the peer's end of file is lost:
  nothing is lost exactly if no message is complete in what is then buffered
  (`Connections.NothingLostIff`, `Connections.LastRequestLost`).
- `send` copies a reply up to its first NUL and keeps its size: the frame appended is the reply's exactly if
  no NUL stands before its last byte (`Framing.CopyPrints`); otherwise the copy is read past its end, in
  precisely the runs that run such a send (`EchoEnd.EndsIff`, `EchoRuns.NulReadsPastCopy`).
- `sendinloop` does not test `disconnect_`: the process exits on a refused `epoll_ctl` exactly in the runs
  where a reply passes the test in `send`, its connection hangs up, and the queued send runs after that
  (`EchoEnd.EndsIff`, `EchoRuns.LateReplyExits`).
- A queued send and a channel's callbacks hold a raw pointer to the connection: one is used after its end
  exactly in the runs where a reply passed the test, or an event was reported, then the last reference went,
  and then the send ran or the callback went on (`EchoEnd.EndsIff`, `EchoRuns.ReplyOutlivesConnection`).
- `Stop` stores `stop_` without the mutex: after `notify_all` every continuation ends with all workers joined
  exactly if no worker then stands between its false predicate and its block, or an `addtask` has yet to
  take the mutex (`ThreadPools.StopReturnsIff`); some continuation does exactly if none stands there or any
  `addtask` is under way (`ThreadPools.StopCanReturnIff`). Both count runs without a further `addtask` and
  without spurious wake-ups, which nothing guarantees; the bound of `ThreadPools.StopAlwaysReturns` admits them.
  `TcpServer::stop` returns under the same condition on the pool of the sub-loops, whose workers come to that
  point when their loop's run has returned (`Shutdown.StopReturnsIff`, `Shutdown.ShutdownCanHang`).
- The idle sweep as coded reports the successor's key and skips the successor: it does what the header
  file specifies exactly under `IdleSweep.Harmless`, which for connections all still known to the server
  means nothing has expired. `IdleSweep.CodedIs` says of every entry what becomes of it. In the registry a
  server entry lacks its twin exactly where such a sweep erased it (`Registry.Agreement`).
- Even the specified sweep can take a new connection out of the server's map. It does so exactly when the
  fd was closed, reused and registered between its two erases (`Registry.ReportTakesOtherIff`,
  `Registry.ReuseIff`, `Registry.NoneStolenIff`, `Registry.OpenConnectionEvicted`).
- Replies keep the order of requests with one worker (`EchoContent.EchoCorrect`) and need not with two
  (`EchoRuns.TwoWorkersReorder`); with any number no reply is lost (`EchoPlaces.Conservation`), doubled, or
  sent to another connection (`EchoContent.StreamsCorrect`).

Where the code and its comments disagree the code is followed: the pool's comment says queued tasks are
finished before a worker leaves (ThreadPool.cpp line 39), while each worker takes at most one more task
after `stop_`; the sweep is modelled both ways.

## Model

| member | source | states |
|---|---|---|
| Framing.HeaderRoundTrip | Buffer.cpp:33 | the four header bytes printed for a size_t read back as that size modulo 2^32 |
| Framing.PartialHeader | Buffer.cpp:64-76 | one to three buffered bytes never give a message, an overflow or an exception, whatever memory lies behind the terminator |
| Framing.PickMessageIsPick | Buffer.cpp:64-80 | the coded test, with its int-to-size_t conversion and raw read, equals the memory-free reading for every buffer |
| Framing.PickShrinks | Buffer.cpp:76-79 | a success under a non-negative header removes at least 4 bytes; it removes none exactly for header -4 |
| Framing.FrameRoundTrip | Buffer.cpp:32-35 | a printed message followed by any bytes is picked back with those bytes left, if and only if it has at most 2^31-5 bytes |
| Framing.DrainSound | Buffer.cpp:71-80 | on a well-formed stream the extracted messages, printed again, followed by the rest are the stream, and the rest holds no message |
| Framing.DrainSplit | Connection.cpp:95-102 | extracting in two rounds around any cut of a well-formed stream gives the same messages and rest as in one |
| Framing.DrainEncode | Buffer.cpp:64-80 | a printed list followed by a fragment is extracted as the list, keeping the fragment |
| Framing.DrainPrefix | Buffer.cpp:64-80 | a reader of any prefix of a printed list has a prefix of the list, all of it at the end |
| Framing.WellFormedIffPrefix | Buffer.cpp:71-80 | streams whose headers all lie in 0..2^31-5 are exactly the prefixes of printed lists |
| Framing.DrainEnds | Connection.cpp:95-102 | for every buffer: the extraction loop never ends exactly if it comes to a header -4, overflows exactly at one above 2^31-5, and otherwise stops where no message is complete |
| Framing.DrainEndsAfter | Connection.cpp:95-102 | after any admissible messages the loop delivers them and then ends as the bytes behind them decide |
| Framing.BadHeaders | Buffer.cpp:71-80 | four bytes that make the loop deliver empty messages forever, and four that overflow |
| Framing.CopyPrints | Connection.cpp:129-145 | printing size bytes from the strdup copy adds the frame of the original if and only if no NUL stands before its last byte, and reads past the copy otherwise |
| Buffers.Buffer.Append | Buffer.cpp:16-19 | the bytes are added at the end |
| Buffers.Buffer.AppendWithSep | Buffer.cpp:32-35 | the frame of the first size bytes at the pointer is added at the end, unless fewer are allocated there |
| Buffers.Buffer.Erase | Buffer.cpp:44-47 | the given range, clamped, is removed; a start behind the end is refused |
| Buffers.Buffer.PickMessage | Buffer.cpp:64-87 | returns and leaves what the memory-free reading says |
| Interest.InterestAgreement | Channel.cpp:27-66 | over every run of channel operations a refused epoll_ctl occurs if and only if something follows a remove; until then kernel mask and events_ agree and other fds are untouched |
| Interest.WatchesWanted | Channel.cpp:27-60 | after every such run reading (writing) is watched exactly if it was enabled and not withdrawn since |
| Interest.Epoll.UpdateChannel | Epoll.cpp:29-50 | ADD or MOD by the channel's flag, exit when the kernel refuses |
| Interest.Epoll.RemoveChannel | Epoll.cpp:52-62 | DEL, exit when refused, the channel's flag left set |
| Interest.Channel.EnableReading | Channel.cpp:27-34 | the operation's effect on mask, flag and table |
| Interest.Channel.DisableReading | Channel.cpp:36-40 | the operation's effect on mask, flag and table |
| Interest.Channel.EnableWriting | Channel.cpp:43-47 | the operation's effect on mask, flag and table |
| Interest.Channel.DisableWriting | Channel.cpp:50-54 | the operation's effect on mask, flag and table |
| Interest.Channel.DisableAll | Channel.cpp:56-60 | the operation's effect on mask, flag and table |
| Interest.Channel.Remove | Channel.cpp:62-66 | mask cleared, then the fd deleted from the table |
| Connections.ChunkingIndependence | Connection.cpp:76-112 | for every cut of a well-formed stream into reads and every placement of EAGAIN, deliveries are the parse of the bytes read up to the last EAGAIN; the buffer is the unparsed rest and what came with end of file |
| Connections.NothingLostIff | Connection.cpp:94-110 | all messages that arrived are delivered if and only if none is complete in the buffer at end of file; those lost are exactly the ones complete there |
| Connections.LastRequestLost | Connection.cpp:105-110 | a request read in the same call as end of file is not delivered |
| Connections.ReceivedInOrder | Connection.cpp:76-112 | of a peer's printed messages a prefix is delivered, every byte read is in it or buffered, and all are delivered if and only if all bytes were read before the last EAGAIN |
| Connections.ReceivedIs | Connection.cpp:80-93 | the bytes of a series of reads are the data of its results in order; other results add none |
| Connections.SendKeeps | Connection.cpp:139-148 | a send adds exactly the frame of its body to the output buffer and nothing else, keeps interest armed on an open link, and exits on a removed one |
| Connections.WriteKeeps | Connection.cpp:151-162 | a result above 0 moves that many bytes from the buffer to the wire, any other moves none; completion fires exactly if none is left; the interest stays armed exactly while bytes wait |
| Connections.HangUpKeeps | Connection.cpp:37-49 | hanging up sets disconnect_, leaves the streams alone, and removes the fd from the table without a refused call |
| Connections.PeerDecodes | Connection.cpp:139-162 | the peer has decoded a prefix of the bodies sent, all of them once the buffer is empty |
| Connections.DrainBound | Connection.cpp:151-162 | with every write accepting a byte, at most as many callbacks as bytes empty the buffer, and completion fires at that one and no earlier one |
| Connections.Connection.constructor | Connection.cpp:3-13 | an open connection with reading enabled and empty buffers |
| Connections.Connection.OnMessage | Connection.cpp:76-112 | on EAGAIN everything extractable is delivered, each message stamping the time; on end of file the connection hangs up with its bytes unparsed |
| Connections.Connection.ReadEvents | Connection.cpp:76-112 | any series of calls of onmessage on a new connection delivers and buffers what Session says, one time stamp per message, and hangs up exactly at end of file |
| Connections.Connection.Fill | Connection.cpp:80-93 | every chunk read goes to the input buffer in order, errors retry |
| Connections.Connection.Extract | Connection.cpp:95-102 | the loop delivers what Drain says, leaves its rest and ends as it says |
| Connections.Connection.CloseCallback | Connection.cpp:37-49 | disconnect_ is set and the channel removed |
| Connections.Connection.SendInLoop | Connection.cpp:139-148 | the frame of the first size bytes of the copy is added to the output buffer and writing enabled, unless the copy is shorter than the size |
| Connections.Connection.WriteCallback | Connection.cpp:151-162 | accepted bytes, and no others, move to the wire; when none are left writing is disabled and completion reported |
| Connections.Connection.Timeout | Connection.cpp:164-170 | true exactly if neither the connection's creation nor any message delivered lies within the last val seconds |
| Reactor.NextKeeps | Channel.cpp:94-117 | every accept, wait, handled event, queued send and destruction keeps all connections' stream and table facts; only a send on a hung-up living one exits |
| Reactor.StreamRefinement | Connection.cpp:139-162 | in every run of a loop each connection's wire plus buffer is the frames of the bodies its sendinloop steps gave it, in order, so its peer holds a prefix of those, all once flushed |
| Reactor.EventOutcome | Channel.cpp:94-117 | at every step of every run a connection hangs up exactly if a readable event of it met end of file or an event was neither readable nor writable; bytes reach its wire only at a writable, not readable event, as many as send accepted; a readable event without end of file changes nothing |
| Reactor.HandledInOrder | EventLoop.cpp:42-58 | every entry that epoll reported is handled once, in the order of the reports |
| Reactor.WriteInterest | Connection.cpp:139-162 | in every run an open connection watches writability, in events_ and in the kernel, if and only if its output buffer is not empty |
| Reactor.CloseAtMostOnce | Channel.cpp:94-117 | in every run each connection runs close and error callbacks at most once in total, while it lives is unknown to the kernel after that, and shares its fd with no other living one |
| Reactor.CloseBranchDead | Channel.cpp:94-116 | the EPOLLRDHUP branch is never taken, because no channel requests that event |
| Reactor.ExitsIffLateSend | Connection.cpp:115-148 | the process exits on epoll_ctl exactly in runs where a sendinloop runs on a living connection after it hung up |
| ThreadPools.FifoExactlyOnce | ThreadPool.cpp:14-76 | in every run dequeued tasks plus queue are the tasks given to addtask in push order, and each dequeued one has returned or is run by exactly one worker |
| ThreadPools.LeavesOnlyEmpty | ThreadPool.cpp:14-50 | at every step a worker leaves exactly if it sees stop_ at the top of its loop or comes out of the wait with stop_ set over an empty queue; otherwise it dequeues the first task |
| ThreadPools.NeverSticks | ThreadPool.cpp:20-73 | before stop a non-empty queue always has an awake worker or a producer owing its notify_one |
| ThreadPools.PoolProgress | ThreadPool.cpp:14-76 | before stop, with tasks waiting, the pool can always step and takes at most Rank steps in any interleaving before it dequeues |
| ThreadPools.ShutdownBound | ThreadPool.cpp:14-50 | from any moment with stop_ set at most one further task per worker is dequeued |
| ThreadPools.RankDrops | ThreadPool.cpp:14-87 | every step of the pool's own lowers the rank, except a dequeue before stop |
| ThreadPools.StopReturnsIff | ThreadPool.cpp:78-87 | after notify_all every complete run (tasks return, no further addtask, no spurious wake-up) ends with all workers joined if and only if none was between predicate test and block, or some addtask had yet to take the mutex |
| ThreadPools.StopCanReturnIff | ThreadPool.cpp:78-87 | some complete run does if and only if none was there or some addtask was under way |
| ThreadPools.StopAlwaysReturns | ThreadPool.cpp:78-87 | under the first condition every run without a further addtask, spurious wake-ups included, is bounded, and a step is bound to come until all workers are joined |
| ThreadPools.StopCanHang | ThreadPool.cpp:80-86 | a reachable schedule with one worker from which no complete run lets Stop return |
| LoopHandoff.Written | EventLoop.cpp:102-106 | after wakeup the counter is positive and within its maximum, also when the write is refused |
| LoopHandoff.CounterIs | EventLoop.cpp:102-114 | the eventfd's counter is the number of writes since its last read, up to its maximum |
| LoopHandoff.NoLostWakeup | EventLoop.cpp:93-126 | in every run the tasks run, plus those queued, are the tasks given to queueinloop in push order, and queued work has a readable eventfd, a producer about to write it, or a loop between read and end of drain |
| LoopHandoff.StopNeverMissed | EventLoop.cpp:37-67 | once stop has returned the loop never waits over an unreadable eventfd, and from any moment with stop_ set epoll_wait returns at most once more |
| LoopHandoff.LoopLeaves | EventLoop.cpp:37-67 | other channels' callbacks being taken to return, after stop each loop step lowers a well-founded measure no other thread raises, and some step is possible until run returns |
| LoopHandoff.LoopProgress | EventLoop.cpp:37-126 | other channels' callbacks being taken to return, before stop at most Weight steps are bound to come from every reachable state, and one is possible while a task is queued |
| LoopHandoff.QueueCall | EventLoop.cpp:93-106 | the interleaved steps of queueinloop, undisturbed, do what the method does |
| LoopHandoff.StopCall | EventLoop.cpp:62-67 | the steps of stop do what the method does |
| LoopHandoff.DrainCall | EventLoop.cpp:108-126 | the steps of handlewakeup, one per queued task, do what the method does |
| LoopHandoff.TaskQueue.Wakeup | EventLoop.cpp:102-106 | the counter grows by one unless saturated |
| LoopHandoff.TaskQueue.QueueInLoop | EventLoop.cpp:93-100 | the task is appended and the eventfd written |
| LoopHandoff.TaskQueue.StopLoop | EventLoop.cpp:62-67 | the flag is set and the eventfd written |
| LoopHandoff.TaskQueue.HandleWakeup | EventLoop.cpp:108-126 | the counter is reset and all queued tasks run once, in order |
| Shutdown.StopReturnsIff | TcpServer.cpp:51-65 | the sub-loops stopped and the pool's notify_all run, every complete run ends with all workers joined if and only if none, its loop's run having returned, was between predicate test and block, or some addtask had yet to take the mutex |
| Shutdown.StoppedLeft | TcpServer.cpp:51-65 | when stop has returned every sub-loop whose run was started has left it |
| Shutdown.ShutdownCanHang | TcpServer.cpp:51-65 | a reachable run of one loop and one worker after which stop need not return |
| Registry.Agreement | EventLoop.cpp:146-165 | in every interleaving of accepts, closes and sweeps, coded or specified, a server entry has its twin in sub-loop fd % threadnum_, except between the two inserts or the two erases for it, and has none exactly where a sweep erased it without reporting it; shards stay disjoint |
| Registry.MissingOnlyIf | TcpServer.cpp:91-114 | a connection of a sub-loop is missing from the server's map only if a step of the run closed it or a sweep, coded or specified, that had erased another removed its entry |
| Registry.HomeIs | TcpServer.cpp:71-87 | fds below threadnum_ go to the sub-loop of that number, fds that differ by a multiple of it to the same |
| Registry.ListedIff | TcpServer.cpp:82-114 | the server lists a connection exactly in runs where it was inserted and since then neither did it close nor did a sweep report its fd |
| Registry.ClosedListed | TcpServer.cpp:91-114 | a connection that closed is listed only if it closed before the acceptor inserted it |
| Registry.MarkedIff | EventLoop.cpp:146-165 | recorded as closed, erased without report or robbed of its entry are exactly the connections to which a step of the run did that |
| Registry.ReportTakesOtherIff | EventLoop.cpp:157-164 | a sweep's second erase removes another connection's entry if and only if what it reports is registered to another: for the coded sweep whenever the successor is still registered; for the specified one only if the swept one had left the server's map |
| Registry.ReuseIff | EventLoop.h:41-46 | the specified sweep does so exactly in runs where since its first erase the fd was closed, handed out again and registered, and still is |
| Registry.NoneStolenIff | TcpServer.cpp:177-185 | no connection loses its entry so exactly in runs with no such report by a coded or specified sweep, and then a sub-loop's connection is missing from the server's map only if it closed |
| Registry.OpenConnectionEvicted | EventLoop.h:41-46 | a run in which an open connection loses its server entry even to the specified sweep |
| IdleSweep.SubLoop.SweepAsSpecified | EventLoop.h:41-46 | the loop that saves the key, erases the entry and reports that key leaves both maps as specified |
| IdleSweep.SpecifiedIs | EventLoop.h:42-44 | what is specified keeps exactly the entries not expired and takes exactly the others' fds from the server's map |
| IdleSweep.CodedMeetsSpecificationIff | EventLoop.cpp:146-165 | the coded sweep does what is specified if and only if each expired entry and its existing, unexpired successor are already out of the server's map |
| IdleSweep.CodedSweepsNothing | EventLoop.cpp:146-165 | while all entries are in the server's map that means: if and only if nothing expired |
| IdleSweep.CodedIs | EventLoop.cpp:146-165 | the coded sweep erases an entry exactly if it expired and the one before it was not erased, takes from the server's map exactly the successors of those, and runs past the end exactly if it erases the last |
| IdleSweep.CodedSweepFails | EventLoop.cpp:157-163 | two idle connections on which coded and specified sweep differ in both maps |
| IdleSweep.SubLoop.HandleTimer | EventLoop.cpp:146-165 | the loop with its iterator leaves both maps as the coded sweep, or runs past the end |
| IdleTimer.HeardIs | Connection.cpp:94-100 | an entry's time stamp is the instant of the last creation or message under its fd in the run |
| IdleTimer.ServerIs | TcpServer.cpp:91-114 | with the specified sweep the server lists exactly the sub-loop's connections that have not closed since they came |
| IdleTimer.ClockIs | EventLoop.cpp:128-136 | the timer fires at the start plus timeout_ and then every timetvl_ |
| IdleTimer.IdleWindow | EventLoop.h:41-46 | with the specified sweep and a timer on time, in every run a connection last heard of at L and then silent is not swept by L plus timeout_ and is gone from both maps after a further timetvl_ |
| CodedTimer.HeardIs | Connection.cpp:94-100 | the same about time stamps under the coded sweep |
| CodedTimer.ServerIs | EventLoop.cpp:146-165 | with the coded sweep the server lists exactly the connections that came and have since neither closed nor stood behind an entry that a sweep erased |
| CodedTimer.CodedWindow | EventLoop.cpp:128-168 | with the coded sweep and a timer on time, in every run a connection heard of now, at place k of its sub-loop's map, and then silent stays for timeout_ and, m smaller fds arriving, is out of that map k + m + 1 intervals later, unless a sweep ran past the end |
| EchoPlaces.Conservation | EchoServer.cpp:84-110 | in every interleaving of loops, pool and workers each delivered message is in exactly one place: carried to the pool, queued there, in a worker's hand, queued on a loop, in an output stream, dropped as disconnected, or the one that ended the process |
| EchoOrder.AnswersInOrder | EchoServer.cpp:84-110 | with one worker the jobs appended are a prefix of a connection's deliveries, and while it is open those queued, held and waiting follow them in delivery order |
| EndToEnd.ReplyAnswers | EchoServer.cpp:88-110 | a reply is the text "reply:WORK thread " followed by the request, byte for byte |
| EchoHistory.StreamsAre | Connection.cpp:76-162 | recorded as received are the chunks read from the connection in the run, and as many bytes are written as the kernel accepted |
| EchoHistory.JobsAre | Connection.cpp:94-103 | the k-th job belongs to the connection of the k-th delivery, and a connection's jobs are those, in order |
| EchoHistory.MapsAre | TcpServer.cpp:91-114 | closed are exactly the connections that hung up; the server lists those that neither hung up nor were reported by a sweep, a sub-loop those not swept out |
| EchoHistory.DroppedClosed | Connection.cpp:117 | only replies to connections that have hung up are dropped |
| EchoContent.StreamsCorrect | EchoServer.cpp:84-110 | with any number of workers each connection's written and waiting bytes are framed messages that answer, byte for byte, its own deliveries, none twice, and the bytes read from it are the framed deliveries and the buffer |
| EchoContent.EchoCorrect | EchoServer.cpp:84-110 | with one worker, after any reads of a prefix of framed requests, the i-th message the client decodes is the text followed by the i-th request, also after the connection closed, and all are answered once everything has settled, which takes requests without an early NUL |
| EchoCallbacks.StuckForever | Connection.cpp:95-102 | a loop extracting from a buffer that comes to header -4 (or overflows) stays in the callback and runs no queued task, whatever else happens |
| EchoCallbacks.StuckReplies | Connection.cpp:95-102 | a reply queued on such a loop is never appended nor dropped |
| EchoEnd.EndsIff | Connection.cpp:115-148 | exactly which runs end in exit(-1), in a read past the copy, or in the use of a connection without owner: by the order of the test in send or the report, the hang-up or the last reference going, and the run of the send or callback |
| EchoProgress.RankDrops | EventLoop.cpp:37-126 | every step of callbacks, pool, workers and loops that is bound to come lowers one rank, but a delivery under header -4 |
| EchoProgress.LeavesIff | Connection.cpp:94-103 | a loop that came to EAGAIN in the read callback of a listed connection can leave it, by steps bound to come, if and only if the extraction loop finishes with the buffered bytes |
| EchoProgress.JobsSettle | EchoServer.cpp:84-110 | before shutdown, if the extraction loop finishes with every open connection's bytes, at most Rank steps of callbacks, pool, workers and loops are bound to come, and while a delivered message is neither appended nor dropped one of them is possible |
| EchoProgress.EchoCompletes | EchoServer.cpp:84-110 | with one worker, when no step is bound to come and the output is written, the client has decoded exactly one answer, text and request, to each request read, in order |
| EchoRuns.TwoWorkersReorder | ThreadPool.cpp:43-49 | with two workers a reachable run appends the reply to a connection's second request before the first |
| EchoRuns.LateReplyExits | Connection.cpp:130-146 | a run from the read of a request to exit(-1): the reply is queued, the callback returns, the connection hangs up in a later round, the queued send runs |
| EchoRuns.NulReadsPastCopy | Connection.cpp:129-145 | a run in which the reply to the request of bytes 0 and 65 is read past its copy |
| EchoRuns.ReplyOutlivesConnection | Connection.cpp:129-146 | a run in which the worker returns, the connection hangs up and is swept out as coded, and its queued reply then runs on it |
| EchoRuns.HeaderKeepsLoop | Connection.cpp:95-102 | a run after whose second header, -4, the reply to the first request is never appended |
| Confinement.OneRunner | TcpServer.cpp:15-22 | no two threads ever run the same sub-loop |
| Confinement.ThreadConfinement | Connection.cpp:115-162 | every change of an output buffer is made by the one thread running the connection's loop, whichever thread called send |
| Confinement.SendsAccounted | Connection.cpp:115-162 | every send becomes one change of an output buffer or is still queued, every write callback is one change, and there is no other |

## Left out

- Buffer modes 0 and 2, which consume nothing and which no Connection uses.
- Socket.cpp, InetAddress.cpp, Acceptor.cpp, Timestamp.cpp, client.cpp, tcpepoll.cpp: wrappers over system calls, clock and drivers; reads, writes, accepts, clock values and epoll results are parameters or actions.
- What happens after a read past a copy or a use of a destroyed connection: runs end there, and `free` is not modelled. The signed overflow at a header above 2^31-5 is taken as a callback that does not return.
- A pool of no workers, where `onmessage` calls `sendinloop` directly with a string's own buffer.
- Update in place and aliasing in the threaded parts: the pool, the loops' hand-off and the registries are step machines over values; their sequential bodies `TaskQueue`, `SubLoop`, `Connection`, `Channel`, `Epoll` and `Buffer` are classes.
- The unlocked iteration of the sweep over a map another thread may insert into: each map access is one atomic step.
- A task that calls `queueinloop` on its own loop, which would lock a mutex its thread already holds.
- A second caller of `Stop`, and threads other than one constructor thread feeding the I/O pool.
- The window in `TcpServer::newconnection` where reading is enabled before the callbacks are set.
- Edge-triggered mode, logging, callback setters and the user callbacks of EchoServer that only print.
- EchoPlaces.Conservation: `disconnect_` being set, the channel being removed and the server's entry being erased are one step, and no connection is accepted in a run; accepting is modelled in Registry and Reactor.
- EndToEnd: when a connection is idle is a parameter of the sweep, and a coded sweep of the last entry, which runs past the end, is left to IdleSweep.
- Reactor.StreamRefinement: runs end where a batch or a queued send uses a destroyed connection; EchoEnd says when that happens.
- Memory model: `atomic_bool` reads and writes are taken as sequentially consistent single steps.
