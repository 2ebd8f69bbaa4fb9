# A verified model of the Mymuduo reactor

Mymuduo is a C++ network library in the manner of muduo: an event loop per thread, a poller
that tells a loop which descriptors are ready, channels that carry the interest in a
descriptor, connections with an output buffer, and a server that spreads connections over
loops and destroys them through functors queued between threads. This project is a Dafny
model of that machinery with proofs of what it keeps in every run. `dafny verify
dfyconfig.toml` checks all of it.

## How it is organised

The source changes state in place, so its classes are classes here. Each method is proved
against a function on values where runs are about those functions (`Buffer`, `Channel`,
`EPollPoller`, `TcpConnection`), or against equations on its fields that are then connected to
the machine the runs are about: `loop()` of the class `EventLoop` is a run of the protocol
(`LoopRefinement`), and `newConnection` and `removeConnection` of the class `TcpServer` are the
steps of the whole machine (`Accepts` and `Stands` in `TcpServer.dfy`).

| file | in the source | contents |
|---|---|---|
| `Buffer.dfy`, `Slices.dfy` | `Buffer.h`, `Buffer.cc` | the class over its array; the movement of the indices and the size of the vector over whole runs |
| `Registration.dfy`, `Poller.dfy` | `EPollPoller.cc`, `Channel.h`, `Channel.cc`, `Poller.cc` | registration as functions with their invariant; the classes `Channel` and `EPollPoller` |
| `LoopProtocol.dfy`, `EventLoop.dfy`, `LoopRefinement.dfy` | `EventLoop.cc` | the task hand-off as an interleaved protocol, with the append and the wake-up of `queueInLoop` as two steps; the class `EventLoop`; all of its `loop()` as a run of the protocol |
| `Connection.dfy`, `TcpConnection.dfy` | `TcpConnection.cc` | one connection as a state machine with its runs; the class `TcpConnection` |
| `Reactor.dfy` | `TcpServer.cc`, `TcpConnection.cc`, `EventLoop.cc`, `Channel.cc` | the whole server: main loop, IO loops, user threads and all connections, interleaved |
| `ReactorInvariant.dfy`, `ReactorMoves.dfy`, `ReactorSteps.dfy`, `ReactorRemovals.dfy` | the same | its invariant; what a step does to the loops and to a connection; how each connection gets removed |
| `ReactorRuns.dfy` | the same | what holds in every run, without exception |
| `ReactorDelivery.dfy`, `ReactorNotices.dfy` | the same | what is asked of a connection reaches it, and what it reports reaches the user: conservation over every run |
| `ReactorOwnership.dfy`, `ReactorSafety.dfy` | the same | ownership of registered channels, step by step and over runs |
| `ReactorEvents.dfy` | the same | from the kernel's report to the callback: dispatch, reading, draining, closing, and that no loop gets stuck |
| `ReactorTimeliness.dfy`, `ReactorDestruction.dfy` | `TcpServer.cc` | exactly which runs keep ownership: all of a server that is not destroyed, and those of one destroyed with care |
| `ReactorLateSend.dfy` | `TcpServer.cc`, `TcpConnection.cc` | a run that loses it |
| `ThreadPool.dfy`, `ServerNames.dfy`, `TcpServer.dfy` | `EventLoopThreadPool.cc`, `TcpServer.cc`, `InetAddress.cc` | round robin, connection names, the class `TcpServer` |

The system machine of `Reactor` and the single connection of `Connection` are joined by
`ReactorRuns.Projection`: each connection of each interleaving, seen on its own, is a run of
the single machine, so the theorems about one connection hold in the whole system.

## What the proofs found

- **A channel can outlive its connection.** If the server is destroyed while a connection is
  half-closing (`kDisconnecting`), `connectDestroyed` only removes the channel
  (`TcpConnection.cc:194-208`). A `sendInLoop` still queued for that connection then finds a
  state other than `kDisconnected`, buffers what the kernel does not take and registers the
  channel again; nobody is left to remove it. `ReactorLateSend.LateSendDangles` is such a run:
  one user thread, which kept a reference, sends and shuts down after the server is gone.
  - The guard is `Connection.ReRegisters`: half-closing, channel removed, nothing buffered, and
    the write leaves something to buffer without a fatal error. Without the kernel's answer it
    is `Connection.Exposed`: a queued send is safe whatever the kernel answers exactly when its
    connection is not exposed (`ReactorTimeliness.SafeWhateverAnsweredIff`).
  - A run is called timely when no queued send meets the guard. Over whole runs, every
    registered channel has its removal due throughout exactly in the timely ones
    (`ReactorTimeliness.TimelyIffSecured`), and once everything has come to rest that is the same
    as every registered channel being owned (`ReactorTimeliness.OwnedAtRestIff`).
  - All runs of a server that is not destroyed are timely (`ReactorTimeliness.ServingIsTimely`),
    and so are those of one that is destroyed while no send waits for a half-closing connection
    whose channel is being removed (`ReactorDestruction.CarefulIsTimely`).
  - Byte streams, lifecycle, order, thread confinement and the clearing of `connections_` need
    none of this: they hold in every run.
- **A functor queued by the loop's own thread before `loop()` is not announced**
  (`EventLoop.cc:135`): the first poll blocks on it unless another thread writes the eventfd
  (`LoopProtocol.EarlyQueueStallsIff`).
- **A second `disableAll` registers the descriptor again**, with an empty mask
  (`Registration.DisableAllUnregistersIff`).
- **`removeChannel` erases by descriptor.** It hits another channel exactly when that channel
  sits on the same descriptor (`Registration.EraseHitsAnotherIff`); ownership excludes this in
  the whole system (`ReactorRuns.RemovalIsExact`).
- **`handleClose` can run twice in one dispatch** exactly when a hang-up comes with priority
  data and nothing to read (`Registration.TwoClosersIff`).
- The vector of a buffer stays within 8 + max(initial size, 2P - 2), where P >= 2 is the
  largest readable length, and that bound is attained (`BufferLayout.SpaceBoundIsTight`).
- A comment at `TcpConnection.cc:134-140` says the high-water callback is for a mark not
  reported before. The code keeps no such record: it reports each upward crossing, and so does
  the model. The comment in `InetAddress.cc:27` promises `ip::port`; the code prints
  `ip : port`.

## Readings of the source

Some lines do not compile or differ from their evident intent, and are read as intended:

- `EPollPoller.cc:78`, `index == KNew || KDeleted`: `index == KNew || index == KDeleted`.
- `TcpConnection.cc:261`, `state_ = kDisconnecting`: a comparison.
- `Channel.cc:78`, `revents_ * (EPOLLERR)`: `revents_ & EPOLLERR`.
- `TcpConnection.cc:147`, `message`: the parameter `data`; `append` is callable there.
- `TcpConnection.h:66`, `kDisconnectioned`: `kDisconnected`.
- `Buffer.h:36` and `Buffer.h:105`, `peak` and `std::cop`: `peek` and `std::copy`.
- `TcpConnection.cc:78-83`: a send from another thread carries its bytes, not a pointer to
  bytes its caller may have freed.

## Assumptions

- The check and the assignment in `shutdown()` (`TcpConnection.cc:159-162`) are one step, and
  so are those in `connectDestroyed` (`TcpConnection.cc:197-200`): no other thread's `shutdown()`
  comes between them.
- After SHUT_WR a `write` of at least one byte fails with EPIPE (POSIX.1-2017, `write()`,
  ERRORS) and does not raise SIGPIPE. Otherwise `write` may take any prefix or fail.
- A hang-up without readable data is not reported together with priority data.
- The kernel reports each descriptor of its set at most once per poll, with bits asked for or
  with error and hang-up.
- A new descriptor is none that an owned connection still holds open.
- The loop thread queues functors on its own loop only from inside `loop()`.
- A functor bound to a raw `this` runs while its connection is owned.
- The server's destructor runs on the main thread, with the main loop between two turns or in a
  functor on it, and the server's memory outlives the `removeConnection` functors that name it.
- High-water mark and callbacks are set before the connection is used and then left alone.
- Ownership theorems over runs (`ReactorSafety`) are about timely runs, as described above.

## Model

| member | source | states |
|---|---|---|
| `BufferLayout.StepOk` | Mymuduo/Buffer.h:42-127 | append, retrieve and readFd keep 8 <= reader <= write <= size, act on the readable length as on a queue, and never shrink the vector |
| `BufferLayout.GrowthIsBounded` | Mymuduo/Buffer.h:96-111 | the vector grows only when it is smaller than prepend area plus new readable length, and then to at most twice that length plus the prepend area |
| `BufferLayout.SpaceIsBounded` | Mymuduo/Buffer.h:96-127 | from any layout within the bound, every run stays within the bound for its largest readable length |
| `BufferLayout.SpaceBoundOverLife` | Mymuduo/Buffer.h:14-127 | from construction on: size <= 8 + max(initialSize, 2P - 2) (P itself for P < 2), hence within max(8 + initialSize, 2P + 8) |
| `BufferLayout.SpaceBoundIsTight` | Mymuduo/Buffer.h:96-111 | the bound is reached for every length, by an append that compaction just fails to fit |
| `ByteBuffer.Buffer.constructor` | Mymuduo/Buffer.h:14-18 | a new buffer is empty, with initialSize bytes behind the prepend area |
| `ByteBuffer.Buffer.ReadableBytes` | Mymuduo/Buffer.h:20-23 | the difference of the indices is the length of the queue |
| `ByteBuffer.Buffer.Retrieve` | Mymuduo/Buffer.h:42-57 | dequeues len bytes, or everything when there are not more; the array is untouched |
| `ByteBuffer.Buffer.RetrieveAsString` | Mymuduo/Buffer.h:65-70 | up to the readable length, result followed by what is left is what was there; beyond it, the result starts with everything there was |
| `ByteBuffer.Buffer.RetrieveAllAsString` | Mymuduo/Buffer.h:60-63 | the result is the whole queue, which is empty afterwards |
| `ByteBuffer.Buffer.MakeSpace` | Mymuduo/Buffer.h:96-111 | compacts in place by an overlapping copy, or grows; either way there is room for len bytes and no readable byte has changed |
| `ByteBuffer.Buffer.EnsureWriteBytes` | Mymuduo/Buffer.h:113-119 | room for len bytes behind the readable bytes, which are unchanged |
| `ByteBuffer.Buffer.Append` | Mymuduo/Buffer.h:122-127 | enqueues exactly the given bytes |
| `ByteBuffer.Readv` | Mymuduo/Buffer.cc:12-22 | two segments are filled in order, nothing outside the filled part changes in the first |
| `ByteBuffer.CopyDown` | Mymuduo/Buffer.h:104-107 | copying upwards to a lower, possibly overlapping target moves every byte intact |
| `ByteBuffer.Buffer.ReadFd` | Mymuduo/Buffer.cc:8-38 | the bytes received are enqueued whole and in order, through the spill buffer where needed; an error changes nothing and is reported |
| `ByteBuffer.Buffer.WriteFd` | Mymuduo/Buffer.cc:40-48 | the kernel takes a prefix of the readable bytes, which stay in the buffer |
| `Registration.UpdateKeeps` | Mymuduo/EPollPoller.cc:73-104 | an interest change issues a legal epoll_ctl, keeps index, map and kernel set in agreement and touches no other descriptor |
| `Registration.RemoveKeeps` | Mymuduo/EPollPoller.cc:106-117 | removal is legal, keeps the agreement, leaves no trace of the channel and touches no other descriptor |
| `Registration.HasChannelIffIndexed` | Mymuduo/Poller.cc:11-15 | hasChannel is true exactly for channels whose index is not KNew |
| `Registration.IndexMeaning` | Mymuduo/EPollPoller.cc:13-18 | KNew: in neither map nor kernel set; KAdded: in both, with the mask equal to events_; KDeleted: in the map only, with no events |
| `Registration.EraseHitsAnotherIff` | Mymuduo/EPollPoller.cc:106-109 | removal takes away another channel's entry exactly when that channel holds the descriptor |
| `Registration.DisableAllUnregistersIff` | Mymuduo/Channel.h:47 | disableAll leaves the descriptor out of the kernel's set exactly when the channel was registered |
| `Registration.RunsAreLegal` | Mymuduo/Channel.h:43-47 | over any operations on any number of channels no epoll_ctl fails and the agreement holds at the end |
| `Registration.InterestMeaning` | Mymuduo/Channel.cc:9-11 | what each interest operation does to each bit: reading is readable and priority data, writing is writability |
| `Registration.NewEventsMean` | Mymuduo/Channel.h:43-47 | the operations of a registration run in terms of the bits |
| `Registration.DispatchMeaning` | Mymuduo/Channel.cc:67-101 | for every mask, exactly which callbacks run, each at most once, in the order close, error, read, write |
| `Registration.TwoClosersIff` | Mymuduo/Channel.cc:67-101 | one dispatch calls both callbacks that can close exactly for HUP with PRI and without IN |
| `EventPoller.Channel.ChangeEvents` | Mymuduo/Channel.h:43-47 | setting the interest and updating ends in a consistent poller after a legal epoll_ctl |
| `EventPoller.Channel.EnableWriting` | Mymuduo/Channel.h:45 | the interest gains writability and no other bit, in channel and kernel |
| `EventPoller.Channel.DisableAll` | Mymuduo/Channel.h:47 | the interest is empty, in channel and kernel |
| `EventPoller.Channel.Remove` | Mymuduo/Channel.cc:43-47 | afterwards the descriptor is in neither the map nor the kernel's set, the poller is consistent |
| `EventPoller.Channel.HandleEvent` | Mymuduo/Channel.cc:50-64 | the callbacks of the reported bits, each exactly for its bits, none for a tied channel whose owner is gone |
| `EventPoller.Channel.HandleEventWithGuard` | Mymuduo/Channel.cc:67-101 | close, error, read and write callback in this order, each exactly for its bits |
| `EventPoller.EPollPoller.UpdateChannel` | Mymuduo/EPollPoller.cc:73-104 | map, kernel set, index and epoll_ctl result are those of the specification |
| `EventPoller.EPollPoller.RemoveChannel` | Mymuduo/EPollPoller.cc:106-117 | the same for removal |
| `EventPoller.NewChannel` | Mymuduo/Channel.cc:13-21 | a channel made for a poller joins it unregistered and can be used when no other is on its descriptor |
| `EventPoller.EPollPoller.FillActiveChannels` | Mymuduo/EPollPoller.cc:119-128 | every reported channel is listed, in order, with the events reported for it |
| `LoopProtocol.StepConserves` | Mymuduo/EventLoop.cc:127-185 | each step keeps executed, rest of the batch and pending equal to everything queued |
| `LoopProtocol.StepKeeps` | Mymuduo/EventLoop.cc:71-185 | each step keeps pending work announced whenever the loop may block before swapping it |
| `LoopProtocol.FunctorsConserved` | Mymuduo/EventLoop.cc:127-185 | in every interleaving executed ++ rest of batch ++ pending is exactly the functors the run appended, in append order |
| `LoopProtocol.NoLostWakeup` | Mymuduo/EventLoop.cc:78-151 | a loop about to block on pending functors has a readable eventfd, or a foreign thread is between append and wake-up |
| `LoopProtocol.EarlyQueueStallsIff` | Mymuduo/EventLoop.cc:127-139 | a functor queued by the own thread before loop() is unannounced at the first poll exactly when no foreign wake-up is stored or due |
| `LoopProtocol.PhaseRunsTheBatch` | Mymuduo/EventLoop.cc:169-185 | during the functor phase the batch is executed in order whatever is queued meanwhile |
| `LoopProtocol.PhaseIsExact` | Mymuduo/EventLoop.cc:169-185 | the phase executes exactly the functors present at the swap; all queued meanwhile is pending and announced |
| `LoopProtocol.QuitStopsPolling` | Mymuduo/EventLoop.cc:78-101 | once quit is seen to be set the loop polls at most once more, and the test of it leaves the loop |
| `TaskLoop.EventLoop.QueueInLoop` | Mymuduo/EventLoop.cc:127-139 | appends at the end, and writes the eventfd unless the own thread queues outside the functor phase |
| `TaskLoop.EventLoop.RunInLoop` | Mymuduo/EventLoop.cc:114-124 | at once on the own thread with nothing queued, otherwise queued with a wake-up |
| `TaskLoop.EventLoop.DoPendingFunctors` | Mymuduo/EventLoop.cc:169-185 | executes what was pending, in order; what arrived meanwhile is pending, with one wake-up each |
| `TaskLoop.EventLoop.RunTurn` | Mymuduo/EventLoop.cc:78-91 | one turn executes what was pending and what handlers queued; what is left has written the eventfd once each |
| `TaskLoop.EventLoop.Loop` | Mymuduo/EventLoop.cc:71-95 | stops after the first turn that quits; everything that arrives in its turns is queued in order, all of it is executed but what arrives while the last turn's functors run, and that is pending and announced |
| `LoopRefinement.PhaseRun` | Mymuduo/EventLoop.cc:169-185 | the functor phase of the class, as far as it has got, is where protocol steps lead from the swap |
| `LoopRefinement.TurnIsRun` | Mymuduo/EventLoop.cc:78-91 | a turn of the class is a run of the protocol, from the fields before to the fields after as the method states them |
| `LoopRefinement.TurnsAreRun` | Mymuduo/EventLoop.cc:78-91 | any number of consecutive turns is a run of the protocol that appends exactly the functors that arrive, and leads to the fields the class promises |
| `LoopRefinement.LoopIsRun` | Mymuduo/EventLoop.cc:71-95 | all of loop(), from its start to its exit, is such a run |
| `Connection.SendMoves` | Mymuduo/TcpConnection.cc:88-154 | of an accepted message the first k bytes go to the socket and the rest to the back of the buffer, k > 0 only when nothing was buffered; a refused one moves nothing; when it is accepted, exactly |
| `Connection.WriteMoves` | Mymuduo/TcpConnection.cc:233-280 | a drain moves exactly the bytes the kernel took from buffer to wire; with the last of them interest goes off and a half-closing connection closes its write half, and at no other moment |
| `Connection.OpKeepsStream` | Mymuduo/TcpConnection.cc:88-280 | bytes taken by the socket followed by buffered bytes stay the accepted messages |
| `Connection.OpKeeps` | Mymuduo/TcpConnection.cc:64-294 | every operation keeps the coupled invariant of state, buffer, interest, index, socket and callbacks |
| `Connection.RunKeeps` | Mymuduo/TcpConnection.cc:64-294 | the same over every run |
| `Connection.OfferedAreSent` | Mymuduo/TcpConnection.cc:88-154 | the messages accepted or refused in a run are those of its sends, in order |
| `Connection.BytesPreserved` | Mymuduo/TcpConnection.cc:88-280 | in every run, bytes on the wire ++ outputBuffer_ is the concatenation of the accepted messages in sendInLoop order, each whole, and the messages are those of the run's sends |
| `Connection.NoStuckOutput` | Mymuduo/TcpConnection.cc:102-152 | while connected or disconnecting, isWriting holds exactly while output is pending |
| `Connection.ShutdownMeans` | Mymuduo/TcpConnection.cc:170-180 | shutdownInLoop on a half-closing connection closes the write half exactly when no output is pending |
| `Connection.ShutdownIsServed` | Mymuduo/TcpConnection.cc:156-180 | after any run with a shutdownInLoop in it, a connection still half-closing has its write half closed, or output pending whose drain closes it |
| `Connection.HalfCloseIsGraceful` | Mymuduo/TcpConnection.cc:156-180 | while disconnecting, the write half is closed only with every accepted byte written; if shutdownInLoop left it open, output is pending, interest is on and the draining handleWrite closes it |
| `Connection.OpMovesForward` | Mymuduo/TcpConnection.cc:182-294 | no operation lowers the state rank, withdraws a callback, a byte or a message, or reopens the write half |
| `Connection.EstablishMeans` | Mymuduo/TcpConnection.cc:182-192 | up, registered, polled for readable and priority data and not for writability |
| `Connection.OpenIsRead` | Mymuduo/TcpConnection.cc:102-152 | an open connection asks for readable and priority data, and for writability exactly while output is pending |
| `Connection.DownMeans` | Mymuduo/TcpConnection.cc:194-294 | taking a connection down clears its interest, tells the user once, and touches no byte |
| `Connection.RanksGrow` | Mymuduo/TcpConnection.cc:182-294 | the rank is monotone between any two moments of a run |
| `Connection.Lifecycle` | Mymuduo/TcpConnection.cc:182-294 | the user sees one up callback, then one down callback exactly when the connection is down |
| `Connection.DownIsSilent` | Mymuduo/TcpConnection.cc:95-99 | an operation on a connection that is down writes nothing, queues nothing, calls nothing, asks the poller for no interest |
| `Connection.ClosedIsSilent` | Mymuduo/TcpConnection.cc:194-294 | the same for every later operation of a run, and the wire does not change any more |
| `Connection.WriteCompleteIff` | Mymuduo/TcpConnection.cc:106-260 | one write-complete callback exactly when the output empties by writing, and then every accepted byte is on the wire |
| `Connection.HighWaterIff` | Mymuduo/TcpConnection.cc:134-147 | one high-water callback exactly when the buffered length crosses the mark upwards, and it reports the length reached |
| `Connection.HighWatersAreCrossings` | Mymuduo/TcpConnection.cc:134-147 | over a run, as many high-water callbacks as upward crossings |
| `Connection.DrainBetweenCrossings` | Mymuduo/TcpConnection.cc:233-245 | between two upward crossings a handleWrite brought the length below the mark |
| `Connection.LateSendReRegistersIff` | Mymuduo/TcpConnection.cc:88-154 | a send registers a removed channel again exactly under the guard |
| `Connection.ExposedIff` | Mymuduo/TcpConnection.cc:88-154 | some answer of the kernel makes a send register a removed channel again exactly when the connection is exposed |
| `Connection.TrafficIsCalm` | Mymuduo/TcpConnection.cc:64-280 | sending, draining and half-closing change neither the index nor, but for the half-close flag, the state |
| `Connection.RequestIsFaithful` | Mymuduo/TcpConnection.cc:64-294 | no operation changes index or interest without asking the poller |
| `TcpConnectionClass.TcpConnection.constructor` | Mymuduo/TcpConnection.cc:25-56 | a new connection is in the machine's start state |
| `TcpConnectionClass.TcpConnection.TryWrite` | Mymuduo/TcpConnection.cc:101-129 | the direct write happens only with nothing buffered and interest off; what it reports |
| `TcpConnectionClass.TcpConnection.KeepRest` | Mymuduo/TcpConnection.cc:131-153 | the rest goes to the back of the buffer, the crossing is reported, interest is on |
| `TcpConnectionClass.TcpConnection.SendInLoop` | Mymuduo/TcpConnection.cc:88-154 | connection, poller and queue follow the machine's send |
| `TcpConnectionClass.TcpConnection.Send` | Mymuduo/TcpConnection.cc:64-87 | at once on the own thread, queued with its bytes from another, nothing unless connected |
| `TcpConnectionClass.TcpConnection.Shutdown` | Mymuduo/TcpConnection.cc:156-168 | sets the flag once; half-closes at once or through the queue |
| `TcpConnectionClass.TcpConnection.ShutdownInLoop` | Mymuduo/TcpConnection.cc:170-180 | closes the write half exactly when no output is pending |
| `TcpConnectionClass.TcpConnection.HandleWrite` | Mymuduo/TcpConnection.cc:233-280 | connection, poller and queue follow the machine's drain |
| `TcpConnectionClass.TcpConnection.Drained` | Mymuduo/TcpConnection.cc:248-265 | interest off, write-complete queued, a pending half-close done |
| `TcpConnectionClass.TcpConnection.ConnectEstablished` | Mymuduo/TcpConnection.cc:182-192 | tied, up, and in the kernel's set with its own mask, readable and priority data among it |
| `TcpConnectionClass.TcpConnection.HandleClose` | Mymuduo/TcpConnection.cc:281-294 | down, all interest off |
| `TcpConnectionClass.TcpConnection.ConnectDestroyed` | Mymuduo/TcpConnection.cc:194-208 | down if it was up, and in every state the channel is gone from map and kernel |
| `TcpConnectionClass.TcpConnection.HandleRead` | Mymuduo/TcpConnection.cc:209-232 | received bytes are enqueued, the end of the stream closes, an error changes nothing |
| `ReactorInvariant.TrafficKeeps` | Mymuduo/TcpConnection.cc:64-280 | sending, draining and half-closing keep the system invariant, late or not |
| `ReactorInvariant.CloseKeeps` | Mymuduo/TcpConnection.cc:281-294 | a close keeps it, and finds its channel registered: no connection is closed twice |
| `ReactorInvariant.ForgetKeeps` | Mymuduo/TcpServer.cc:131-150 | forgetting a connection keeps it and leaves the destruction queued on the connection's loop |
| `ReactorInvariant.DetachKeeps` | Mymuduo/TcpConnection.cc:207 | removing the channel keeps it, and happens only past the connected state |
| `ReactorInvariant.DestroyServerKeeps` | Mymuduo/TcpServer.cc:32-47 | the server's destructor keeps it, between two turns of the main loop or in a functor on it |
| `ReactorInvariant.StepKeeps` | Mymuduo/TcpServer.cc:32-150 | every step of any thread keeps it |
| `ReactorInvariant.InitialHolds` | Mymuduo/TcpServer.cc:12-31 | a server without connections satisfies it |
| `ReactorMoves.StepMoves` | Mymuduo/EventLoop.cc:78-91 | a step takes at most one functor, queues on at most one loop and changes at most one frame |
| `ReactorMoves.StepSmooth` | Mymuduo/TcpServer.cc:119-150 | every step but a hand-over keeps the removal of a connection as far as it has got, and destroys it no second time |
| `ReactorSteps.OpsInOrder` | Mymuduo/TcpConnection.cc:182-294 | every operation a step performs comes in its turn, on an owned connection |
| `ReactorSteps.StepProjects` | Mymuduo/TcpConnection.cc:64-294 | a step of the system is, for each connection, a short run of the single machine |
| `ReactorRemovals.DestroyServerDue` | Mymuduo/TcpServer.cc:32-47 | the destructor trades the entry of a connection for exactly one destruction |
| `ReactorRemovals.DetachAccount` | Mymuduo/TcpConnection.cc:207 | after the removal of its channel a half-closing connection has no removal due any more |
| `ReactorRemovals.StepAccount` | Mymuduo/TcpServer.cc:32-150 | every step keeps exactly one removal due for a connection that is not down and not yet removed, and the removal of a closed one from the map on its way |
| `ReactorRuns.ReachableInv` | Mymuduo/TcpServer.cc:32-150 | invariant and account hold after every run |
| `ReactorRuns.Projection` | Mymuduo/TcpConnection.cc:64-294 | each connection of each run is a run of the single machine from a fresh connection, on the loop the round robin picks |
| `ReactorRuns.StreamsPreserved` | Mymuduo/TcpConnection.cc:88-280 | byte-stream preservation for what reached sendInLoop in every interleaving; half-closing, the write half closes only with everything written, and where shutdownInLoop left it open output is pending with interest on |
| `ReactorRuns.StepMovesForward` | Mymuduo/TcpConnection.cc:182-294 | no step lowers a rank, and none writes for or registers a connection that is down |
| `ReactorRuns.Lifecycles` | Mymuduo/TcpConnection.cc:182-294 | from any reachable state on ranks only rise, up comes before down, down exactly when closed, closed is silent |
| `ReactorRuns.EstablishedFirst` | Mymuduo/TcpServer.cc:97-100 | a functor runs on a connection in its first state exactly if it is connectEstablished; handlers start only on connections that are up or half-closing |
| `ReactorRuns.ClosedIsForgotten` | Mymuduo/TcpServer.cc:119-138 | a closed connection is in connections_ only while its removal is queued or its close callback still to be called |
| `ReactorRuns.EntriesAreLive` | Mymuduo/TcpServer.cc:86-150 | any other connection in connections_ is registered or not yet established, and nothing is about to destroy it |
| `ReactorRuns.ThreadConfinement` | Mymuduo/TcpServer.cc:119-150 | connections_ changes only on the main loop; a poller, a connection and all of a loop but the tail of its queue only on their own, but for the half-close flag |
| `ReactorDelivery.NothingLost` | Mymuduo/EventLoop.cc:127-185 | in every run what was queued on a loop stays queued in its place until run: each functor runs at most once, in order |
| `ReactorDelivery.SendsConserved` | Mymuduo/TcpConnection.cc:64-87 | in every run the messages that reached a connection, with those on its loop's queue and in flight, are exactly those of the send() calls made while it was up, from any thread |
| `ReactorDelivery.ShutdownsConserved` | Mymuduo/TcpConnection.cc:156-168 | every shutdown() called while the connection was up has performed its shutdownInLoop or is on its way, and no other has |
| `ReactorDelivery.ShutdownTakesEffect` | Mymuduo/TcpConnection.cc:156-180 | once it is no longer on its way, the connection is down, or half-closed, or has output pending with write interest on |
| `ReactorDelivery.UserTasksConserved` | Mymuduo/EventLoop.cc:127-139 | every functor user code queues is run by that loop or still to be run, exactly once |
| `ReactorNotices.NoticesDelivered` | Mymuduo/TcpConnection.cc:106-260 | the write-complete and high-water callbacks of a connection on its loop, run or still to be run, are exactly those its own run posted, in order |
| `ReactorOwnership.RegisteredIsAlive` | Mymuduo/TcpServer.cc:86-150 | a connection whose removal is due is owned |
| `ReactorOwnership.LiveIsFree` | Mymuduo/EPollPoller.cc:106-117 | a live connection's descriptor is occupied by no other channel of its poller |
| `ReactorOwnership.OwnersShrink` | Mymuduo/TcpServer.cc:119-150 | ownership only arises from ownership: no step revives a connection |
| `ReactorOwnership.StepReg` | Mymuduo/EPollPoller.cc:73-117 | every step keeps index, poller map and kernel set of all connections in agreement |
| `ReactorOwnership.StepFds` | Mymuduo/TcpServer.cc:51-150 | no step makes two live connections share a descriptor |
| `ReactorOwnership.StepOwned` | Mymuduo/TcpServer.cc:32-150 | every timely step keeps a removal due for every registered channel, the agreement and the descriptors |
| `ReactorSafety.Ownership` | Mymuduo/TcpServer.cc:86-150 | in every timely run each entry of each poller's map belongs to an owned connection on that loop and descriptor, which no other live connection has |
| `ReactorSafety.RemovalIsExact` | Mymuduo/EPollPoller.cc:106-117 | removing a channel leaves every other channel's map entry |
| `ReactorSafety.ActiveChannelsAlive` | Mymuduo/EventLoop.cc:83-87 | every channel of the active list is alive until it is handled |
| `ReactorSafety.NothingStuck` | Mymuduo/EPollPoller.cc:73-104 | index, map and kernel agree; a connection that is up, or half-closing and not removed, is registered and polled, and the kernel's write bit is set exactly while it has output |
| `ReactorSafety.EpollCtlLegal` | Mymuduo/EPollPoller.cc:131-152 | no epoll_ctl a run issues fails, the first of a connection established at once included |
| `ReactorSafety.RegistryIsExact` | Mymuduo/TcpServer.cc:86-150 | with all loops at rest, connections_ holds exactly the connections whose channel is registered, all up or half-closing |
| `ReactorEvents.EveryReportBegins` | Mymuduo/EventLoop.cc:83-87 | from a poll to the functor phase, the reports taken up and those still to be are those of the poll, in order |
| `ReactorEvents.NoReportIsSkipped` | Mymuduo/EventLoop.cc:83-90 | the functor phase starts only with every report taken up and its handler done |
| `ReactorEvents.ReportMeans` | Mymuduo/Channel.cc:50-101 | a report on a live connection starts a handler with exactly the callbacks of its bits, in order |
| `ReactorEvents.HandlerGoesOn` | Mymuduo/Channel.cc:67-101 | a handler does its pieces in order; only a close and a read put something in the place of theirs |
| `ReactorEvents.ErrorsChangeNothing` | Mymuduo/TcpConnection.cc:225-231 | a reported error and a failed read change nothing |
| `ReactorEvents.BytesAreHandedOn` | Mymuduo/TcpConnection.cc:215-219 | received bytes go to the user's message callback before anything else |
| `ReactorEvents.EndOfStreamCloses` | Mymuduo/TcpConnection.cc:220-224 | the end of the stream makes the close the next piece, and running it takes the connection down, with the two callbacks to follow |
| `ReactorEvents.CloseMeans` | Mymuduo/TcpConnection.cc:281-294 | a close takes the connection down and its interest off, with connectionCallback_ and closeCallback_ to follow in this order |
| `ReactorEvents.RemovalMeans` | Mymuduo/TcpServer.cc:119-150 | the close callback takes the connection out of the map, or sends the main loop for that |
| `ReactorEvents.FunctorMeans` | Mymuduo/EventLoop.cc:180-182 | a queued callback runs as the user's, and connectEstablished brings the connection up with the up callback to follow |
| `ReactorEvents.DestroyMeans` | Mymuduo/TcpConnection.cc:194-208 | connectDestroyed removes the channel in every case, after the user's down callback if the connection was up |
| `ReactorEvents.DestroyServerMeans` | Mymuduo/TcpServer.cc:32-47 | the destructor does the same at once for a connection of the main loop |
| `ReactorEvents.DetachMeans` | Mymuduo/EPollPoller.cc:106-117 | removing an owned connection's channel leaves nothing under its descriptor |
| `ReactorEvents.BatchIsRun` | Mymuduo/EventLoop.cc:169-185 | the functor phase of a loop runs its batch in order whatever else happens |
| `ReactorEvents.BatchIsExact` | Mymuduo/EventLoop.cc:169-185 | and ends only when all of it has run |
| `ReactorEvents.OpenIsAlwaysPolled` | Mymuduo/TcpConnection.cc:182-192 | in every timely run an open connection has readable and priority data in its interest and in the kernel's mask of its descriptor |
| `ReactorEvents.ReadableIsRead` | Mymuduo/Channel.cc:86-92 | readable data can be reported for any open connection, and is then read and handed to the user |
| `ReactorEvents.EndOfStreamIsSeen` | Mymuduo/TcpConnection.cc:209-224 | the end of the stream can be reported for any open connection, and takes it down |
| `ReactorEvents.PendingIsWritten` | Mymuduo/TcpConnection.cc:233-265 | writability can be reported for any open connection with output, and when the socket takes it all every accepted byte is on the wire and a waiting half-close is done |
| `ReactorEvents.LoopGoesOn` | Mymuduo/EventLoop.cc:71-95 | in every reachable state each loop can take a step of its own, unless a functor bound to a raw `this` has lost its connection |
| `ReactorEvents.UserMayAsk` | Mymuduo/TcpConnection.cc:64-86 | user code can use any connection it refers to, from outside the loops or from a callback on any of them |
| `ReactorEvents.AsAccepted` | Mymuduo/TcpServer.cc:51-95 | each connection has the descriptor, the mark and the callbacks it was accepted with |
| `ReactorEvents.HeldStaysAlive` | Mymuduo/TcpConnection.cc:186 | a reference user code holds keeps the connection alive until it is dropped |
| `ReactorTimeliness.GuardMeansNoTicket` | Mymuduo/TcpConnection.cc:88-154 | a send that meets the guard finds no removal due any more |
| `ReactorTimeliness.UntimelyBreaks` | Mymuduo/TcpConnection.cc:88-154 | and it leaves a registered channel nobody is going to remove |
| `ReactorTimeliness.TimelyIsExact` | Mymuduo/TcpConnection.cc:88-154 | in any reachable state with all removals due, a step keeps them due exactly when it is timely |
| `ReactorTimeliness.TimelyIffSecured` | Mymuduo/TcpServer.cc:32-150 | over whole runs, every registered channel has its removal due throughout exactly when the run is timely |
| `ReactorTimeliness.OwnedAtRestIff` | Mymuduo/TcpServer.cc:86-150 | once all has come to rest, every registered channel is owned exactly if its removal is due |
| `ReactorTimeliness.SafeWhateverAnsweredIff` | Mymuduo/TcpConnection.cc:88-154 | a queued send is safe whatever the kernel answers exactly when its connection is not exposed |
| `ReactorTimeliness.ServingIsTimely` | Mymuduo/TcpServer.cc:51-150 | every run of a server that is not destroyed is timely |
| `ReactorTimeliness.ServingOwnership` | Mymuduo/TcpServer.cc:86-150 | ownership in every run of a server that is not destroyed |
| `ReactorTimeliness.ServingUnstuck` | Mymuduo/EPollPoller.cc:73-152 | in every such run nothing is stuck and no epoll_ctl fails |
| `ReactorTimeliness.ServingDispatch` | Mymuduo/EventLoop.cc:83-87 | in every such run active channels are alive and removals exact |
| `ReactorTimeliness.ServingRegistry` | Mymuduo/TcpServer.cc:86-150 | in every such run, at rest, connections_ and the pollers hold the same connections |
| `ReactorDestruction.CarefulIsTimely` | Mymuduo/TcpServer.cc:32-47 | a run is timely if no send waits for a half-closing connection when connectDestroyed removes its channel |
| `ReactorDestruction.CarefulOwnership` | Mymuduo/TcpServer.cc:32-47 | ownership in every such run |
| `ReactorLateSend.LateSendDangles` | Mymuduo/TcpServer.cc:32-47 | a valid run that comes to rest with a channel in its poller's map that nobody owns |
| `ThreadPool.LoadIs` | Mymuduo/EventLoopThreadPool.cc:40-55 | the number of connections on each IO loop after k calls |
| `ThreadPool.LoadsAreEven` | Mymuduo/EventLoopThreadPool.cc:40-55 | two IO loops' loads differ by at most one; without IO loops all are on the main loop |
| `ThreadPool.EventLoopThreadPool.Start` | Mymuduo/EventLoopThreadPool.cc:20-37 | as many loops as threads were asked for, in order |
| `ThreadPool.EventLoopThreadPool.GetNextLoop` | Mymuduo/EventLoopThreadPool.cc:40-55 | the k-th call, from 0, picks loops_[k mod n], or the main loop |
| `ServerNames.DecimalInjective` | Mymuduo/TcpServer.cc:58 | the decimal suffix determines the number |
| `ServerNames.DecimalDenotes` | Mymuduo/TcpServer.cc:58 | the suffix is the decimal text of the number: digits only, no leading zero, and it denotes the number |
| `ServerNames.IpPortLength` | Mymuduo/InetAddress.cc:25-35 | the address text has at most 23 characters |
| `ServerNames.SuffixFits` | Mymuduo/TcpServer.cc:57-58 | the suffix fits the 64-byte buffer for every int id |
| `ServerNames.IpPortInjective` | Mymuduo/InetAddress.cc:25-35 | the address text determines address and port |
| `ServerNames.NameReads` | Mymuduo/TcpServer.cc:57-60 | the name is the server's name, a dash, the address text, a number sign and the decimal id, never cut off |
| `ServerNames.NamesDiffer` | Mymuduo/TcpServer.cc:57-60 | two names are equal exactly for equal ids |
| `TcpServerClass.TcpServer.NewConnection` | Mymuduo/TcpServer.cc:51-101 | the entry overwrites none, connectEstablished goes to the round robin's loop, and the server follows the whole machine's step |
| `TcpServerClass.TcpServer.RemoveConnection` | Mymuduo/TcpServer.cc:119-129 | at once on the main loop, through its queue from another, as in the whole machine |
| `TcpServerClass.TcpServer.RemoveConnectionInLoop` | Mymuduo/TcpServer.cc:131-150 | the server forgets this connection and no other, its own loop is told to destroy it, and that is the whole machine's step |
| `TcpServerClass.TcpServer.Destroy` | Mymuduo/TcpServer.cc:32-47 | every known connection is told once, on its own loop, to destroy itself |

## Left out

- Real system calls: `write`, `readv`, `epoll_wait` and `epoll_ctl` are answers chosen by the environment under the assumptions above; `Socket`, `Acceptor` and the parsing in `InetAddress` are not part of this model.
- `Logger`, `Timestamp`, `CurrentThread`, `Thread` and the build files: thread identity is a number, log lines are dropped.
- `EventLoopThread`: starting a thread and waiting for its loop; and termination after `quit`, since `quit` before `loop()` is overwritten and does not wake the poll.
- Functors queued during the last turn before `loop()` returns: nothing is claimed about when they run.
- Bytes of a `sendInLoop` still queued when `shutdownInLoop` runs: a drain can half-close first, and such a message is then refused as a whole.
- `getAllLoop`: it returns nothing on its main branch.
- `handleError`: it reads the socket's error and logs it; no state changes.
- What user callbacks do is any sequence of sends, shutdowns and functors, from any thread, interleaved in `Reactor`; in the class `TcpConnection` a callback made in place is an entry in `edges`.
- The contents of received messages in `Reactor`: the input buffer is proved in `ByteBuffer` and `HandleRead`, the system machine only distinguishes bytes, end and error.
- The functors' arguments in `TaskLoop`: functors are values of a type parameter, and what arrives while they run is an input.
- Real time: the poll timeout, receive times, and the growth of the epoll event array.
- The address of the buffer's vector after growth: a longer vector is a new array here.
- `connections_` during the server's destructor: the source leaves null entries behind for the rest of the loop, the model takes the entry out.
- Numbers beyond the width of their C++ types: connection ids stop at 2^31 - 1, and lengths and the eventfd counter are unbounded.
- Changing the high-water mark or a callback while a connection is in use.
- Memory order: each access to an atomic, and each critical section, is one step.
- `ReactorSafety.Ownership`: for timely runs only; without that restriction it is false, as `ReactorLateSend.LateSendDangles` shows.
- `ReactorInvariant.DestroyServerKeeps`: does not model a destructor that is called from a connection's own callback on a server without IO loops, because the handler that called it goes on in a server that is gone.
- The kernel's own removal of a descriptor that is closed from its interest set: it happens after the last reference is gone, which the theorems rule out for registered channels.
