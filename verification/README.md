# bigfred-shared-daemon, verified

A Dafny model of the four parts of the crate `bigfred-shared-daemon` whose behaviour shows
only over runs, interleavings and byte streams, and the proofs of what they guarantee.
`dafny verify dfyconfig.toml` checks it.

- **Framed sessions** (`Frame`, `Codec`, `Command`, `Server`, `SessionProps`, `RequestProps`). A socket is a
  sequence of arrivals: non-empty chunks, whose cut is the short-read schedule, and faults at any
  place; behind the last one every read reports end of file. Its writing side takes any number
  of bytes before a write fails, and may work again afterwards. `ReadExact`, `ReadFrameBytes`,
  `WriteFrameBytes`, `Reply`, `DispatchOne` and `HandleConn` are the loops of the code, proved
  against functions on the bytes alone; `RequestProps` says what these mean in bytes and names. The
  JSON parser is an arbitrary partial function. Commands and hooks do any raw reads, any
  replies, and return any result: what they do is an arbitrary function of all calls made
  so far, so the theorems hold for commands with any state, shared with any thread.
- **The client cap** (`ClientCap`). Acceptor and workers are a transition system with one action for
  each atomic step; a run is any list of enabled actions. `Acceptor.ServeListener` is the accept
  loop with arbitrary worker steps in between, proved to produce only such runs.
- **The socket claim** (`Bind`). Many processes probe, unlink, bind, listen, chmod, chown, crash and
  retry on one path, each in separate steps; `UnixListener::bind` is two of them, because a socket
  that is bound refuses connections until it listens. An inode is named by the step that bound it.
  `Process.Claim` and `Process.Bind` are the code, with arbitrary steps of others in between.
- **The configuration watcher** (`Watch`, `WatchProps`, `ReloadProps`, `LoopProps`, `Debounce`,
  `Live`). Each iteration of the loop gets a record of everything it observes: stop flag, clock
  readings, the result of `recv_timeout`, and the state of the directories. `WatchLoop` is the loop, with `try_reload` as its
  callback, proved against a function on those records; the theorems are about all of their
  sequences. The history of triggers and reloads is part of its result.

## Where code and documentation differ

- `IpcError::Hangup` is documented to end a session without writing an error. A one-shot session
  hands it to the error hook, as `UnexpectedEof { read: 0, needed: 0 }`.
  `HangupIsSilentIffPersistent` proves that it is silent exactly in persistent mode;
  `OneShotHangupCallsTheHook` is a run that shows the other case.
- The crate's README promises that a live socket is never stolen. Two processes that both probe the
  same leftover can do it (`OverlapStealsALiveSocket`), and so can one that probes between another
  one's `bind` and `listen` (`BoundIsNotYetLive`). What the code guarantees: for a given set of
  processes the promise holds in every run if and only if there are no two of them
  (`NothingIsStolenIffAlone`); a socket that is live now is safe in every future if and only if no
  process stands between its probe and its unlink at this moment (`LiveSocketIsSafeIff`); and
  runs in which nobody probes while another one is between its probe and its `listen` are
  singletons (`SerialRunsAreSingleton`).
- The watcher is documented to invoke `on_reload` after debounce
  (`rust/crates/bigfred-shared-daemon/src/config/watch.rs:145`). While every `recv_timeout` finds a
  message, relevant or not, it does not, however long the deadline has passed:
  `OverdueReloadStarves` is such a run, for every debounce and of any length. The exact condition
  is that `recv_timeout` times out: with every spec attached, a pending reload is made in a run if
  and only if the run has a timeout (`PendingReloadFiresIffTimeout`); with some left to attach,
  one timeout more than there are of those is enough (`PendingReloadFires`); and
  `ReloadsAreExact` gives the reloads of every run.

## Model

| member | source | states |
|---|---|---|
| Frame.ReadExact | rust/crates/bigfred-shared-daemon/src/ipc/frame.rs:143-156 | under every chunk schedule, fills the buffer with the next bytes and leaves the stream right behind them; or reports how many of how many bytes came before end of file, or the fault, which is not retried |
| Frame.ReadFrameBytes | rust/crates/bigfred-shared-daemon/src/ipc/frame.rs:128-141 | the result is a function of the bytes and their end, not of the chunks; says where the stream stands afterwards in each case |
| Frame.WriteFrameBytes | rust/crates/bigfred-shared-daemon/src/ipc/frame.rs:77-94 | an oversized payload adds no byte; any other one adds its frame, cut where the write fails, and fails exactly if it was cut |
| Codec.HeaderRoundTrip | rust/crates/bigfred-shared-daemon/src/ipc/frame.rs:89-131 | the header gives back every length up to u32::MAX |
| Codec.HeaderIsLittleEndian | rust/crates/bigfred-shared-daemon/src/ipc/frame.rs:89-90 | byte k of the header is digit k of the length in base 256 |
| Codec.OversizedIsRefused | rust/crates/bigfred-shared-daemon/src/ipc/frame.rs:131-137 | a header that announces more than the cap is refused with both numbers, whatever follows |
| Codec.OversizedIsLeftUnread | rust/crates/bigfred-shared-daemon/src/ipc/frame.rs:131-137 | the bytes behind such a header stay in the stream |
| Codec.FrameRoundTrip | rust/crates/bigfred-shared-daemon/src/ipc/frame.rs:82-140 | a frame, followed by anything, decodes to its payload if and only if the payload fits u32; a longer one comes back cut at u32::MAX |
| Codec.TruncationReport | rust/crates/bigfred-shared-daemon/src/ipc/frame.rs:128-156 | every strict prefix of a frame is reported with the exact read and needed counts, or with the fault behind it |
| Codec.PrefixFree | rust/crates/bigfred-shared-daemon/src/ipc/frame.rs:77-94 | no frame is a prefix of another one |
| Codec.ReadAllIgnoresChunks | rust/crates/bigfred-shared-daemon/src/ipc/frame.rs:128-156 | reading frame after frame gives the frames of the byte stream, whatever the chunks |
| Codec.StreamRoundTrip | rust/crates/bigfred-shared-daemon/src/ipc/frame.rs:77-141 | any list of framed payloads decodes to that list, in front of whatever follows |
| Codec.WireRoundTrip | rust/crates/bigfred-shared-daemon/src/ipc/frame.rs:77-156 | under any chunk schedule the payloads that were framed are read, in order, and nothing is left over |
| Command.Connection.Reply | rust/crates/bigfred-shared-daemon/src/ipc/command.rs:101-103 | a message within the cap is put on the wire as one frame, cut where a write fails; any other one adds no byte and says why |
| Command.Connection.ReadValue | rust/crates/bigfred-shared-daemon/src/ipc/command.rs:110-121 | the next frame parsed, or the error of the frame or of the parser, with the stream behind that frame |
| Server.Session.DispatchOne | rust/crates/bigfred-shared-daemon/src/ipc/server.rs:299-324 | one request: read, route by its type, run, report; its new state and result are those of Dispatch |
| Server.Session.HandleConn | rust/crates/bigfred-shared-daemon/src/ipc/server.rs:259-297 | auth, then one dispatch or the request loop, which terminates; its new state is that of Handle |
| Server.DispatchConsumes | rust/crates/bigfred-shared-daemon/src/ipc/server.rs:308-323 | every dispatched request takes at least its header off the stream, whatever the command reads |
| SessionProps.SessionRefinesScript | rust/crates/bigfred-shared-daemon/src/ipc/server.rs:280-295 | the calls of a persistent session are those of the frames that the byte stream is cut into up front: the loop never loses its place |
| SessionProps.BodiesAreFrames | rust/crates/bigfred-shared-daemon/src/ipc/server.rs:308-316 | the k-th dispatched body is the k-th frame; frames are left out only behind a hang-up or a frame that is not JSON |
| SessionProps.ClientDrivesSession | rust/crates/bigfred-shared-daemon/src/ipc/server.rs:280-295 | what a client framed is what the session plays, up to the end that the connection comes to |
| SessionProps.ClientRequestsAreServed | rust/crates/bigfred-shared-daemon/src/ipc/server.rs:280-316 | if no command hangs up, every request of a client is dispatched once, in order |
| SessionProps.SessionIgnoresChunks | rust/crates/bigfred-shared-daemon/src/ipc/server.rs:280-295 | the same bytes in other chunks give the same calls and the same output |
| SessionProps.FaultEndsSession | rust/crates/bigfred-shared-daemon/src/ipc/server.rs:282-293 | a fault inside a frame, an interrupted read included, ends the session; the hook hears of it unless the peer is gone |
| RequestProps.EndOfInputIsSilent | rust/crates/bigfred-shared-daemon/src/ipc/server.rs:283 | a client that closes between frames or inside one ends the session with no call of the error hook and no byte sent |
| RequestProps.ClientMayLeaveAnytime | rust/crates/bigfred-shared-daemon/src/ipc/server.rs:280-295 | after any requests, and at any byte of another frame: every call of the error hook in the session reports a command that failed, or a frame that is not JSON |
| RequestProps.OversizedFrameIsReported | rust/crates/bigfred-shared-daemon/src/ipc/server.rs:290-293 | a header that announces more than the cap ends the session with one call of the error hook, which gets both numbers |
| RequestProps.CallsAreRouted | rust/crates/bigfred-shared-daemon/src/ipc/server.rs:308-317 | in every session: what is executed is a registered command, under the name in the "type" of its request; an unregistered name goes to the hook as it is, a missing one as "" |
| RequestProps.RawReadsTakeNextBytes | rust/crates/bigfred-shared-daemon/src/ipc/command.rs:123-126 | raw reads of a command take the next bytes of the input, at least one and no more than asked for |
| SessionProps.DispatchCalls | rust/crates/bigfred-shared-daemon/src/ipc/server.rs:317-323 | the result is the hang-up sentinel if and only if the command hung up; every other unexpected end of file has read < needed; and which calls go with which result |
| SessionProps.PersistentSessionIsOrderly | rust/crates/bigfred-shared-daemon/src/ipc/server.rs:280-323 | a hang-up is the last call; a failed command is followed by the report of its error; any other error hook call is the last one; at most one dispatch for every 4 bytes of input |
| SessionProps.HangupIsSilentIffPersistent | rust/crates/bigfred-shared-daemon/src/ipc/server.rs:276-281 | a hang-up ends the session without an error hook call if and only if the mode is persistent |
| SessionProps.OneShotHangupCallsTheHook | rust/crates/bigfred-shared-daemon/src/ipc/server.rs:36-38 | a run in which a one-shot hang-up reaches the error hook |
| SessionProps.AuthDecides | rust/crates/bigfred-shared-daemon/src/ipc/server.rs:270-274 | a refused peer is rejected and nothing else happens; an allowed one is never rejected |
| SessionProps.OneShotServesOnce | rust/crates/bigfred-shared-daemon/src/ipc/server.rs:276-279 | a one-shot session dispatches at most one request and hands every error, a plain end of file included, to the error hook |
| SessionProps.OutputIsWellFramed | rust/crates/bigfred-shared-daemon/src/ipc/frame.rs:77-94 | a peer that reads all that a session sent gets exactly the accepted replies, as complete frames, under any chunk schedule |
| RequestProps.RepliesArrive | rust/crates/bigfred-shared-daemon/src/ipc/command.rs:101-103 | the peer of a whole session reads every reply that could be sent, in its place among the others, and nothing else |
| RequestProps.EveryReplyArrives | rust/crates/bigfred-shared-daemon/src/ipc/command.rs:101-103 | if all replies of all commands and hooks can be sent, the peer reads every single one, in order |
| SessionProps.BrokenOutputIsAPrefix | rust/crates/bigfred-shared-daemon/src/ipc/frame.rs:89-93 | a connection that breaks for good cuts that frame sequence short, at the byte where it broke, and does nothing else to it |
| SessionProps.OutputIsCutFrames | rust/crates/bigfred-shared-daemon/src/ipc/frame.rs:89-93 | however often writes fail and work again: the output is one piece of each accepted reply, in order, each the beginning of its frame, and as many are cut as writes failed |
| SessionProps.TransientFailureGarblesOutput | rust/crates/bigfred-shared-daemon/src/ipc/frame.rs:89-93 | a single failed write, with later ones working, is enough for the reader to take the next frame for the rest of the cut one |
| ClientCap.Acceptor.ServeListener | rust/crates/bigfred-shared-daemon/src/ipc/server.rs:217-257 | with any worker steps between its own, the accept loop takes only the steps of the protocol, counts every accepted stream, and stops only when the path is gone |
| ClientCap.Acceptor.TakeSlot | rust/crates/bigfred-shared-daemon/src/ipc/server.rs:221-228 | load, compare, then reject or increment, as separate steps |
| ClientCap.CapHolds | rust/crates/bigfred-shared-daemon/src/ipc/server.rs:221-248 | in every run, at every moment: the counter is the number of slots held, at most max, no increment exceeds it and no decrement wraps |
| ClientCap.BusyMeansFull | rust/crates/bigfred-shared-daemon/src/ipc/server.rs:222-226 | a busy reject happens only if exactly max others held a slot when the counter was read; the rejected one holds none at any moment of the run |
| ClientCap.UnboundedNeverBusy | rust/crates/bigfred-shared-daemon/src/ipc/server.rs:221-234 | without a cap the counter stays untouched and nobody is rejected as busy |
| ClientCap.OneOutcomeEach | rust/crates/bigfred-shared-daemon/src/ipc/server.rs:218-275 | every accepted stream has exactly one outcome (busy, auth reject, session) once acceptor and worker are done with it, and none before |
| ClientCap.OutcomesAreFinal | rust/crates/bigfred-shared-daemon/src/ipc/server.rs:218-275 | no later step changes an outcome |
| ClientCap.AuthDecidesOutcome | rust/crates/bigfred-shared-daemon/src/ipc/server.rs:270-275 | a connection ends as a session if and only if auth allowed it, as rejected if and only if auth refused it |
| ClientCap.SlotsAreReturned | rust/crates/bigfred-shared-daemon/src/ipc/server.rs:245-247 | when all workers are gone the counter is zero |
| Bind.Process.Claim | rust/crates/bigfred-shared-daemon/src/ipc/bind.rs:77-102 | under any interference it takes only the steps of the protocol, a probe and an unlink if it succeeds and the probe alone if it finds a live peer; left alone it says for each fault how it ends and what becomes of the path |
| Bind.Process.Bind | rust/crates/bigfred-shared-daemon/src/ipc/bind.rs:116-131 | under any interference, success means that this process has probed, unlinked, bound, listened, set the mode, and set the owner if one was wanted, in this order; left alone it succeeds exactly if the path is dead or free and no call that it needs fails, and never touches a live path |
| Bind.TheftsAreOfYoungerSockets | rust/crates/bigfred-shared-daemon/src/ipc/bind.rs:77-102 | over all interleavings, whoever unlinked a live socket had probed before that socket began to listen |
| Bind.NothingIsStolenIffAlone | rust/crates/bigfred-shared-daemon/README.md:22-29 | for any set of processes that may claim the path: no run of theirs ever steals a live socket if and only if no two of them are different |
| Bind.LiveSocketIsSafeIff | rust/crates/bigfred-shared-daemon/src/ipc/bind.rs:3-10 | a live socket keeps its path in every future in which its owner does not give up if and only if no process is between its probe and its unlink now |
| Bind.LiveSocketIsKept | rust/crates/bigfred-shared-daemon/src/ipc/bind.rs:3-10 | with no process between its probe and its unlink, a live socket keeps its path under every interleaving until its owner gives up, every probe ends as already running, and nobody gets a socket who has none |
| Bind.SerialRunsAreSingleton | rust/crates/bigfred-shared-daemon/src/ipc/bind.rs:116-131 | in runs without overlapping windows, crashes and failed chmod/chown included: at most one listener, it owns the path, nothing was stolen, nor will be while it lives |
| Bind.SerialAttempt | rust/crates/bigfred-shared-daemon/src/ipc/bind.rs:77-95 | an attempt in such a run fails as already running, leaving the path, if and only if somebody listens |
| Bind.StaleLeftoverIsClaimed | rust/crates/bigfred-shared-daemon/src/ipc/bind.rs:93-131 | from every state with a dead or free path, an idle process left alone ends up serving it |
| Bind.OverlapStealsALiveSocket | rust/crates/bigfred-shared-daemon/README.md:22-29 | for any two processes and any leftover, a run in which one steals the live socket of the other, and both listen |
| Bind.BoundIsNotYetLive | rust/crates/bigfred-shared-daemon/src/ipc/bind.rs:123 | a run in which a probe between bind and listen leads to the unlink of a socket that listens by then |
| Watch.ExtensionIsAfterLastDot | rust/crates/bigfred-shared-daemon/src/config/watch.rs:111-113 | the extension of a name is what follows its last dot, unless that dot starts the name |
| Watch.AttachPending | rust/crates/bigfred-shared-daemon/src/config/watch.rs:212-228 | attaches exactly the specs that are not attached and can be, each watched once, in order; returns true exactly if a flag flipped |
| Watch.Receive | rust/crates/bigfred-shared-daemon/src/config/watch.rs:274-306 | the arms of the loop: new state and reloads are those of Advance |
| Watch.WatchLoop | rust/crates/bigfred-shared-daemon/src/config/watch.rs:239-309 | the loop, from its first attach to its stop: final state, signals sent and live value are those of Run, and it waits as Waits says |
| LoopProps.EventAsksIff | rust/crates/bigfred-shared-daemon/src/config/watch.rs:279-291 | an event sets the deadline exactly if it is a change, or an unknown kind, and one of its paths has a name that the filter of some spec is after; names are described by their parts |
| LoopProps.FileSpecReactsIff | rust/crates/bigfred-shared-daemon/src/config/watch.rs:80-96 | the spec of a file reacts exactly to changes of that very name, unless it is the name of an artifact |
| LoopProps.DirectorySpecReactsIff | rust/crates/bigfred-shared-daemon/src/config/watch.rs:97-115 | ignored suffixes come first, then extra names, then an empty list of extensions, then the part behind the last dot of a name with a stem |
| LoopProps.NoiseAsksForNothing | rust/crates/bigfred-shared-daemon/src/config/watch.rs:80-92 | artifacts of editors, nameless paths, accesses and other kinds never set the deadline, whatever the specs are |
| LoopProps.AttachesIff | rust/crates/bigfred-shared-daemon/src/config/watch.rs:183-228 | a turn attaches a spec exactly if it receives an event or times out, the directory is there, or could be created for a spec that is not recursive, and inotify takes it |
| LoopProps.StopsAtOnce | rust/crates/bigfred-shared-daemon/src/config/watch.rs:260-305 | the turn in which the loop is stopped or loses its watcher is its last, and changes nothing |
| LoopProps.GoesOn | rust/crates/bigfred-shared-daemon/src/config/watch.rs:259-307 | nothing else ends the loop: a run is its first turns, and then the others from where those led |
| LoopProps.WaitsUntilDeadline | rust/crates/bigfred-shared-daemon/src/config/watch.rs:263-272 | in every run, each recv_timeout is asked to wait for a second if nothing is pending, else exactly until the deadline, or not at all if that has passed |
| ReloadProps.NoLostNorSpuriousReload | rust/crates/bigfred-shared-daemon/src/config/watch.rs:274-304 | in every run, the triggers that the loop acts on are exactly the relevant events and late attaches of its turns, in order; a reload is pending exactly if one of them is newer than the last reload, from the newest one on; each reload answers the trigger before it, debounce later at the earliest |
| ReloadProps.NoRequestIsLost | rust/crates/bigfred-shared-daemon/src/config/watch.rs:274-304 | whatever relevant event a turn of the run hears, or spec it finds first: at the end a reload is pending since then or later, or was made debounce after it or later |
| ReloadProps.AttachedIffFound | rust/crates/bigfred-shared-daemon/src/config/watch.rs:212-298 | after any number of turns a spec is attached exactly if it was before, or could be attached in one of those that looked |
| WatchProps.FireRate | rust/crates/bigfred-shared-daemon/src/config/watch.rs:275-303 | reloads are debounce apart, take no more time than the run, and are no more than the relevant events and late attaches |
| WatchProps.JunkNeverReloads | rust/crates/bigfred-shared-daemon/src/config/watch.rs:80-94 | a run that hears only of junk names and attaches nothing late never reloads |
| ReloadProps.ReloadsAreExact | rust/crates/bigfred-shared-daemon/src/config/watch.rs:263-304 | in every run, however timed: each stretch of requests is reloaded once, in the first timeout behind it, or in a later one if a spec attaches in that very turn |
| ReloadProps.PendingReloadFires | rust/crates/bigfred-shared-daemon/src/config/watch.rs:263-304 | a pending reload is made by the end of every run with more timeouts than there are unattached specs, whatever else it receives |
| ReloadProps.PendingReloadFiresIffTimeout | rust/crates/bigfred-shared-daemon/src/config/watch.rs:296-303 | with every spec attached, a pending reload is made by the end of a run if and only if the run times out |
| ReloadProps.OverdueReloadStarves | rust/crates/bigfred-shared-daemon/src/config/watch.rs:145-146 | for every debounce, runs of any length in which a configuration file changes, its reload is overdue, and it is not made |
| ReloadProps.BusyQueueHoldsUpReload | rust/crates/bigfred-shared-daemon/src/config/watch.rs:274-295 | from any state, as long as every receive finds a message, nothing is reloaded |
| ReloadProps.LateAttachDefersReload | rust/crates/bigfred-shared-daemon/src/config/watch.rs:296-303 | a spec that attaches late pushes an overdue reload out by debounce |
| WatchProps.EachSpecIsWatchedOnce | rust/crates/bigfred-shared-daemon/src/config/watch.rs:212-228 | over every run what is attached stays so, and no spec is watched twice |
| WatchProps.SpecsAreIsolated | rust/crates/bigfred-shared-daemon/src/config/watch.rs:180-210 | whether and when a spec attaches depends only on what the loop sees of its own directory; a directory that is created on behalf of another spec counts as something it sees there |
| ReloadProps.LiveConverges | rust/crates/bigfred-shared-daemon/src/config/mod.rs:105-109 | with nothing pending, the last load came debounce after every relevant event heard and every spec found, or later, and Live holds what the file has loaded as since any of them |
| Watch.FireReload | rust/crates/bigfred-shared-daemon/src/config/watch.rs:230-237 | signals and calls back as configured; Live holds the last successful load |
| Live.TryReload | rust/crates/bigfred-shared-daemon/src/config/mod.rs:105-109 | a successful load replaces the snapshot, a failed one leaves it |
| Debounce.ReloadsAreBursts | rust/crates/bigfred-shared-daemon/src/config/watch.rs:258-307 | on prompt timers, at every point: reloads so far and the one due next are the ends of the bursts of relevant events, plus debounce; irrelevant events move nothing |
| Debounce.OneReloadPerBurst | rust/crates/bigfred-shared-daemon/src/config/watch.rs:258-307 | when all is heard and nothing is pending, there was exactly one reload per burst |
| Debounce.PromptRunExists | rust/crates/bigfred-shared-daemon/src/config/watch.rs:263-307 | every ordered list of arrivals has such a run |

## Left out

- `datadir.rs`, `config/json.rs`, `config/sighup.rs`, the spawn and bind wrappers, logging and error texts: plumbing with little branching.
- `ipc/auth.rs`: one arbitrary boolean for each connection.
- `Router::add`: the dispatch table is the set of registered names.
- Debounce.ReloadsAreBursts: assumes prompt timers, iterations that take no time, no late attach, and no relevant event exactly on a deadline, where the code may do either; `ReloadsAreExact` is about runs without these assumptions, with bursts told apart by timeouts.
- Debounce.OneReloadPerBurst: the same.
- The JSON parser is any partial function on payloads; that it fails on the empty payload is not needed by any theorem.
- Commands and hooks that write raw bytes through `Connection::stream`: all output goes through `reply`. They may read raw bytes.
- SessionProps.SessionRefinesScript: is about commands that leave the input alone; one that reads from it takes away the bytes of later frames, by an amount that depends on the chunks.
- A worker that panics would keep its slot, and a thread that cannot be spawned would end the acceptor: handlers return and spawning succeeds.
- Permission bits and owners: chmod and chown succeed, fail, or find the path gone.
- WatchProps.SpecsAreIsolated: what `create_dir_all` does for one spec is not linked to what is seen of another one's directory.
- A reload loads at the clock reading of its deadline check.
- Atomics are sequentially consistent, as the orderings in the code say; time is a number of nanoseconds that does not go back.
- Acceptor, workers and processes are values that actions transform; the classes beside them are the code of one thread, with the steps of the others given from outside.
