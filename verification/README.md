# Verification of go-toolbelt

This project models, in Dafny, the parts of go-toolbelt whose correctness depends on an invariant rather than on a
single body, and proves what each of them is for:

- `JsonTree.dfy`, `StrictJson.dfy`, `BoundedRead.dfy`: the iterative duplicate-name validator against recursive JSON
  trees, and the bounded read in front of it.
- `Admission.dfy`, `Gateway.dfy`: the connection semaphore and the start/stop/drain protocol of the local gateway.
- `EndpointUnix.dfy`, `Hex.dfy`: removal of a Unix socket by identity, and the check for a stale one, while other
  processes change the directory.
- `Artifact.dfy`: copy-and-hash, and concurrent content-addressed publication.
- `DbStore.dfy`: the start/stop/close lifecycle that the postgres and sqlite stores share.
- `Process.dfy`, `ProcessEnv.dfy`: the event protocol of a child process, environment merging, scrollback.
- `EventBus.dfy`, `Jobs.dfy`, `PrivateDir.dfy`: the broker, the job manager, and path normalisation.
- `Basics.dfy`: options, counting, and runs of transition systems.

## How it is modelled

Concurrent objects are transition systems over values: one step is one critical section, one channel operation, one
system call or one foreign call, and any number of callers take steps in any order. A mutex held across several steps
is part of the state; a condition variable keeps sleeping, woken and running callers apart. `Runs.Reachable` means
reachable by a finite sequence of such steps, so a lemma about a reachable state is about every interleaving. What each
critical section does to its object's fields is a function (`Admission.Tested`, `Gateway.StopBegun`, `DbStore.AfterStop`,
`Jobs.Ended`, ...); the steps use it, and a class with the object's own fields has a method for the critical section
that is proved equal to it.

Sequential code with loops is a method with the source's loop, proved against a specification that does not mention the
loop: `StrictJson.ValidateTokens`, `BoundedRead.DecodeReader`, `ArtifactCopy.CopyAndDigest`, `ProcessEnv.MergeEnv`,
`PrivateDir.Normalize`, `Jobs.JobManager.List`, `EventBus.Broker.Publish`, and the removal protocol of
`EndpointUnix`, which calls `Others` wherever another process may act. Readers, writers, contexts, timers, the random
suffix, the operating system's failures, the order in which a Go map is ranged over and the SHA-256 function are
arbitrary. A reader returns an empty result without an error only finitely often.

## Where the code and its promise differ

- `validateTokens` by itself is not a recogniser of JSON: fed a closing brace right after an object key, it pops the
  object. `StrictJson.LoopLanguage` gives its exact language; `StrictJson.ExactlyWhenRight` says it is right on precisely
  the streams that are not those of an otherwise good value in which some object ends in a key;
  `StrictJson.DanglingKeyAccepted` is the counterexample. `json.Decoder` never produces one, and
  `StrictJson.ValidatesJson` is the result on what it does produce.
- `removeStaleSocket` looks its path up three times, to validate, to identify and to dial, and removes what it
  identified. `StaleSocket.ProvedStaleExactly`: that is the object it validated and dialled if and only if the endpoint
  was the same object at all three; `StaleSocket.SwappedUnlinked` is a run in which it is not, and a socket on which
  somebody listens is unlinked.
- `mergeEnv` does not check its keys. `ProcessEnv.MergesRightExactly` proves that last-wins lookup is right for every
  base, map order and key if and only if every `key=value` item of `extra` reads back as an entry of `extra`, which holds
  when no key contains `=`; `ProcessEnv.EqualsInKey` is an input for which it fails.
- `collect` looks at the context twice. A context that ends between the two looks gives a result that is canceled and has
  no error; `ProcessEvents.KindMatches` shows that this is the only way, and that the terminal event agrees with the
  result all the same.
- A `Put` fails when the file already stored under its digest is bad; `ArtifactStore.NoFalseAlarm` shows that on a
  store changed only by `Put` this needs a store that began with that file, or two contents of different lengths with
  one digest.

## Model

| member | source | states |
|---|---|---|
| StrictJson.ValidateTokens | strictjson/strictjson.go:121-201 | The loop over frames, for every token stream and either ending, returns what the token-by-token specification says, whose language and errors the rows below state, and on every stream the decoder can produce returns nil iff it ended cleanly and is a JSON text. |
| StrictJson.ValidatesJson | strictjson/strictjson.go:118-201 | On streams in which no closing brace follows an object key, acceptance is exactly: the flattening of a JSON tree with unique names in every object and at most 10000 open containers. |
| StrictJson.LoopLanguage | strictjson/strictjson.go:121-201 | With no assumption on the decoder, the accepted streams are exactly the flattenings of trees that may have a key without a value. |
| StrictJson.ExactlyWhenRight | strictjson/strictjson.go:140-173 | The loop's answer on a cleanly ended stream is the right one iff the stream is not that of a value with unique names and bounded depth in which some object ends in a key; such a stream has a closing brace right after a key. |
| StrictJson.DanglingKeyAccepted | strictjson/strictjson.go:163-173 | The stream of a brace, a name and a brace is such a stream: it is accepted and is no JSON text. |
| StrictJson.ViablePrefix | strictjson/strictjson.go:126-200 | The loop is still running iff some continuation makes the stream a JSON text: it rejects at the first hopeless token. |
| StrictJson.FirstBadToken | strictjson/strictjson.go:140-160 | The first bad token is reported as a duplicate name iff it is a name the innermost open object already has, and as invalid JSON iff it is not and nothing can continue it. |
| StrictJson.RunMirrors | strictjson/strictjson.go:122-200 | After any stream the loop's frames are the image of the partial tree built so far: every object frame below the top wants a key next, every `seen` set is that object's names so far; and it survives iff that tree keeps the bounds. |
| StrictJson.StepMirrorsAlways | strictjson/strictjson.go:136-199 | One pass of the loop accepts a token iff the token extends the partial tree within the bounds, and gives the matching error otherwise. |
| JsonTree.FlattenInjective | strictjson/strictjson.go:121-201 | Two trees with the same tokens are the same tree, so an accepted stream stands for exactly one. |
| JsonTree.ParseProgress | strictjson/strictjson.go:140-199 | Reading the tokens of any partial tree gives that partial tree back. |
| JsonTree.ParseFlattens | strictjson/strictjson.go:140-199 | Whatever a stream builds flattens to that stream. |
| StrictJson.Decoder.Token | strictjson/strictjson.go:126-135 | The token contract: the tokens in order, then end of file or an error for ever. |
| BoundedRead.DecodeReader | strictjson/strictjson.go:76-110 | For every reader and limit: at most maxBytes+1 bytes are consumed; no progress is answered exactly when the last read made none, and otherwise passed on with the whole stream, too large and broken are each answered exactly when due; no int64 overflows. |
| BoundedRead.ReadAllLimited | strictjson/strictjson.go:91-95 | The limited read returns a prefix of the stream, and the whole of it when the budget is not used up. |
| Io.Reader.Read | strictjson/strictjson.go:92-98 | The io.Reader contract over arbitrary scripts: short reads, data together with the final error, a sticky end. |
| Admission.SlotsConserved | localgateway/admission.go:36-85 | In every interleaving `active` is the number of accepts holding a slot plus connections not yet released, and is between 0 and `max`. |
| Admission.NoLostWakeup | localgateway/admission.go:24-73 | While open with a sleeper, every free slot is spoken for by a woken accept that will find room. |
| Admission.SleepsOnlyWhenFull | localgateway/admission.go:26-53 | When only the network can move, a sleeping accept means exactly `max` slots are in use by accepts in flight and open connections. |
| Admission.ClosedForGood | localgateway/admission.go:32-66 | After a Close the listener is closed and stays so, and no accept is ever asleep again. |
| Admission.ErrorsHaveCauses | localgateway/admission.go:24-56 | In every run an accept returns an error iff it found the listener closed or its underlying accept failed, so never because the listener is full; and one that returns none has published a connection. |
| Admission.ReleasedForGood | localgateway/admission.go:75-85 | A connection that has given its slot back never gives it back again, however often it is closed. |
| Admission.ClosedConnReleases | localgateway/admission.go:81-85 | Closing a connection claims its slot, and a claimed slot can be given back at once. |
| Admission.NormalizeMaxConnections | localgateway/gateway.go:124-129 | The limit is the configured one when that is between 1 and 4096, and 64 otherwise. |
| Admission.AdmissionListener.TestAndReserve | localgateway/admission.go:26-37 | The test at the head of Accept: refuse iff closed, join the sleepers iff open and full, take a slot iff open with room. |
| Admission.AdmissionListener.Recheck | localgateway/admission.go:45-53 | After the underlying accept: publish, or, if the listener was closed meanwhile, give the slot back and wake one sleeper, if there is one. |
| Admission.AdmissionListener.Release | localgateway/admission.go:68-73 | Gives one slot back and wakes exactly one sleeper, if there is one. |
| Admission.AdmissionListener.Close | localgateway/admission.go:58-66 | Closes, and wakes every sleeper the first time. |
| Admission.AdmittedConn.Close | localgateway/admission.go:75-85 | The first Close of a connection gives its slot back and wakes one sleeper, if there is one; the others do nothing. |
| Gateway.DrainedForGood | localgateway/gateway.go:205-299 | Once a Stop has waited for the handlers, no handler runs and none ever runs again, nor does the serve goroutine. |
| Gateway.RefusedOnlyWhenStopping | localgateway/gateway.go:251-299 | A request is refused only once a Stop has begun. |
| Gateway.CleanupAfterDrain | localgateway/gateway.go:224-234 | The endpoint cleanup runs only with no handler running, the serve goroutine ended and the mutex held by that Stop. |
| Gateway.OneStartOneCleanup | localgateway/gateway.go:151-234 | At most one Start ever succeeds; successful cleanups plus the one owed equal successful starts. |
| Gateway.NoStartAfterStop | localgateway/gateway.go:151-211 | No Start that gets the mutex after a Stop has had it succeeds, in any run. |
| Gateway.StartsExactly | localgateway/gateway.go:151-197 | In every run a Start succeeds iff its endpoint opens, no Start has succeeded and no Stop has had the mutex; it then serves and owes the cleanup. |
| Gateway.StopSucceeded | localgateway/gateway.go:205-242 | A Stop that returned no error left nothing running and no cleanup owed. |
| Gateway.StopFailsExactly | localgateway/gateway.go:213-241 | In every run a Stop returns an error iff shutting down, closing or cleaning up met one or the serve error was set when it returned; one that returns none leaves the server stopped. |
| Gateway.StopInOrder | localgateway/gateway.go:208-227 | A Stop that waits, or is past its waits, has shut the HTTP server down and closed the listener; only a Stop of a stopped server returns without. |
| Gateway.ServeErrorReported | localgateway/gateway.go:185-241 | Once the serve goroutine has failed, no Stop returns nil, in any run, and none has. |
| Gateway.NoLostDrainWakeup | localgateway/gateway.go:261-285 | A Stop asleep at the gate is waiting for a handler that is still running. |
| Gateway.StopWaitsOnlyForWork | localgateway/gateway.go:205-242 | A Stop that holds the mutex can always take a step unless it waits for the serve goroutine or a running handler. |
| Gateway.HandlerGate.Enter | localgateway/gateway.go:251-259 | Admits and counts a handler iff the gate is not stopping. |
| Gateway.HandlerGate.Leave | localgateway/gateway.go:261-268 | Uncounts a handler, and broadcasts when it was the last and somebody may be waiting. |
| Gateway.HandlerGate.Stop | localgateway/gateway.go:270-274 | Closes the gate for new handlers. |
| Gateway.HandlerGate.WaitTest | localgateway/gateway.go:276-285 | One pass of the waiting loop: sleep iff some handler is active. |
| Gateway.Server.Start | localgateway/gateway.go:151-197 | Succeeds iff neither stopping, stopped nor started and the endpoint opens; it then owes one cleanup. |
| Gateway.Server.BeginStop | localgateway/gateway.go:206-211 | A stopped server is left alone; any other is marked stopping. |
| Gateway.Server.RunCleanup | localgateway/gateway.go:228-234 | The cleanup is owed until it succeeds. |
| Gateway.Server.EndStop | localgateway/gateway.go:235-241 | Stop fails iff an earlier error or the serve error is set, and is stopped from then on iff it does not. |
| EndpointUnix.RemoveOwnedSocket | localgateway/endpoint_unix.go:143-162 | Under any interference, the whole log of what the removal did, an error only for a failed call or a changed object, and an object not put back only for a failed call or a taken endpoint; undisturbed and with no failed call it unlinks the expected object and nothing else, finds nothing, or leaves the directory as it was. |
| EndpointUnix.RemovalAnswers | localgateway/endpoint_unix.go:143-162 | With no failed call, and whatever the others do, the answer is exactly what stood at the endpoint at the rename: nothing, the expected object, or another. |
| EndpointUnix.RemovalSafe | localgateway/endpoint_unix.go:143-179 | In every such log only the expected identity is unlinked, and it is iff the answer is success with something found; only another object that stood at the random name is overwritten; a different object is at most moved aside and put back. |
| EndpointUnix.SettleQuarantined | localgateway/endpoint_unix.go:154-161 | Inspects the object set aside, and removes or restores it by its identity; undisturbed and with no failed call, the answer and the directory are determined. |
| EndpointUnix.RestoreQuarantinedSocket | localgateway/endpoint_unix.go:172-179 | Puts the object back, never over another object, and leaves it where it is only for a failed call or a taken endpoint. |
| StaleSocket.RemoveStaleSocket | localgateway/endpoint_unix.go:75-100 | Under any interference the check is a run of the step system, with its failed calls, from the directory it was called in to its answer; undisturbed and with no failed call it removes exactly a private socket that nobody listens on, and otherwise says what it found and changes nothing. |
| StaleSocket.UnlinksIdentified | localgateway/endpoint_unix.go:75-100 | In every run, what is unlinked is the object identified at the second lookup, after a private socket was seen at the first and before something refused the dial at the third; and nothing else ever is. |
| StaleSocket.ProvedStaleExactly | localgateway/endpoint_unix.go:76-97 | In every run, the object unlinked is the one that was seen private and that refused the dial iff the endpoint was the same object at the three lookups. |
| StaleSocket.SwappedUnlinked | localgateway/endpoint_unix.go:76-97 | For any other object, listening or not, there is a run in which it is unlinked: it stands at the endpoint only when the identity is read and when the removal starts. |
| EndpointUnix.CleanupPathDistinct | localgateway/endpoint_unix.go:164-170 | The quarantine name is never the endpoint, and different random suffixes give different names. |
| EndpointUnix.FileSystem.RenameNoReplace | localgateway/restore_linux.go:7-9 | Renames onto a free name, or changes nothing. |
| ArtifactCopy.CopyAndDigest | artifact/artifact.go:222-250 | On success the bytes written, the bytes hashed and the whole source are one sequence and the size is its length; it fails only for an ended context, a failed write or a broken source, with no digest and a prefix of the source written. |
| ArtifactCopy.PathOfDigest | artifact/artifact.go:78-87 | Every computed digest has a path, and different digests have different paths. |
| ArtifactCopy.PathOfExactly | artifact/artifact.go:78-87 | A digest has a path iff it is 64 hexadecimal digits; its directory is the first two. |
| ArtifactStore.NeverOverwritten | artifact/artifact.go:150-168 | In every run of interleaved Puts, the file at a digest's path and its bytes never change. |
| ArtifactStore.PublishedRight | artifact/artifact.go:120-171 | A path that began empty only ever holds bytes with that digest, of the size every successful Put reports. |
| ArtifactStore.SucceededHolds | artifact/artifact.go:140-171 | Whatever the store began with, after a Put that succeeded its path holds bytes with the digest and the size it reports. |
| ArtifactStore.PutAnswers | artifact/artifact.go:140-220 | In every run a Put that met no failed call and no ended context succeeds iff the file at its path has its digest and size, and otherwise reports a mismatch. |
| ArtifactStore.PutAdvances | artifact/artifact.go:140-171 | Each step of a Put after copying lowers a bound, whatever the others do, so the publish loop ends. |
| ArtifactStore.PutProceeds | artifact/artifact.go:140-171 | Until it returns a Put that has copied can take such a step without a failure. |
| ArtifactStore.OnePublisher | artifact/artifact.go:140-171 | If any Put of a digest succeeds, exactly one link did, and that Put alone reports that the artifact did not already exist. |
| ArtifactStore.LinksOnce | artifact/artifact.go:150-168 | The publish loop tries the link at most once; a validation after a lost link never finds the path empty. |
| ArtifactStore.NoFalseAlarm | artifact/artifact.go:173-220 | Validation never sees the file change, and finds a mismatch only with a bad initial file or a digest collision of different lengths. |
| DbStore.NoDatabaseLeaked | postgres/postgres.go:59-177 | Every database ever opened is being started, published, tracked in the closing slot, being closed by its failed Start, or closed; its Close is begun at most once. |
| DbStore.PublishedIsOpen | postgres/postgres.go:53-57 | The database DB returns is one whose Close has not begun, and the closing slot is then empty. |
| DbStore.NoCloseErrorLost | postgres/postgres.go:137-177 | The result of every Close that has ended, begun by a Stop or by a failed Start, has been returned by some call, is about to be returned by that Start, or is still in the slot; what a call's answer tells about a Close is its result. |
| DbStore.SlotKeepsClose | postgres/postgres.go:145-177 | A close that a Stop began is in the slot until it has ended and its result has been returned. |
| DbStore.StopReturnsResult | postgres/postgres.go:166-176 | A Stop that saw its close end returns the result of that close. |
| DbStore.StopUnpublishes | postgres/postgres.go:145-164 | Once a Stop has begun no database is published: one that was is in the slot and the Stop waits for it, as it does for a close already there. |
| DbStore.StartGoesOn | postgres/postgres.go:63-84 | A Start goes on to open a database iff none is published and no close is under way or has an error still to be returned; the slot is then empty. |
| DbStore.ClearedOnlyByReport | postgres/postgres.go:68-80 | The slot is emptied only by a call that returns the result of the close it held. |
| DbStore.WaitedCloseProceeds | postgres/postgres.go:158-176 | The close a Stop waits for has ended or can take a step. |
| DbStore.RefusesExactly | sqlite/sqlite.go:40-67 | For every configuration: a new postgres store refuses to start iff it has no DSN; a new sqlite store iff it is in memory, given or by default, with other than one connection, given or by default, or an idle timeout. |
| DbStore.Store.TestForStart | sqlite/sqlite.go:64-87 | The head of Start, each answer iff it is due: a refused configuration, already started, shutdown in progress, the previous error, which empties the slot, or go on. |
| DbStore.Store.TakeForStop | sqlite/sqlite.go:150-168 | The locked head of Stop: the published database moves to the closing slot, once; a close already there is the one to wait for. |
| DbStore.Store.ClearDone | sqlite/sqlite.go:170-177 | A Stop that saw its close end clears the slot iff it still holds that close. |
| ProcessTrace.SinksAgree | process/process.go:206-237 | At every moment each non-nil sink has seen the completed trace and at most the one event being delivered: started, chunks, at most one terminal event. |
| ProcessTrace.TraceComplete | process/process.go:121-237 | When the process is done, every non-nil sink has seen the same trace with exactly one terminal event, its chunks of each stream are exactly the bytes written, and the terminal event agrees with the result. |
| ProcessTrace.WaitsAgree | process/process.go:151-154 | Every Wait returns the same result, with the child's exit code, an error iff cmd.Wait returned one or the context had ended at the first look, and canceled iff it had at the second; the terminal event says the same. |
| ProcessTrace.DeliveryProceeds | process/process.go:225-237 | The emitter that is delivering can always deliver to the next sink or end. |
| ProcessSinks.Sinks.Emit | process/process.go:231-237 | One emission gives every non-nil sink the event once, at the end of what it has seen, and skips the nil ones. |
| ProcessEvents.KindMatches | process/process.go:170-204 | The terminal event agrees with the result; canceled without an error happens only if the context ends between the two looks after a clean exit. |
| ProcessEnv.SplitEnv | process/process.go:263-270 | Splits around the first equals sign, and fails iff there is none. |
| ProcessEnv.SplitUnique | process/process.go:263-270 | Joining a key without an equals sign and a value, then splitting, gives them back. |
| ProcessEnv.MergeEnv | process/process.go:239-261 | The loops produce the kept base items and the items of `extra` in some order of its keys; when `extra` is coherent, last-wins lookup in the result is `extra` over base. |
| ProcessEnv.MergesRightExactly | process/process.go:239-261 | Last-wins lookup in the merge is `extra` over base for every base, order and key iff `extra` is coherent. |
| ProcessEnv.MergeLookup | process/process.go:239-261 | The lookup law itself, for one base, order and key. |
| ProcessEnv.PlainKeysCoherent | process/process.go:257-259 | Keys without an equals sign are always coherent. |
| ProcessEnv.EqualsInKey | process/process.go:257-259 | The key `A=B` breaks the law. |
| ProcessEnv.KeptOrder | process/process.go:248-256 | Base items that are not replaced, among them all without an equals sign, stay in their order; exactly the replaced ones go. |
| Scrollback.Buffer.HandleProcessEvent | process/process.go:307-320 | Append-and-trim keeps the buffer equal to the last `limit` bytes of all chunk data seen. |
| Scrollback.Buffer.String | process/process.go:322-329 | Returns those bytes; none when the limit is not positive. |
| Scrollback.TailOfTail | process/process.go:313-319 | Trimming early loses nothing. |
| EventBus.SendsToOpen | eventbus/eventbus.go:54-85 | No send ever targets a closed channel. |
| EventBus.UnsubscribedForGood | eventbus/eventbus.go:76-84 | Once unsubscribed a channel is closed for good, off the list, and offered nothing more. |
| EventBus.FirstInFirstOut | eventbus/eventbus.go:57-71 | A buffer stays within its size, and received plus buffered events are exactly the accepted sends, in order. |
| EventBus.OfferedExactly | eventbus/eventbus.go:54-78 | While subscribed a channel is offered every later event of each publisher once and in order, so an event is missing only where the buffer was full. |
| EventBus.InPublishedOrder | eventbus/eventbus.go:54-63 | What a subscriber gets from one publisher is an order-preserving subsequence of what it published. |
| EventBus.OnePublisherOrder | eventbus/eventbus.go:54-63 | With one publisher, so is everything a subscriber gets. |
| EventBus.PublishNeverBlocks | eventbus/eventbus.go:57-62 | Every send left can be made at once, whatever the subscribers do. |
| EventBus.BufferSize | eventbus/eventbus.go:67-70 | A channel has room for the size asked for when that is positive, and for 32 events otherwise. |
| EventBus.Broker.Publish | eventbus/eventbus.go:54-63 | Each subscriber gets the event at the end of its buffer iff it has room, and nothing else changes. |
| EventBus.Broker.Subscribe | eventbus/eventbus.go:67-74 | Adds one new, empty, open channel. |
| EventBus.Broker.Unsubscribe | eventbus/eventbus.go:76-84 | The first call removes and closes the channel, later ones do nothing. |
| Jobs.Bookkeeping | examples/advanced-jobs/main.go:88-151 | Ids are exactly 1 to `nextID`, and cancel functions are kept for exactly the running jobs. |
| Jobs.WaitGroup | examples/advanced-jobs/main.go:67-151 | The wait group counts the unfinished goroutines, at least as many as there are cancel functions; at zero every job present has ended. |
| Jobs.EndedForGood | examples/advanced-jobs/main.go:131-151 | A status that is not running never changes again. |
| Jobs.EndedAsDue | examples/advanced-jobs/main.go:131-151 | A job that ended is completed iff its timer woke it, and canceled iff its context did. |
| Jobs.CanceledByContext | examples/advanced-jobs/main.go:67-141 | A job is canceled only if its context ended; once the contexts of all running jobs have ended, every waiting goroutine can go on. |
| Jobs.ListUnique | examples/advanced-jobs/main.go:119-129 | The listing does not depend on the order in which the map is ranged over. |
| Jobs.JobManager.List | examples/advanced-jobs/main.go:119-129 | Lists every job once with its status, strictly increasing by id. |
| Jobs.JobManager.StartJob | examples/advanced-jobs/main.go:88-106 | A new id, a running job and its cancel function; keeps ids 1 to `nextID` and cancel functions for exactly the running jobs. |
| Jobs.JobManager.CancelJob | examples/advanced-jobs/main.go:108-117 | Succeeds iff there is a running job with that id, and then ends its context and no other. |
| Jobs.JobManager.CancelAll | examples/advanced-jobs/main.go:68-72 | The first half of Stop ends the contexts of exactly the running jobs. |
| Jobs.JobManager.EndRun | examples/advanced-jobs/main.go:143-150 | Records the given status when the job exists, drops its cancel function, and keeps cancel functions for exactly the running jobs. |
| PrivateDir.Normalize | privatedir/privatedir.go:47-67 | Succeeds iff no segment is a dot or two dots and, trailing separators apart, no segment but a leading root is empty; the result is then filepath.Clean of the whole path. |
| PrivateDir.CleanFixpoint | privatedir/privatedir.go:63-65 | A path without dot segments is clean iff it has no empty segment besides its root. |
| PrivateDir.NormalizeIdempotent | privatedir/privatedir.go:47-67 | A normal form is accepted and is its own normal form. |
| PrivateDir.JoinSplit | privatedir/privatedir.go:48-57 | Joining the segments of a path gives the path back. |
| PrivateDir.SplitJoin | privatedir/privatedir.go:48-57 | Splitting joined segments gives them back. |

## Left out

- encoding/json itself, the typed decoding after validation, options and reflective nil checks: library behaviour behind the token contract.
- HTTP, sockets, named pipes, peer credentials, the Windows endpoint and its access lists: foreign calls; Serve, Shutdown and Close appear only as steps that may fail.
- The removal of the endpoint on listenLocal's error paths, which is not checked by identity.
- The bodies of the waits: sleeping, being woken and running again are steps, so the classes hold the critical sections and not a method that blocks.
- The steps of Put, of the copiers and of the collector are transitions on values and not also methods; CopyAndDigest, on which Put's copy step rests, is a method.
- The removal of a Put's temp file and the making of directories: they touch no name under which an artifact is stored.
- SHA-256, which is an arbitrary function of the bytes; modification times, which cannot change where contents cannot; the overflow of an int64 artifact size.
- Put's checks that the root is set and the source is a regular file: they precede every step on the store.
- Run's failure event when Start fails, WriterSink, and the signals sent by Stop and Kill: single calls without state.
- That cmd.Wait returns only after both copiers have ended, which is the exec package's promise and a hypothesis of the trace results.
- Windows volumes and separators in path normalisation, and the platform checks that follow it.
- Clocks, timers, log text, and error wording: arbitrary choices, or not modelled.
- In StartJob, the returned record, which is read after unlocking; the HTTP adapter and the command line of the example.
- The packages ai, logging, oidcverifier, embeddednats, httpserver, echoserver and processlock: wrappers over libraries and operating-system behaviour.
