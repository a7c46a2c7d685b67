# VideoScout-AI processing queue, in Dafny

VideoScout-AI's server accepts uploaded videos, stores one record per video,
and hands each record to a scoring backend, at most two at a time. This
project models that processing queue in `server/server.js`:

- the module-level `queue` array;
- the `activeWorkers` counter;
- the ceiling `MAX_CONCURRENT_WORKERS = 2`;
- `processQueue`;
- `addToQueue`;
- the status field of `VideoSchema`;
- the part of the `/api/upload` handler that creates a record per file and enqueues it.

Node runs each synchronous stretch of code without interruption. The
admission is one such stretch: the ceiling test, the increment and the `shift`
(server/server.js:60-63) have no `await` between them. After it, the model
groups the rest of an execution into two events, each spanning several
`await`s:

- **MarkProcessing**: the lookup (line 66) and the 'processing' save (line 70);
- **Finish**: the backend call (line 76), the success write (line 86) or the
  error write (line 93, whose own failure is swallowed), then the `finally`
  block, which decrements the counter and calls `processQueue` again
  (lines 97-99).

Grouping is sound for a record enqueued once. Every write of an execution
touches only that execution's record, and no other execution holds that
record. Other executions can interleave between the awaits of one group, but
they change nothing the group reads or writes, except the queue and the
counter, which the group does not touch before its `finally`.

The project has three modules:

- `Videos` (`videos.dfy`) holds the record and the field writes the pipeline makes.
- `Dispatch` (`dispatch.dfy`) is the queue as a state machine over values: a
  `State`, one function per event, and the invariant `Inv`.
- `DispatchProofs` (`dispatch_proofs.dfy`) proves that every event keeps `Inv`.
  It also proves what happens to a new id and to a freed slot.

`Server.Dispatcher` (`dispatcher.dfy`) is the object the source mutates. Its
fields are `queue`, `activeWorkers`, the executions in flight and the store.
It also keeps ghost history: the ids ever enqueued, the ids ever admitted, and
each record's status history. Every method is proved to move the object
exactly as the matching `Dispatch` function says. The constructor,
`AddToQueue`, `MarkProcessing`, `Finish` and `Upload` also keep `Valid()`,
which is `Inv` of the current state. The other methods are the steps these
five are built from.

`Inv` states the following, about a server that started with an empty store
(see "## Left out" for a restart):

- The counter stays within 0..2 and equals the number of executions in flight.
- Execution number k runs the k-th id shifted off the queue.
- FIFO: the ids admitted so far, followed by the waiting ids, are exactly the
  ids ever enqueued, in order.
- No slot is idle while ids wait: a non-empty queue means the counter is at 2.
- Every record agrees with its status history. The history starts
  'uploaded', never returns to it, and ends in the record's current status.
  Each 'completed' comes after a saved 'processing'.
- An execution waiting for the backend has 'processing' saved on its record.
- A record enqueued at most once has one of these histories:
  - uploaded;
  - uploaded → processing;
  - uploaded → processing → completed;
  - uploaded → processing → error;
  - uploaded → error.

  While it waits, and until its lookup, it is only 'uploaded'.
- A record enqueued at most once holds no score and no transcript until its
  history reaches 'completed'. Only the success write sets them.

The backend call and the database calls are not modelled as computations.
How an execution ends is a parameter, `Outcome`:

- `NotFound`: the lookup came back empty;
- `Failure(message)`: any thrown error;
- `Success(score, transcript, breakdown)`.

A flag says whether the error write itself fails. `Feasible` rules out
impossible endings:

- an empty lookup can only happen before the lookup, and only for an absent record;
- a backend answer can only arrive after 'processing' was saved.

Two details of the writes:

- A new record's status is `'uploaded'` (server/server.js:29).
- The error write sets only `status` and `details`. It keeps any earlier
  `score` and `transcript` (server/server.js:93). A record can hold such a
  result only if its id was enqueued more than once. For a record enqueued
  once, an error ending leaves no score and no transcript
  (`DispatchProofs.ErrorLeavesNoResult`).

## Model

| member | source | states |
|---|---|---|
| Videos.NewVideo | server/server.js:25-34 | a new record holds the file's original name, stored filename and path, status 'uploaded' (the schema default), no score, transcript or details, and the creation time |
| Videos.MarkedProcessing | server/server.js:69-70 | the pre-backend save changes the status to 'processing' and nothing else |
| Videos.CompletedWith | server/server.js:82-86 | the success write sets status 'completed' and the backend's score, transcript and details, and keeps name, filename, path and creation time |
| Videos.Errored | server/server.js:93 | the error write sets status 'error' and details {error: message}, and leaves score, transcript, name, filename, path and creation time untouched |
| Dispatch.Admit | server/server.js:59-63 | nothing changes exactly when the counter is at the ceiling or the queue is empty; otherwise exactly the head leaves the queue, the rest keeps its order, the counter grows by one and one execution starts on that head; the sequence admitted-then-waiting is unchanged |
| Dispatch.AddToQueue | server/server.js:103-106 | the id is appended at the tail without de-duplication, earlier entries stay in order, and at most one id is admitted |
| Dispatch.Push | server/server.js:104 | the id is appended to the tail of the queue and of the enqueue log; the counter, the executions, the admitted ids, the store and the histories are unchanged |
| Dispatch.MarkProcessing | server/server.js:66-70 | the found record becomes exactly its 'processing' version (status 'processing', score, transcript, details and upload fields kept), its history gains 'processing', its execution moves on to the backend call, and every other record, every other history and execution, the queue, the counter and the logs are unchanged |
| Dispatch.WriteError | server/server.js:92-96 | an error write that fails, or that targets a missing record, changes nothing; otherwise that record becomes 'error' with {error: message}, and no record is created or removed |
| Dispatch.Written | server/server.js:82-96 | on success the execution's record becomes its completed version with the backend's score, transcript and details, and its history gains 'completed'; on a failure with a working error write the record becomes its 'error' version with the message, and its history gains 'error'; an empty lookup or a failed error write changes nothing; every other record and history, the queue, the counter, the executions and the logs are unchanged |
| Dispatch.Release | server/server.js:97-98 | the `finally` decrement removes exactly the ending execution and lowers the counter by one; the other executions, the queue, the store, the histories and the logs are unchanged |
| Dispatch.Finish | server/server.js:65-100 | whatever the outcome, the execution releases its slot once and makes one admission attempt: the counter drops by one if nothing waits, else an id is admitted; on success the record is 'completed' with the backend's fields; on a failure with a working error write it is 'error' with the thrown message, score and transcript kept; a lookup that finds nothing writes nothing, and a failed error write leaves the store as it was; no record is created and other records are unchanged |
| Dispatch.Created | server/server.js:117-122 | the store gains the new 'uploaded' record built from the file under its id, with history 'uploaded'; every other record and history, the queue, the counter, the executions and the logs are unchanged |
| Dispatch.UploadOne | server/server.js:117-123 | the store gains exactly the new 'uploaded' record built from the file, every other record is kept, the id is appended to the enqueue log, and the ids admitted-then-waiting gain it at the end |
| Dispatch.UploadAll | server/server.js:116-125 | for distinct ids, after the batch the store holds exactly the earlier records and the new ids, each earlier record not in the batch is kept, the i-th id holds the record built from the i-th file, and the ids are enqueued in file order |
| Dispatch.Upload | server/server.js:111-127 | a request without files is answered with 400 'No files uploaded' and changes nothing; otherwise the state is that of the whole batch and the answer counts the files |
| DispatchProofs.InitialInv | server/server.js:55-57 | the first-start state (empty queue, counter 0, no stored record) satisfies the invariant |
| DispatchProofs.AdmitKeepsConsistent | server/server.js:59-63 | an admission keeps the counter within 0..2 and equal to the executions in flight, keeps FIFO order and keeps every record's history valid |
| DispatchProofs.AddToQueueKeepsInv | server/server.js:103-106 | `addToQueue` keeps the invariant, including that a non-empty queue means both slots are busy |
| DispatchProofs.AddToQueueStartsOrWaits | server/server.js:103-106 | between events, a new id starts at once when a slot is free and otherwise waits at the tail behind every earlier id |
| DispatchProofs.MarkProcessingKeepsInv | server/server.js:66-70 | saving 'processing' keeps the invariant |
| DispatchProofs.FinishKeepsInv | server/server.js:65-100 | the end of an execution keeps the invariant, whatever the outcome and whether or not the error write fails |
| DispatchProofs.FinishStartsHead | server/server.js:97-100 | while ids wait, the slot an ending execution frees goes at once to the oldest waiting id, and the counter stays at 2 |
| DispatchProofs.WrittenLifecycle | server/server.js:82-96 | for a record enqueued once, the final write leaves a history that is one of uploaded → processing → completed, uploaded → processing → error, or uploaded → error |
| DispatchProofs.NoResultUnlessCompleted | server/server.js:82-93 | between events, a record enqueued at most once that is not 'completed' has no score and no transcript |
| DispatchProofs.ErrorLeavesNoResult | server/server.js:90-100 | an execution of a record enqueued once that ends with a thrown error and a working error write leaves that record 'error', with details {error: message}, and with no score and no transcript |
| DispatchProofs.SingleEnqueueIsUnique | server/server.js:59-106 | an id enqueued once, once shifted, is held by exactly one execution and no longer waits in the queue |
| DispatchProofs.CreatedKeepsInv | server/server.js:117-122 | saving a new record under a fresh id keeps the invariant |
| DispatchProofs.UploadOneKeepsInv | server/server.js:117-123 | saving and then enqueuing one file under a fresh id keeps the invariant |
| DispatchProofs.UploadAllKeepsInv | server/server.js:116-125 | a whole batch under fresh, distinct ids keeps the invariant |
| Server.Dispatcher.constructor | server/server.js:55-57 | at its first start the server has an empty queue, counter 0 and no stored record, and the invariant holds |
| Server.Dispatcher.ProcessQueue | server/server.js:59-63 | the object moves exactly as `Dispatch.Admit` says |
| Server.Dispatcher.Enqueue | server/server.js:103-106 | `push` then one admission attempt move the object exactly as `Dispatch.AddToQueue` says |
| Server.Dispatcher.AddToQueue | server/server.js:103-106 | as `Enqueue`, and the invariant is kept |
| Server.Dispatcher.SaveProcessing | server/server.js:69-70 | the object moves exactly as `Dispatch.MarkProcessing` says |
| Server.Dispatcher.MarkProcessing | server/server.js:66-70 | as `SaveProcessing`, and the invariant is kept |
| Server.Dispatcher.WriteError | server/server.js:92-96 | the store moves exactly as `Dispatch.WriteError` says |
| Server.Dispatcher.WriteOutcome | server/server.js:82-96 | the store moves exactly as `Dispatch.Written` says |
| Server.Dispatcher.Settle | server/server.js:82-100 | write, decrement and next admission move the object exactly as `Dispatch.Finish` says |
| Server.Dispatcher.Finish | server/server.js:65-100 | as `Settle`, and the invariant is kept |
| Server.Dispatcher.UploadOne | server/server.js:117-123 | the object moves exactly as `Dispatch.UploadOne` says |
| Server.Dispatcher.UploadEach | server/server.js:116-125 | the loop over the files moves the object exactly as `Dispatch.UploadAll` says |
| Server.Dispatcher.Upload | server/server.js:111-127 | the object and the answer are exactly those of `Dispatch.Upload`, and the invariant is kept |

## Left out

- Server.Dispatcher.constructor: the model starts from an empty store, while the source's MongoDB store (server/server.js:18) outlives the process; only `queue` and `activeWorkers` start empty (lines 55-56). After a restart, records of earlier runs stay in the store with whatever status they had, possibly 'uploaded' or 'processing', and nothing enqueues them again. The record clauses of `Inv` (histories, lifecycles, no result before 'completed') therefore cover only records created since the start the model begins from.
- Express routing, CORS and JSON middleware, the MongoDB connection, and the list, rename, delete and clear routes (server/server.js:13-22, 135-188). These are HTTP and database plumbing. The store is an abstract map.
- Multer's disk storage, the upload directory, the `Date.now()` filename and the 100-file limit (server/server.js:39-52, 109). These are file I/O and a clock. The uploaded files and the creation time `now` are parameters.
- `path.resolve` and the `axios.post` to the scoring service (server/server.js:74-79). These are a library call and a network call. Their result is the `Outcome` parameter, and the request body is not modelled.
- The launch of explorer.exe, the Python scoring service, the React client, and console logging. These are outside the queue.
- Record ids: MongoDB's ObjectIds are numbers here, and the caller of `Upload` supplies them. `Upload` requires them to be fresh, that is, absent from the store and never enqueued, and distinct from each other.
- Dispatch.Upload: a failed save of a new record, and the 500 answer that follows it (server/server.js:122, 129-131), are not modelled. Every save in the upload handler succeeds.
- Dispatch.UploadAll: one clock reading `now` stamps every record of a batch. The source takes one `Date.now()` per `new Video` (server/server.js:33, 117). All of them fall in the same synchronous stretch of `files.map`, so they differ by at most the time that stretch takes.
- Dispatch.UploadAll: the source enqueues each id when its own save completes, so the ids of one batch can enter the queue in any order. The model enqueues them in file order. It also runs each file's save-and-enqueue to completion before the next file.
- Videos.CompletedWith: the score is an unbounded integer and the breakdown is a map from names to reals. The source stores whatever JSON numbers and object the backend returns.
- Dispatch.Finish: the error write fails only as a whole. A partial database write, timeouts and retries are not modelled.
- Dispatch.MarkProcessing and Dispatch.Finish apply their writes to the record as it stands when the event happens. The source's `video.save()` (server/server.js:70, 86) writes the fields changed on the document read at line 66. For an id enqueued twice, two executions can hold stale copies of the same record, and the second save can overwrite fields the first one wrote. The model does not capture this. For such ids, the `RecordOk` and `WellFormed` parts of `Inv` are properties of the model only.
- The lifecycle (the five histories) is proved only for records enqueued at most once. An id pushed twice through `addToQueue` can legitimately be processed twice, and its history can then revisit 'processing'. For such records only the general history rules of `Inv` are proved.
