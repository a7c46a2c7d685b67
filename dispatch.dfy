/** The processing queue as a state machine over values: the FIFO of waiting
    ids, the worker counter bounded by MAX_CONCURRENT_WORKERS, the executions in
    flight, and the record store. Each event is a function from state to
    state. An event after the admission groups several `await`s of one
    execution, all of which touch only that execution's record. The events:

    - Admit: the part of `processQueue` before its first `await`;
    - AddToQueue: `addToQueue`;
    - MarkProcessing: the record was found and its 'processing' status saved;
    - Finish: the execution ends (success write, error write, or a failed error
      write), frees its slot and makes one more admission attempt;
    - Upload: the upload handler creating one record per file and enqueuing it.

    The history fields (`enqueued`, `admitted`, `history`) only serve the
    specification; the dispatcher class keeps them as ghost state. */
module Dispatch {
  import opened Videos

  const MAX_CONCURRENT_WORKERS: nat := 2

  /** The message of the error thrown when the lookup finds no record. */
  const NOT_FOUND_MESSAGE: string := "Video not found"

  /** The message of the 400 answer to an upload without files. */
  const NO_FILES_MESSAGE: string := "No files uploaded"

  /** How far an admitted execution has got: waiting for the lookup (and the
      'processing' save), or waiting for the backend. */
  datatype Step = AwaitingLookup | AwaitingBackend

  /** One execution in flight: the id it shifted off the queue and its step. */
  datatype Job = Job(id: VideoId, step: Step)

  /** How an execution ends. `NotFound` is the lookup coming back empty;
      `Failure` is any thrown error (a failed lookup or save, a failed or
      non-2xx backend call) with its message; `Success` carries the backend's
      response fields. */
  datatype Outcome =
    | NotFound
    | Failure(message: string)
    | Success(score: int, transcript: string, breakdown: map<string, real>)

  /** The upload handler's answer: 400 with an error, or the number of files accepted. */
  datatype UploadResponse = NoFiles(error: string) | Accepted(count: nat)

  datatype State = State(
    queue: seq<VideoId>,
    activeWorkers: nat,
    jobs: map<nat, Job>,     // executions in flight, keyed by admission number
    store: map<VideoId, Video>,
    enqueued: seq<VideoId>,  // every id ever pushed, in order
    admitted: seq<VideoId>,  // every id ever shifted, in order
    history: map<VideoId, seq<Status>>)  // the statuses each record has held

  /** The first start: the in-memory queue and counter are empty
      (server/server.js:55-56), and so is the store. */
  function Initial(): State {
    State([], 0, map[], map[], [], [], map[])
  }

  /** How many times `id` was ever enqueued. */
  function Count(s: State, id: VideoId): nat {
    multiset(s.enqueued)[id]
  }

  /** The status histories a record enqueued at most once can have. */
  const Lifecycles: set<seq<Status>> :=
    {[Uploaded], [Uploaded, Processing], [Uploaded, Processing, Completed],
     [Uploaded, Processing, Error], [Uploaded, Error]}

  /** A record agrees with its status history: it started 'uploaded', never
      went back to it, holds its last status, and every 'completed' was
      preceded by a saved 'processing'. */
  predicate RecordOk(v: Video, h: seq<Status>) {
    && |h| > 0 && h[0] == Uploaded && h[|h| - 1] == v.status
    && WellFormed(v)
    && (forall i | 0 < i < |h| :: h[i] != Uploaded)
    && (forall i | 0 <= i < |h| && h[i] == Completed :: Processing in h[..i])
  }

  /** The worker counter counts the executions in flight and stays within the
      ceiling, each execution is numbered by its admission, and one waiting
      for the backend has a stored record. */
  predicate Slots(s: State) {
    && s.activeWorkers <= MAX_CONCURRENT_WORKERS
    && s.activeWorkers == |s.jobs|
    && (forall k | k in s.jobs :: k < |s.admitted|)
    && s.history.Keys == s.store.Keys
    && (forall k | k in s.jobs && s.jobs[k].step == AwaitingBackend :: s.jobs[k].id in s.store)
  }

  /** Execution number k runs the k-th id shifted off the queue. */
  predicate Numbered(s: State) {
    forall k | k in s.jobs :: k < |s.admitted| && s.jobs[k].id == s.admitted[k]
  }

  /** FIFO: the ids ever admitted, followed by the waiting ones, are exactly
      the ids ever enqueued, in the same order. */
  predicate Fifo(s: State) {
    s.enqueued == s.admitted + s.queue
  }

  predicate Bookkeeping(s: State) {
    Slots(s) && Numbered(s) && Fifo(s)
  }

  /** Every record agrees with its status history, and an execution waiting
      for the backend has had 'processing' saved on its record. */
  predicate Histories(s: State)
    requires Slots(s)
  {
    && (forall k | k in s.jobs && s.jobs[k].step == AwaitingBackend ::
          Processing in s.history[s.jobs[k].id])
    && (forall id | id in s.store :: RecordOk(s.store[id], s.history[id]))
  }

  /** A record enqueued at most once has a history in Lifecycles, and one
      never enqueued is still only 'uploaded'. */
  predicate SingleEnqueueAtRest(s: State)
    requires s.history.Keys == s.store.Keys
  {
    && (forall id | id in s.store && Count(s, id) <= 1 :: s.history[id] in Lifecycles)
    && (forall id | id in s.store && Count(s, id) == 0 :: s.history[id] == [Uploaded])
  }

  /** A record enqueued once is still 'uploaded' while it waits and until its
      lookup, and 'uploaded' then 'processing' while the backend runs. */
  predicate SingleEnqueueInFlight(s: State)
    requires s.history.Keys == s.store.Keys
  {
    && (forall i | 0 <= i < |s.queue| && s.queue[i] in s.store && Count(s, s.queue[i]) == 1 ::
          s.history[s.queue[i]] == [Uploaded])
    && (forall k | k in s.jobs && s.jobs[k].id in s.store && Count(s, s.jobs[k].id) == 1 ::
          s.history[s.jobs[k].id] ==
            if s.jobs[k].step == AwaitingLookup then [Uploaded] else [Uploaded, Processing])
  }

  /** A record enqueued at most once holds a score or a transcript only once
      its history reached 'completed': only the success write sets them. */
  predicate ResultsOnceCompleted(s: State)
    requires s.history.Keys == s.store.Keys
  {
    forall id | id in s.store && Count(s, id) <= 1 && Completed !in s.history[id] ::
      s.store[id].score.None? && s.store[id].transcript.None?
  }

  /** The bookkeeping every reachable state keeps, between events and inside
      the one synchronous segment that frees a slot before re-admitting. */
  predicate Consistent(s: State) {
    && Bookkeeping(s)
    && Histories(s)
    && SingleEnqueueAtRest(s)
    && SingleEnqueueInFlight(s)
    && ResultsOnceCompleted(s)
  }

  /** Between events no slot is idle while work waits. */
  predicate WorkConserving(s: State) {
    |s.queue| > 0 ==> s.activeWorkers == MAX_CONCURRENT_WORKERS
  }

  predicate Inv(s: State) {
    Consistent(s) && WorkConserving(s)
  }

  // ---------------------------------------------------------------- events

  /** `processQueue` up to its first await: nothing happens when all slots are
      busy or the queue is empty; otherwise the head is shifted off and a slot
      is taken. */
  function Admit(s: State): (r: State)
    ensures r.admitted + r.queue == s.admitted + s.queue
    ensures r == s <==> s.activeWorkers >= MAX_CONCURRENT_WORKERS || s.queue == []
    ensures r != s ==>
      && r.admitted == s.admitted + [s.queue[0]] && r.queue == s.queue[1..]
      && r.activeWorkers == s.activeWorkers + 1
      && r.jobs == s.jobs[|s.admitted| := Job(s.queue[0], AwaitingLookup)]
    ensures r.store == s.store && r.history == s.history
    ensures r.enqueued == s.enqueued
  {
    if s.activeWorkers >= MAX_CONCURRENT_WORKERS || |s.queue| == 0 then s
    else
      s.(activeWorkers := s.activeWorkers + 1,
         queue := s.queue[1..],
         jobs := s.jobs[|s.admitted| := Job(s.queue[0], AwaitingLookup)],
         admitted := s.admitted + [s.queue[0]])
  }

  /** `addToQueue`: push at the tail without de-duplication, then one attempt. */
  function AddToQueue(s: State, id: VideoId): (r: State)
    ensures r.enqueued == s.enqueued + [id]
    ensures r.admitted + r.queue == s.admitted + s.queue + [id]
    ensures |s.admitted| <= |r.admitted| <= |s.admitted| + 1
    ensures r.store == s.store && r.history == s.history
  {
    Admit(Push(s, id))
  }

  /** `queue.push(id)`. */
  function Push(s: State, id: VideoId): (r: State)
    ensures r.queue == s.queue + [id] && r.enqueued == s.enqueued + [id]
    ensures r.activeWorkers == s.activeWorkers && r.jobs == s.jobs && r.admitted == s.admitted
    ensures r.store == s.store && r.history == s.history
  {
    s.(queue := s.queue + [id], enqueued := s.enqueued + [id])
  }

  /** The lookup found the record and its 'processing' status was saved. */
  function MarkProcessing(s: State, k: nat): (r: State)
    requires k in s.jobs && s.jobs[k].step == AwaitingLookup && s.jobs[k].id in s.store
    requires s.history.Keys == s.store.Keys
    ensures r.store.Keys == s.store.Keys
    ensures r.store[s.jobs[k].id] == MarkedProcessing(s.store[s.jobs[k].id])
    ensures r.store[s.jobs[k].id].status == Processing
    ensures forall id | id in s.store && id != s.jobs[k].id :: r.store[id] == s.store[id]
    ensures r.queue == s.queue && r.activeWorkers == s.activeWorkers && r.jobs.Keys == s.jobs.Keys
    ensures r.enqueued == s.enqueued && r.admitted == s.admitted
    ensures r.history.Keys == s.history.Keys
    ensures r.history[s.jobs[k].id] == s.history[s.jobs[k].id] + [Processing]
    ensures forall x | x in s.history && x != s.jobs[k].id :: r.history[x] == s.history[x]
    ensures r.jobs[k] == Job(s.jobs[k].id, AwaitingBackend)
    ensures forall j | j in s.jobs && j != k :: r.jobs[j] == s.jobs[j]
  {
    var id := s.jobs[k].id;
    s.(store := s.store[id := MarkedProcessing(s.store[id])],
       history := s.history[id := s.history[id] + [Processing]],
       jobs := s.jobs[k := Job(id, AwaitingBackend)])
  }

  /** Which outcomes an execution can reach from where it stands: the lookup
      can only come back empty before it was made and when the record is
      absent, the backend can only answer after 'processing' was saved, and an
      error can be thrown at any step. */
  predicate Feasible(s: State, k: nat, outcome: Outcome)
    requires k in s.jobs
  {
    match outcome
    case NotFound => s.jobs[k].step == AwaitingLookup && s.jobs[k].id !in s.store
    case Success(_, _, _) => s.jobs[k].step == AwaitingBackend
    case Failure(_) => true
  }

  /** `Video.findByIdAndUpdate(id, {status: 'error', details: {error}})`, which
      updates nothing when no record has that id and whose own failure is
      swallowed. */
  function WriteError(s: State, id: VideoId, message: string, writeFails: bool): (r: State)
    requires s.history.Keys == s.store.Keys
    ensures r.store.Keys == s.store.Keys && r.history.Keys == s.history.Keys
    ensures writeFails || id !in s.store ==> r == s
    ensures !writeFails && id in s.store ==>
      r.store[id] == Errored(s.store[id], message) && r.history[id] == s.history[id] + [Error]
    ensures forall x | x in s.store && x != id :: r.store[x] == s.store[x]
    ensures forall x | x in s.history && x != id :: r.history[x] == s.history[x]
  {
    if writeFails || id !in s.store then s
    else
      s.(store := s.store[id := Errored(s.store[id], message)],
         history := s.history[id := s.history[id] + [Error]])
  }

  /** The rest of an execution: the success write or the error write, then the
      `finally` block, which frees the slot and makes one admission attempt. */
  function Finish(s: State, k: nat, outcome: Outcome, errorWriteFails: bool): (r: State)
    requires Slots(s) && k in s.jobs && Feasible(s, k, outcome)
    ensures k !in r.jobs
    ensures forall j | j in s.jobs && j != k :: j in r.jobs && r.jobs[j] == s.jobs[j]
    ensures |r.admitted| == |s.admitted| + (if s.queue == [] then 0 else 1)
    ensures r.activeWorkers == s.activeWorkers - (if s.queue == [] then 1 else 0)
    ensures r.store.Keys == s.store.Keys
    ensures forall x | x in s.store && x != s.jobs[k].id :: r.store[x] == s.store[x]
    ensures outcome.Success? ==>
      var v := r.store[s.jobs[k].id];
      v.status == Completed && v.score == Some(outcome.score) &&
      v.transcript == Some(outcome.transcript) && v.details == Some(Breakdown(outcome.breakdown)) &&
      SameUpload(v, s.store[s.jobs[k].id])
    ensures outcome.Failure? && !errorWriteFails && s.jobs[k].id in s.store ==>
      var v := r.store[s.jobs[k].id];
      var old_v := s.store[s.jobs[k].id];
      v.status == Error && v.details == Some(ErrorInfo(outcome.message)) &&
      v.score == old_v.score && v.transcript == old_v.transcript && SameUpload(v, old_v)
    ensures outcome.NotFound? ==> r.store == s.store
    ensures !outcome.Success? && errorWriteFails ==> r.store == s.store
  {
    Admit(Release(Written(s, k, outcome, errorWriteFails), k))
  }

  /** The write at the end of an execution: the success write for `Success`,
      the error write otherwise. */
  function Written(s: State, k: nat, outcome: Outcome, errorWriteFails: bool): (r: State)
    requires Slots(s) && k in s.jobs && Feasible(s, k, outcome)
    ensures r.jobs == s.jobs && r.activeWorkers == s.activeWorkers && r.queue == s.queue
    ensures r.admitted == s.admitted && r.enqueued == s.enqueued
    ensures r.store.Keys == s.store.Keys && r.history.Keys == s.history.Keys
    ensures forall x | x in s.history && x != s.jobs[k].id :: r.history[x] == s.history[x]
    ensures forall x | x in s.store && x != s.jobs[k].id :: r.store[x] == s.store[x]
    ensures outcome.Success? ==>
      var id := s.jobs[k].id;
      && r.store[id] == CompletedWith(s.store[id], outcome.score, outcome.transcript, outcome.breakdown)
      && r.history[id] == s.history[id] + [Completed]
    ensures outcome.Failure? && !errorWriteFails && s.jobs[k].id in s.store ==>
      var id := s.jobs[k].id;
      && r.store[id] == Errored(s.store[id], outcome.message)
      && r.history[id] == s.history[id] + [Error]
    ensures outcome.NotFound? || (outcome.Failure? && errorWriteFails) ==> r == s
  {
    var id := s.jobs[k].id;
    match outcome
    case Success(score, transcript, breakdown) =>
      s.(store := s.store[id := CompletedWith(s.store[id], score, transcript, breakdown)],
         history := s.history[id := s.history[id] + [Completed]])
    case NotFound => WriteError(s, id, NOT_FOUND_MESSAGE, errorWriteFails)
    case Failure(message) => WriteError(s, id, message, errorWriteFails)
  }

  /** The `finally` block's decrement: the execution gives its slot back. */
  function Release(s: State, k: nat): (r: State)
    requires s.activeWorkers == |s.jobs| && k in s.jobs
    ensures r.activeWorkers == |r.jobs| == s.activeWorkers - 1
    ensures r.jobs.Keys == s.jobs.Keys - {k}
    ensures forall j | j in r.jobs :: r.jobs[j] == s.jobs[j]
    ensures r.queue == s.queue && r.admitted == s.admitted && r.enqueued == s.enqueued
    ensures r.store == s.store && r.history == s.history
  {
    assert (s.jobs - {k}).Keys == s.jobs.Keys - {k};
    s.(activeWorkers := s.activeWorkers - 1, jobs := s.jobs - {k})
  }

  /** An id the store may give a new record: no record has it and it was
      never enqueued. */
  predicate FreshFor(s: State, id: VideoId) {
    id !in s.store && id !in s.enqueued
  }

  /** No id occurs twice. */
  predicate Distinct(ids: seq<VideoId>) {
    forall i, j | 0 <= i < j < |ids| :: ids[i] != ids[j]
  }

  /** Ids for a batch of new records: fresh and pairwise distinct. */
  predicate FreshBatch(s: State, ids: seq<VideoId>) {
    (forall i | 0 <= i < |ids| :: FreshFor(s, ids[i])) && Distinct(ids)
  }

  /** `new Video(...)` followed by `save()`: a new 'uploaded' record. */
  function Created(s: State, id: VideoId, f: UploadedFile, now: int): (r: State)
    ensures r.store == s.store[id := NewVideo(f, now)] && r.history == s.history[id := [Uploaded]]
    ensures r.queue == s.queue && r.activeWorkers == s.activeWorkers && r.jobs == s.jobs
    ensures r.admitted == s.admitted && r.enqueued == s.enqueued
  {
    s.(store := s.store[id := NewVideo(f, now)], history := s.history[id := [Uploaded]])
  }

  /** The upload handler's per-file work: save the new record, then enqueue its id. */
  function UploadOne(s: State, f: UploadedFile, id: VideoId, now: int): (r: State)
    ensures r.store == s.store[id := NewVideo(f, now)] && r.history == s.history[id := [Uploaded]]
    ensures r.store.Keys == s.store.Keys + {id} && r.store[id].status == Uploaded
    ensures r.enqueued == s.enqueued + [id]
    ensures r.admitted + r.queue == s.admitted + s.queue + [id]
  {
    AddToQueue(Created(s, id, f, now), id)
  }

  /** The per-file work over a whole batch, in file order. */
  function UploadAll(s: State, files: seq<UploadedFile>, ids: seq<VideoId>, now: int): (r: State)
    requires |ids| == |files| && Distinct(ids)
    ensures forall x :: x in r.store <==> x in s.store || x in ids
    ensures forall x | x in s.store && x !in ids :: r.store[x] == s.store[x]
    ensures forall i | 0 <= i < |ids| :: r.store[ids[i]] == NewVideo(files[i], now)
    ensures r.enqueued == s.enqueued + ids
    decreases |files|
  {
    if files == [] then s
    else
      var n := |files| - 1;
      DistinctPrefix(ids, n);
      var m := UploadAll(s, files[..n], ids[..n], now);
      var r := UploadOne(m, files[n], ids[n], now);
      UploadAllExtend(s, m, r, files, ids, n, now);
      r
  }

  /** A prefix of a sequence without repetitions has none either. */
  lemma DistinctPrefix(ids: seq<VideoId>, n: nat)
    requires Distinct(ids) && n <= |ids|
    ensures Distinct(ids[..n])
  {
    forall i, j | 0 <= i < j < n ensures ids[..n][i] != ids[..n][j] {
      assert ids[..n][i] == ids[i] && ids[..n][j] == ids[j];
    }
  }

  /** The last file of a batch: what the batch minus that file stored, plus
      the new record under the last id. */
  lemma UploadAllExtend(s: State, m: State, r: State, files: seq<UploadedFile>, ids: seq<VideoId>, n: nat, now: int)
    requires |ids| == |files| == n + 1 && Distinct(ids)
    requires forall x :: x in m.store <==> x in s.store || x in ids[..n]
    requires forall x | x in s.store && x !in ids[..n] :: m.store[x] == s.store[x]
    requires forall i | 0 <= i < n :: m.store[ids[..n][i]] == NewVideo(files[..n][i], now)
    requires m.enqueued == s.enqueued + ids[..n]
    requires r.store == m.store[ids[n] := NewVideo(files[n], now)]
    requires r.enqueued == m.enqueued + [ids[n]]
    ensures forall x :: x in r.store <==> x in s.store || x in ids
    ensures forall x | x in s.store && x !in ids :: r.store[x] == s.store[x]
    ensures forall i | 0 <= i < |ids| :: r.store[ids[i]] == NewVideo(files[i], now)
    ensures r.enqueued == s.enqueued + ids
  {
    assert ids == ids[..n] + [ids[n]];
    forall i | 0 <= i < |ids| ensures r.store[ids[i]] == NewVideo(files[i], now) {
      if i < n {
        assert ids[..n][i] == ids[i] && files[..n][i] == files[i] && ids[i] != ids[n];
      }
    }
  }

  /** The upload handler: 400 without files, otherwise every file is stored
      under its id and enqueued. */
  function Upload(s: State, files: seq<UploadedFile>, ids: seq<VideoId>, now: int): (r: (State, UploadResponse))
    requires |ids| == |files| && Distinct(ids)
    ensures files == [] ==> r == (s, NoFiles(NO_FILES_MESSAGE))
    ensures files != [] ==> r == (UploadAll(s, files, ids, now), Accepted(|files|))
  {
    if |files| == 0 then (s, NoFiles(NO_FILES_MESSAGE))
    else (UploadAll(s, files, ids, now), Accepted(|files|))
  }
}
