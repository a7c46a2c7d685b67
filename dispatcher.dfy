/** The server's processing queue as the object it is in the source: the
    module-level `queue` array and `activeWorkers` counter, the executions they
    started, and the store those executions write to. Each method is proved to
    do what the matching function of `Dispatch` describes; `Valid()` is
    `Dispatch.Inv` of the current state, which the constructor, `AddToQueue`,
    `MarkProcessing`, `Finish` and `Upload` keep. */
module Server {
  import opened Videos
  import opened Dispatch
  import DispatchProofs

  class Dispatcher {
    var queue: seq<VideoId>
    var activeWorkers: nat
    /** The executions in flight, keyed by admission number. */
    var jobs: map<nat, Job>
    /** How many ids have been shifted off the queue so far. */
    var started: nat
    var store: map<VideoId, Video>

    ghost var enqueued: seq<VideoId>
    ghost var admitted: seq<VideoId>
    ghost var history: map<VideoId, seq<Status>>

    /** The state as a value. */
    ghost function Model(): State
      reads this
    {
      State(queue, activeWorkers, jobs, store, enqueued, admitted, history)
    }

    ghost predicate Valid()
      reads this
    {
      Inv(Model()) && started == |admitted|
    }

    /** The state at the first start of the server: nothing queued, no worker
        busy, and no record stored yet. Records a persistent store keeps from
        earlier runs are not part of this state. */
    constructor ()
      ensures Valid() && Model() == Initial()
    {
      queue, activeWorkers, jobs, started := [], 0, map[], 0;
      store := map[];
      enqueued, admitted, history := [], [], map[];
      DispatchProofs.InitialInv();
    }

    /** `processQueue` up to its first await. */
    method ProcessQueue()
      requires started == |admitted|
      modifies this
      ensures started == |admitted|
      ensures Model() == Admit(old(Model()))
    {
      if activeWorkers >= MAX_CONCURRENT_WORKERS || |queue| == 0 {
        return;
      }
      activeWorkers := activeWorkers + 1;
      var videoId := queue[0];
      queue := queue[1..];
      jobs := jobs[started := Job(videoId, AwaitingLookup)];
      admitted := admitted + [videoId];
      started := started + 1;
    }

    /** `queue.push` followed by one admission attempt. */
    method Enqueue(videoId: VideoId)
      requires started == |admitted|
      modifies this
      ensures started == |admitted|
      ensures Model() == Dispatch.AddToQueue(old(Model()), videoId)
    {
      queue := queue + [videoId];
      enqueued := enqueued + [videoId];
      ProcessQueue();
    }

    /** `addToQueue`: push, then one admission attempt. */
    method AddToQueue(videoId: VideoId)
      requires Valid()
      modifies this
      ensures Valid()
      ensures Model() == Dispatch.AddToQueue(old(Model()), videoId)
    {
      DispatchProofs.AddToQueueKeepsInv(Model(), videoId);
      Enqueue(videoId);
    }

    /** Execution k found its record and saved the 'processing' status. */
    method MarkProcessing(k: nat)
      requires Valid() && k in jobs && jobs[k].step == AwaitingLookup && jobs[k].id in store
      modifies this
      ensures Valid()
      ensures Model() == Dispatch.MarkProcessing(old(Model()), k)
    {
      DispatchProofs.MarkProcessingKeepsInv(Model(), k);
      SaveProcessing(k);
    }

    /** `video.status = 'processing'; await video.save()`. */
    method SaveProcessing(k: nat)
      requires k in jobs && jobs[k].step == AwaitingLookup && jobs[k].id in store
      requires history.Keys == store.Keys
      modifies this`store, this`history, this`jobs
      ensures Model() == Dispatch.MarkProcessing(old(Model()), k)
    {
      var videoId := jobs[k].id;
      store := store[videoId := MarkedProcessing(store[videoId])];
      history := history[videoId := history[videoId] + [Processing]];
      jobs := jobs[k := Job(videoId, AwaitingBackend)];
    }

    /** The error write; a failure of the write itself is only logged. */
    method WriteError(videoId: VideoId, message: string, writeFails: bool)
      requires history.Keys == store.Keys
      modifies this`store, this`history
      ensures Model() == Dispatch.WriteError(old(Model()), videoId, message, writeFails)
    {
      if writeFails || videoId !in store {
        return;
      }
      store := store[videoId := Errored(store[videoId], message)];
      history := history[videoId := history[videoId] + [Error]];
    }

    /** The write at the end of execution k: the success write, or the error write. */
    method WriteOutcome(k: nat, outcome: Outcome, errorWriteFails: bool)
      requires Slots(Model()) && k in jobs && Feasible(Model(), k, outcome)
      modifies this`store, this`history
      ensures Model() == Written(old(Model()), k, outcome, errorWriteFails)
    {
      var videoId := jobs[k].id;
      match outcome {
        case Success(score, transcript, breakdown) =>
          store := store[videoId := CompletedWith(store[videoId], score, transcript, breakdown)];
          history := history[videoId := history[videoId] + [Completed]];
        case NotFound =>
          WriteError(videoId, NOT_FOUND_MESSAGE, errorWriteFails);
        case Failure(message) =>
          WriteError(videoId, message, errorWriteFails);
      }
    }

    /** Execution k ends with `outcome`: the result or the error is written,
        then the `finally` block frees the slot and tries to admit the next id. */
    method Finish(k: nat, outcome: Outcome, errorWriteFails: bool)
      requires Valid() && k in jobs && Feasible(Model(), k, outcome)
      modifies this
      ensures Valid()
      ensures Model() == Dispatch.Finish(old(Model()), k, outcome, errorWriteFails)
    {
      DispatchProofs.FinishKeepsInv(Model(), k, outcome, errorWriteFails);
      Settle(k, outcome, errorWriteFails);
    }

    /** The write, the decrement and the next admission attempt. */
    method Settle(k: nat, outcome: Outcome, errorWriteFails: bool)
      requires Slots(Model()) && k in jobs && Feasible(Model(), k, outcome)
      requires started == |admitted|
      modifies this
      ensures started == |admitted|
      ensures Model() == Dispatch.Finish(old(Model()), k, outcome, errorWriteFails)
    {
      WriteOutcome(k, outcome, errorWriteFails);
      ghost var written := Model();
      activeWorkers := activeWorkers - 1;
      jobs := jobs - {k};
      assert Model() == Release(written, k);
      ProcessQueue();
    }

    /** One file of the upload handler: `newVideo.save()`, then `addToQueue`. */
    method UploadOne(f: UploadedFile, videoId: VideoId, now: int)
      requires started == |admitted|
      modifies this
      ensures started == |admitted|
      ensures Model() == Dispatch.UploadOne(old(Model()), f, videoId, now)
    {
      store := store[videoId := NewVideo(f, now)];
      history := history[videoId := [Uploaded]];
      Enqueue(videoId);
    }

    /** The upload handler: refuses a request without files, otherwise saves
        one 'uploaded' record per file, under the id the store gives it, and
        enqueues that id. */
    method Upload(files: seq<UploadedFile>, ids: seq<VideoId>, now: int) returns (response: UploadResponse)
      requires Valid() && |ids| == |files| && FreshBatch(Model(), ids)
      modifies this
      ensures Valid()
      ensures (Model(), response) == Dispatch.Upload(old(Model()), files, ids, now)
    {
      if |files| == 0 {
        return NoFiles(NO_FILES_MESSAGE);
      }
      DispatchProofs.UploadAllKeepsInv(Model(), files, ids, now);
      UploadEach(files, ids, now);
      response := Accepted(|files|);
    }

    /** `files.map(...)`: every file in turn is saved and enqueued. */
    method UploadEach(files: seq<UploadedFile>, ids: seq<VideoId>, now: int)
      requires started == |admitted| && |ids| == |files| && Distinct(ids)
      modifies this
      ensures started == |admitted|
      ensures Model() == UploadAll(old(Model()), files, ids, now)
    {
      for i := 0 to |files|
        invariant started == |admitted|
        invariant Model() == UploadAll(old(Model()), files[..i], ids[..i], now)
      {
        DispatchProofs.UploadAllStep(old(Model()), files, ids, i, now);
        UploadOne(files[i], ids[i], now);
      }
      assert files[..|files|] == files && ids[..|ids|] == ids;
    }
  }
}
