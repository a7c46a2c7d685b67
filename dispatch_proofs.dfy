/** Every event of the dispatcher keeps the invariant: the worker counter stays
    within 0..MAX_CONCURRENT_WORKERS and counts the executions in flight, the
    ids leave the queue in the order they entered it, no slot idles while work
    waits, and each record's status history follows the lifecycle. Each event
    is taken apart into its steps (push, admit, write, release, create) and
    each step is proved to keep each group of invariants. */
module DispatchProofs {
  import opened Videos
  import opened Dispatch

  /** A value found at two positions of a sequence occurs at least twice in it. */
  lemma {:induction false} OccursTwice(xs: seq<VideoId>, i: nat, j: nat)
    requires i < j < |xs| && xs[i] == xs[j]
    ensures multiset(xs)[xs[i]] >= 2
  {
    var x := xs[i];
    assert xs == xs[..j] + xs[j..];
    assert xs[..j][i] == x;
    assert xs[j..][0] == x;
    assert multiset(xs[..j])[x] >= 1;
    assert multiset(xs[j..])[x] >= 1;
  }

  /** Every id held by an execution or waiting in the queue was enqueued. */
  lemma CountedWhereHeld(s: State)
    requires Numbered(s) && Fifo(s)
    ensures forall k | k in s.jobs :: Count(s, s.jobs[k].id) >= 1
    ensures forall i | 0 <= i < |s.queue| :: Count(s, s.queue[i]) >= 1
  {
    assert multiset(s.enqueued) == multiset(s.admitted) + multiset(s.queue);
    forall k | k in s.jobs ensures Count(s, s.jobs[k].id) >= 1 {
      assert s.admitted[k] in multiset(s.admitted);
    }
    forall i | 0 <= i < |s.queue| ensures Count(s, s.queue[i]) >= 1 {
      assert s.queue[i] in multiset(s.queue);
    }
  }

  /** The id an execution holds was enqueued. */
  lemma HeldIsCounted(s: State, k: nat)
    requires Numbered(s) && Fifo(s) && k in s.jobs
    ensures Count(s, s.jobs[k].id) >= 1
  {
    assert multiset(s.enqueued) == multiset(s.admitted) + multiset(s.queue);
    assert s.admitted[k] in multiset(s.admitted);
  }

  /** An execution whose id was enqueued once is the only place that id is:
      no other execution holds it and it is not waiting in the queue. */
  lemma SingleEnqueueIsUnique(s: State, k: nat)
    requires Numbered(s) && Fifo(s) && k in s.jobs && Count(s, s.jobs[k].id) == 1
    ensures forall j | j in s.jobs && j != k :: s.jobs[j].id != s.jobs[k].id
    ensures s.jobs[k].id !in s.queue
  {
    var id := s.jobs[k].id;
    assert multiset(s.enqueued) == multiset(s.admitted) + multiset(s.queue);
    forall j | j in s.jobs && j != k
      ensures s.jobs[j].id != id
    {
      if s.jobs[j].id == id {
        if j < k { OccursTwice(s.admitted, j, k); } else { OccursTwice(s.admitted, k, j); }
      }
    }
    assert s.admitted[k] in multiset(s.admitted);
    assert multiset(s.queue)[id] == 0;
  }

  /** Appending a status other than 'uploaded' to a valid history keeps it
      valid for a record holding that status, provided a 'completed' comes
      after a 'processing'. */
  lemma AppendKeepsRecordOk(v: Video, h: seq<Status>, w: Video, st: Status)
    requires RecordOk(v, h) && WellFormed(w) && w.status == st && st != Uploaded
    requires st == Completed ==> Processing in h
    ensures RecordOk(w, h + [st])
  {
    var h' := h + [st];
    forall i | 0 <= i < |h'| && h'[i] == Completed
      ensures Processing in h'[..i]
    {
      if i < |h| {
        assert h'[..i] == h[..i];
      } else {
        assert h'[..i] == h;
      }
    }
  }

  lemma InitialInv()
    ensures Inv(Initial())
  {
  }

  // ------------------------------------------------------------------ Admit

  lemma AdmitKeepsBookkeeping(s: State)
    requires Bookkeeping(s)
    ensures Bookkeeping(Admit(s))
  {
    var r := Admit(s);
    if r != s {
      var n := |s.admitted|;
      assert n !in s.jobs;
      assert r.jobs.Keys == s.jobs.Keys + {n};
      assert |r.jobs| == |s.jobs| + 1;
      forall k | k in r.jobs
        ensures k < |r.admitted| && r.jobs[k].id == r.admitted[k]
      {
        if k != n { assert r.admitted[k] == s.admitted[k]; }
      }
    }
  }

  lemma AdmitKeepsHistories(s: State)
    requires Slots(s) && Histories(s) && Slots(Admit(s))
    ensures Histories(Admit(s))
  {
    var r := Admit(s);
    if r != s {
      assert |s.admitted| !in s.jobs;
      forall k | k in r.jobs && r.jobs[k].step == AwaitingBackend
        ensures Processing in r.history[r.jobs[k].id]
      {
        assert k in s.jobs && r.jobs[k] == s.jobs[k];
      }
    }
  }

  lemma AdmitKeepsSingleEnqueue(s: State)
    requires Slots(s) && SingleEnqueueAtRest(s) && SingleEnqueueInFlight(s)
    ensures SingleEnqueueAtRest(Admit(s)) && SingleEnqueueInFlight(Admit(s))
  {
    var r := Admit(s);
    if r != s {
      assert |s.admitted| !in s.jobs;
      forall i | 0 <= i < |r.queue| && r.queue[i] in r.store && Count(r, r.queue[i]) == 1
        ensures r.history[r.queue[i]] == [Uploaded]
      {
        assert r.queue[i] == s.queue[i + 1];
      }
      forall k | k in r.jobs && r.jobs[k].id in r.store && Count(r, r.jobs[k].id) == 1
        ensures r.history[r.jobs[k].id] ==
          if r.jobs[k].step == AwaitingLookup then [Uploaded] else [Uploaded, Processing]
      {
        if k == |s.admitted| { assert r.jobs[k].id == s.queue[0]; }
      }
    }
  }

  /** An admission attempt keeps the bookkeeping. */
  lemma AdmitKeepsConsistent(s: State)
    requires Consistent(s)
    ensures Consistent(Admit(s))
  {
    AdmitKeepsBookkeeping(s);
    AdmitKeepsHistories(s);
    AdmitKeepsSingleEnqueue(s);
  }

  // ------------------------------------------------------------ AddToQueue

  lemma PushKeepsSingleEnqueue(s: State, id: VideoId)
    requires Bookkeeping(s) && SingleEnqueueAtRest(s) && SingleEnqueueInFlight(s)
    requires ResultsOnceCompleted(s)
    ensures SingleEnqueueAtRest(Push(s, id)) && SingleEnqueueInFlight(Push(s, id))
    ensures ResultsOnceCompleted(Push(s, id))
  {
    var p := Push(s, id);
    assert multiset(p.enqueued) == multiset(s.enqueued) + multiset{id};
    assert forall x :: Count(p, x) == Count(s, x) + (if x == id then 1 else 0);
    CountedWhereHeld(s);
    forall i | 0 <= i < |p.queue| && p.queue[i] in p.store && Count(p, p.queue[i]) == 1
      ensures p.history[p.queue[i]] == [Uploaded]
    {
      if i < |s.queue| { assert s.queue[i] == p.queue[i]; }
    }
  }

  /** `addToQueue` keeps the invariant, including that no slot idles while
      work waits. */
  lemma AddToQueueKeepsInv(s: State, id: VideoId)
    requires Inv(s)
    ensures Inv(AddToQueue(s, id))
  {
    var p := Push(s, id);
    PushKeepsSingleEnqueue(s, id);
    assert Bookkeeping(p);
    assert Histories(p);
    AdmitKeepsConsistent(p);
  }

  /** Between events, a new id starts at once when a slot is free (the queue
      is then empty, so it is the head), and otherwise waits at the tail
      behind every earlier id. */
  lemma AddToQueueStartsOrWaits(s: State, id: VideoId)
    requires Inv(s)
    ensures var r := AddToQueue(s, id);
      if s.activeWorkers < MAX_CONCURRENT_WORKERS then
        r.queue == [] && r.admitted == s.admitted + [id] &&
        r.jobs == s.jobs[|s.admitted| := Job(id, AwaitingLookup)] &&
        r.activeWorkers == s.activeWorkers + 1
      else
        r.queue == s.queue + [id] && r.admitted == s.admitted &&
        r.jobs == s.jobs && r.activeWorkers == s.activeWorkers
  {
    var p := Push(s, id);
    if s.activeWorkers < MAX_CONCURRENT_WORKERS {
      assert s.queue == [] && p.queue == [id];
    }
  }

  // --------------------------------------------------------- MarkProcessing

  lemma MarkProcessingKeepsHistories(s: State, k: nat)
    requires Slots(s) && Histories(s)
    requires k in s.jobs && s.jobs[k].step == AwaitingLookup && s.jobs[k].id in s.store
    ensures Slots(MarkProcessing(s, k)) && Histories(MarkProcessing(s, k))
  {
    var r := MarkProcessing(s, k);
    var id := s.jobs[k].id;
    assert r.jobs.Keys == s.jobs.Keys;
    AppendKeepsRecordOk(s.store[id], s.history[id], r.store[id], Processing);
    forall j | j in r.jobs && r.jobs[j].step == AwaitingBackend
      ensures Processing in r.history[r.jobs[j].id]
    {
      if r.jobs[j].id == id {
        assert r.history[id] == s.history[id] + [Processing];
      } else {
        assert r.jobs[j] == s.jobs[j];
      }
    }
  }

  lemma MarkProcessingKeepsBookkeeping(s: State, k: nat)
    requires Bookkeeping(s)
    requires k in s.jobs && s.jobs[k].step == AwaitingLookup && s.jobs[k].id in s.store
    ensures Bookkeeping(MarkProcessing(s, k))
  {
    var r := MarkProcessing(s, k);
    forall j | j in r.jobs ensures j < |r.admitted| && r.jobs[j].id == r.admitted[j] {
      assert j in s.jobs;
    }
  }

  lemma MarkProcessingKeepsAtRest(s: State, k: nat)
    requires Numbered(s) && Fifo(s) && s.history.Keys == s.store.Keys
    requires SingleEnqueueAtRest(s) && SingleEnqueueInFlight(s)
    requires k in s.jobs && s.jobs[k].step == AwaitingLookup && s.jobs[k].id in s.store
    ensures SingleEnqueueAtRest(MarkProcessing(s, k))
  {
    var id := s.jobs[k].id;
    var r := MarkProcessing(s, k);
    HeldIsCounted(s, k);
    if Count(s, id) == 1 {
      assert r.history[id] == [Uploaded] + [Processing] == [Uploaded, Processing];
    }
    AtRestFrame(s, r, id);
  }

  lemma MarkProcessingKeepsInFlight(s: State, k: nat)
    requires Bookkeeping(s) && SingleEnqueueInFlight(s)
    requires k in s.jobs && s.jobs[k].step == AwaitingLookup && s.jobs[k].id in s.store
    ensures SingleEnqueueInFlight(MarkProcessing(s, k))
  {
    var r := MarkProcessing(s, k);
    var id := s.jobs[k].id;
    if Count(s, id) == 1 {
      SingleEnqueueIsUnique(s, k);
    }
    assert forall x :: Count(r, x) == Count(s, x);
    forall j | j in r.jobs && r.jobs[j].id in r.store && Count(r, r.jobs[j].id) == 1
      ensures r.history[r.jobs[j].id] ==
        if r.jobs[j].step == AwaitingLookup then [Uploaded] else [Uploaded, Processing]
    {
      if j != k { assert r.jobs[j] == s.jobs[j]; }
    }
    forall i | 0 <= i < |r.queue| && r.queue[i] in r.store && Count(r, r.queue[i]) == 1
      ensures r.history[r.queue[i]] == [Uploaded]
    {
      assert r.queue[i] in s.queue;
    }
  }

  lemma MarkProcessingKeepsResults(s: State, k: nat)
    requires s.history.Keys == s.store.Keys && ResultsOnceCompleted(s)
    requires k in s.jobs && s.jobs[k].step == AwaitingLookup && s.jobs[k].id in s.store
    ensures ResultsOnceCompleted(MarkProcessing(s, k))
  {
    ResultsFrame(s, MarkProcessing(s, k), s.jobs[k].id);
  }

  /** Saving 'processing' keeps the invariant. */
  lemma MarkProcessingKeepsInv(s: State, k: nat)
    requires Inv(s) && k in s.jobs && s.jobs[k].step == AwaitingLookup && s.jobs[k].id in s.store
    ensures Inv(MarkProcessing(s, k))
  {
    MarkProcessingKeepsBookkeeping(s, k);
    MarkProcessingKeepsHistories(s, k);
    MarkProcessingKeepsAtRest(s, k);
    MarkProcessingKeepsInFlight(s, k);
    MarkProcessingKeepsResults(s, k);
  }

  // ----------------------------------------------------------------- Finish

  lemma WrittenKeepsHistories(s: State, k: nat, outcome: Outcome, errorWriteFails: bool)
    requires Slots(s) && Histories(s) && k in s.jobs && Feasible(s, k, outcome)
    ensures Slots(Written(s, k, outcome, errorWriteFails))
    ensures Histories(Written(s, k, outcome, errorWriteFails))
  {
    var w := Written(s, k, outcome, errorWriteFails);
    var id := s.jobs[k].id;
    if outcome.Success? {
      AppendKeepsRecordOk(s.store[id], s.history[id], w.store[id], Completed);
    } else if outcome.Failure? && !errorWriteFails && id in s.store {
      AppendKeepsRecordOk(s.store[id], s.history[id], w.store[id], Error);
    }
  }

  /** The history a write gives a record enqueued once is still a lifecycle. */
  lemma WrittenLifecycle(s: State, k: nat, outcome: Outcome, errorWriteFails: bool)
    requires Bookkeeping(s) && SingleEnqueueInFlight(s)
    requires k in s.jobs && Feasible(s, k, outcome)
    requires s.jobs[k].id in s.store && Count(s, s.jobs[k].id) == 1
    requires Written(s, k, outcome, errorWriteFails) != s
    ensures Written(s, k, outcome, errorWriteFails).history[s.jobs[k].id] in
      {[Uploaded, Processing, Completed], [Uploaded, Processing, Error], [Uploaded, Error]}
  {
    var id := s.jobs[k].id;
    var w := Written(s, k, outcome, errorWriteFails);
    if outcome.Success? {
      assert w.history[id] == [Uploaded, Processing, Completed];
    } else if s.jobs[k].step == AwaitingLookup {
      assert w.history[id] == [Uploaded, Error];
    } else {
      assert w.history[id] == [Uploaded, Processing, Error];
    }
  }

  /** The at-rest lifecycle facts survive a step that changes at most the
      history of `id`, provided `id` was enqueued and its new history is still
      a lifecycle when it was enqueued once. */
  lemma AtRestFrame(s: State, r: State, id: VideoId)
    requires s.history.Keys == s.store.Keys && SingleEnqueueAtRest(s)
    requires r.history.Keys == s.history.Keys && r.store.Keys == s.store.Keys
    requires r.enqueued == s.enqueued
    requires forall x | x in s.store && x != id :: r.history[x] == s.history[x]
    requires id in s.store ==> Count(s, id) >= 1
    requires id in s.store && Count(s, id) == 1 ==> r.history[id] in Lifecycles
    ensures SingleEnqueueAtRest(r)
  {
    assert forall x :: Count(r, x) == Count(s, x);
  }

  /** The in-flight lifecycle facts survive a step that removes executions,
      keeps the queue, and changes at most the history of `id`, which nothing
      left in flight holds when it was enqueued once. */
  lemma InFlightFrame(s: State, r: State, id: VideoId)
    requires s.history.Keys == s.store.Keys && SingleEnqueueInFlight(s)
    requires r.history.Keys == s.history.Keys && r.store.Keys == s.store.Keys
    requires r.enqueued == s.enqueued && r.queue == s.queue
    requires forall j | j in r.jobs :: j in s.jobs && r.jobs[j] == s.jobs[j]
    requires forall x | x in s.store && x != id :: r.history[x] == s.history[x]
    requires Count(s, id) == 1 ==> id !in r.queue && forall j | j in r.jobs :: r.jobs[j].id != id
    ensures SingleEnqueueInFlight(r)
  {
    assert forall x :: Count(r, x) == Count(s, x);
    forall j | j in r.jobs && r.jobs[j].id in r.store && Count(r, r.jobs[j].id) == 1
      ensures r.history[r.jobs[j].id] ==
        if r.jobs[j].step == AwaitingLookup then [Uploaded] else [Uploaded, Processing]
    {
      assert r.jobs[j] == s.jobs[j];
    }
    forall i | 0 <= i < |r.queue| && r.queue[i] in r.store && Count(r, r.queue[i]) == 1
      ensures r.history[r.queue[i]] == [Uploaded]
    {
      assert r.queue[i] in r.queue;
    }
  }

  /** No record gains a score or transcript without reaching 'completed' in
      a step that changes at most the record and history of `id`, enqueues
      nothing, and keeps that record's score and transcript unless its
      history reaches 'completed'. */
  lemma ResultsFrame(s: State, r: State, id: VideoId)
    requires s.history.Keys == s.store.Keys && ResultsOnceCompleted(s)
    requires r.history.Keys == s.history.Keys && r.store.Keys == s.store.Keys
    requires r.enqueued == s.enqueued
    requires forall x | x in s.store && x != id :: r.store[x] == s.store[x] && r.history[x] == s.history[x]
    requires id in s.store && Completed !in r.history[id] ==>
      && Completed !in s.history[id]
      && r.store[id].score == s.store[id].score && r.store[id].transcript == s.store[id].transcript
    ensures ResultsOnceCompleted(r)
  {
    assert forall x :: Count(r, x) == Count(s, x);
  }

  lemma WrittenKeepsResults(s: State, k: nat, outcome: Outcome, errorWriteFails: bool)
    requires Slots(s) && ResultsOnceCompleted(s) && k in s.jobs && Feasible(s, k, outcome)
    ensures ResultsOnceCompleted(Written(s, k, outcome, errorWriteFails))
  {
    var id := s.jobs[k].id;
    var w := Written(s, k, outcome, errorWriteFails);
    if w != s && !outcome.Success? {
      assert w.history[id] == s.history[id] + [Error];
    }
    ResultsFrame(s, w, id);
  }

  lemma WrittenKeepsAtRest(s: State, k: nat, outcome: Outcome, errorWriteFails: bool)
    requires Bookkeeping(s) && SingleEnqueueAtRest(s) && SingleEnqueueInFlight(s)
    requires k in s.jobs && Feasible(s, k, outcome)
    ensures SingleEnqueueAtRest(Written(s, k, outcome, errorWriteFails))
  {
    var id := s.jobs[k].id;
    var w := Written(s, k, outcome, errorWriteFails);
    CountedWhereHeld(s);
    if w != s && Count(s, id) == 1 {
      WrittenLifecycle(s, k, outcome, errorWriteFails);
    }
    AtRestFrame(s, w, id);
  }

  lemma ReleaseKeepsInFlight(s: State, k: nat, outcome: Outcome, errorWriteFails: bool)
    requires Bookkeeping(s) && SingleEnqueueInFlight(s)
    requires k in s.jobs && Feasible(s, k, outcome)
    ensures SingleEnqueueInFlight(Release(Written(s, k, outcome, errorWriteFails), k))
  {
    var id := s.jobs[k].id;
    if Count(s, id) == 1 { SingleEnqueueIsUnique(s, k); }
    InFlightFrame(s, Release(Written(s, k, outcome, errorWriteFails), k), id);
  }

  /** The end of an execution keeps the invariant, whatever its outcome and
      whether or not the error write itself fails. */
  lemma FinishKeepsInv(s: State, k: nat, outcome: Outcome, errorWriteFails: bool)
    requires Inv(s) && k in s.jobs && Feasible(s, k, outcome)
    ensures Inv(Finish(s, k, outcome, errorWriteFails))
  {
    var w := Written(s, k, outcome, errorWriteFails);
    WrittenKeepsHistories(s, k, outcome, errorWriteFails);
    WrittenKeepsAtRest(s, k, outcome, errorWriteFails);
    ReleaseKeepsInFlight(s, k, outcome, errorWriteFails);
    WrittenKeepsResults(s, k, outcome, errorWriteFails);
    var p := Release(w, k);
    forall j | j in p.jobs && p.jobs[j].step == AwaitingBackend
      ensures p.jobs[j].id in p.store && Processing in p.history[p.jobs[j].id]
    {
      assert j in w.jobs;
    }
    assert Bookkeeping(p);
    assert Histories(p);
    AdmitKeepsConsistent(p);
  }

  /** While ids wait, the slot an ending execution gives back goes at once to
      the oldest waiting id, so the counter stays at the ceiling. */
  lemma FinishStartsHead(s: State, k: nat, outcome: Outcome, errorWriteFails: bool)
    requires Inv(s) && k in s.jobs && Feasible(s, k, outcome) && s.queue != []
    ensures var r := Finish(s, k, outcome, errorWriteFails);
      && r.queue == s.queue[1..] && r.admitted == s.admitted + [s.queue[0]]
      && r.activeWorkers == MAX_CONCURRENT_WORKERS
      && r.jobs == (s.jobs - {k})[|s.admitted| := Job(s.queue[0], AwaitingLookup)]
  {
    var p := Release(Written(s, k, outcome, errorWriteFails), k);
    assert p.activeWorkers < MAX_CONCURRENT_WORKERS && p.queue == s.queue;
  }

  /** Between events, a record enqueued at most once holds no score and no
      transcript unless it is 'completed'. */
  lemma NoResultUnlessCompleted(s: State, id: VideoId)
    requires Inv(s) && id in s.store && Count(s, id) <= 1 && s.store[id].status != Completed
    ensures s.store[id].score.None? && s.store[id].transcript.None?
  {
    var h := s.history[id];
    assert RecordOk(s.store[id], h) && h in Lifecycles;
    assert Completed !in h;
  }

  /** An execution of a record enqueued once that ends in an error leaves the
      record 'error' with the message and without any result. */
  lemma ErrorLeavesNoResult(s: State, k: nat, message: string)
    requires Inv(s) && k in s.jobs && s.jobs[k].id in s.store && Count(s, s.jobs[k].id) == 1
    ensures var v := Finish(s, k, Failure(message), false).store[s.jobs[k].id];
      && v.status == Error && v.details == Some(ErrorInfo(message))
      && v.score.None? && v.transcript.None?
  {
    var id := s.jobs[k].id;
    var r := Finish(s, k, Failure(message), false);
    FinishKeepsInv(s, k, Failure(message), false);
    assert r.enqueued == s.enqueued;
    NoResultUnlessCompleted(r, id);
  }

  // ----------------------------------------------------------------- Upload

  lemma CreatedKeepsRest(s: State, id: VideoId, f: UploadedFile, now: int)
    requires Bookkeeping(s) && Histories(s) && WorkConserving(s) && FreshFor(s, id)
    ensures Bookkeeping(Created(s, id, f, now))
    ensures Histories(Created(s, id, f, now))
    ensures WorkConserving(Created(s, id, f, now))
  {
    var r := Created(s, id, f, now);
    forall k | k in r.jobs && r.jobs[k].step == AwaitingBackend
      ensures r.jobs[k].id in r.store && Processing in r.history[r.jobs[k].id]
    {
      assert r.jobs[k].id in s.store;
    }
  }

  lemma CreatedKeepsAtRest(s: State, id: VideoId, f: UploadedFile, now: int)
    requires s.history.Keys == s.store.Keys && SingleEnqueueAtRest(s) && FreshFor(s, id)
    requires ResultsOnceCompleted(s)
    ensures SingleEnqueueAtRest(Created(s, id, f, now))
    ensures ResultsOnceCompleted(Created(s, id, f, now))
  {
    assert id !in multiset(s.enqueued);
  }

  lemma CreatedKeepsInFlight(s: State, id: VideoId, f: UploadedFile, now: int)
    requires Numbered(s) && Fifo(s) && s.history.Keys == s.store.Keys
    requires SingleEnqueueInFlight(s) && FreshFor(s, id)
    ensures SingleEnqueueInFlight(Created(s, id, f, now))
  {
    var r := Created(s, id, f, now);
    forall i | 0 <= i < |r.queue| && r.queue[i] in r.store && Count(r, r.queue[i]) == 1
      ensures r.history[r.queue[i]] == [Uploaded]
    {
      assert r.queue[i] == s.enqueued[|s.admitted| + i];
    }
    forall j | j in r.jobs && r.jobs[j].id in r.store && Count(r, r.jobs[j].id) == 1
      ensures r.history[r.jobs[j].id] ==
        if r.jobs[j].step == AwaitingLookup then [Uploaded] else [Uploaded, Processing]
    {
      assert r.jobs[j].id == s.enqueued[j];
    }
  }

  /** Saving a new record under a fresh id keeps the invariant. */
  lemma CreatedKeepsInv(s: State, id: VideoId, f: UploadedFile, now: int)
    requires Inv(s) && FreshFor(s, id)
    ensures Inv(Created(s, id, f, now))
  {
    CreatedKeepsRest(s, id, f, now);
    CreatedKeepsAtRest(s, id, f, now);
    CreatedKeepsInFlight(s, id, f, now);
  }

  /** A batch one file longer is that batch followed by one more file. */
  lemma UploadAllStep(s: State, files: seq<UploadedFile>, ids: seq<VideoId>, i: nat, now: int)
    requires |ids| == |files| && i < |files| && Distinct(ids)
    ensures Distinct(ids[..i]) && Distinct(ids[..i + 1])
    ensures UploadAll(s, files[..i + 1], ids[..i + 1], now)
         == UploadOne(UploadAll(s, files[..i], ids[..i], now), files[i], ids[i], now)
  {
    DistinctPrefix(ids, i);
    DistinctPrefix(ids, i + 1);
    assert files[..i + 1][..i] == files[..i] && ids[..i + 1][..i] == ids[..i];
  }

  /** Storing and enqueuing one uploaded file under a fresh id keeps the invariant. */
  lemma UploadOneKeepsInv(s: State, f: UploadedFile, id: VideoId, now: int)
    requires Inv(s) && FreshFor(s, id)
    ensures Inv(UploadOne(s, f, id, now))
  {
    CreatedKeepsInv(s, id, f, now);
    AddToQueueKeepsInv(Created(s, id, f, now), id);
  }

  /** A whole batch of uploads under fresh, distinct ids keeps the invariant. */
  lemma {:induction false} UploadAllKeepsInv(s: State, files: seq<UploadedFile>, ids: seq<VideoId>, now: int)
    requires Inv(s) && |ids| == |files| && FreshBatch(s, ids)
    ensures Inv(UploadAll(s, files, ids, now))
    decreases |files|
  {
    if files != [] {
      var n := |files| - 1;
      DistinctPrefix(ids, n);
      assert FreshBatch(s, ids[..n]);
      UploadAllKeepsInv(s, files[..n], ids[..n], now);
      var m := UploadAll(s, files[..n], ids[..n], now);
      assert ids[n] !in ids[..n];
      assert FreshFor(m, ids[n]);
      UploadOneKeepsInv(m, files[n], ids[n], now);
    }
  }
}
