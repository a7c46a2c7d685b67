/** The video record kept in the store (the Mongoose `VideoSchema`) and the
    field updates the processing pipeline applies to it. */
module Videos {

  /** A record identifier. The store's ObjectIds are abstracted to numbers;
      which number a new record gets is the caller's choice. */
  type VideoId = nat

  datatype Option<T> = None | Some(value: T)

  /** The values the schema's `status` string takes: 'uploaded' (the default),
      'processing', 'completed' and 'error'. */
  datatype Status = Uploaded | Processing | Completed | Error

  /** The schema's free-form `details` object: either the scoring breakdown the
      backend returned, or the `{ error: message }` object the error path writes. */
  datatype Details =
    | Breakdown(fields: map<string, real>)
    | ErrorInfo(error: string)

  /** One stored video. `None` stands for a field the document does not hold. */
  datatype Video = Video(
    originalName: string,
    filename: string,
    path: string,
    status: Status,
    score: Option<int>,
    details: Option<Details>,
    transcript: Option<string>,
    createdAt: int)

  /** What the upload middleware hands over for one received file. */
  datatype UploadedFile = UploadedFile(originalName: string, filename: string, path: string)

  /** The fields fixed when the upload was accepted; no pipeline write changes them. */
  predicate SameUpload(a: Video, b: Video) {
    a.originalName == b.originalName && a.filename == b.filename &&
    a.path == b.path && a.createdAt == b.createdAt
  }

  /** What each status says about the result fields: an uploaded record has none,
      a completed one has a score, a transcript and a breakdown, and an erroneous
      one carries an error object in `details`. */
  predicate WellFormed(v: Video) {
    && (v.status == Uploaded ==> v.score.None? && v.transcript.None? && v.details.None?)
    && (v.status == Completed ==>
          v.score.Some? && v.transcript.Some? && v.details.Some? && v.details.value.Breakdown?)
    && (v.status == Error ==> v.details.Some? && v.details.value.ErrorInfo?)
  }

  /** A new record built from an uploaded file; `now` is the creation clock reading. */
  function NewVideo(f: UploadedFile, now: int): (v: Video)
    ensures v.status == Uploaded && WellFormed(v)
    ensures v.originalName == f.originalName && v.filename == f.filename && v.path == f.path
    ensures v.createdAt == now
  {
    Video(f.originalName, f.filename, f.path, Uploaded, None, None, None, now)
  }

  /** The write made before the backend is called: only the status changes. */
  function MarkedProcessing(v: Video): (r: Video)
    ensures r.status == Processing && SameUpload(v, r)
    ensures r.score == v.score && r.transcript == v.transcript && r.details == v.details
  {
    v.(status := Processing)
  }

  /** The write made after the backend answered: status and the three result fields. */
  function CompletedWith(v: Video, score: int, transcript: string, breakdown: map<string, real>): (r: Video)
    ensures r.status == Completed && WellFormed(r) && SameUpload(v, r)
    ensures r.score == Some(score) && r.transcript == Some(transcript)
    ensures r.details == Some(Breakdown(breakdown))
  {
    v.(status := Completed, score := Some(score), transcript := Some(transcript),
       details := Some(Breakdown(breakdown)))
  }

  /** The error write: status and details are replaced, score and transcript are
      left as they were. */
  function Errored(v: Video, message: string): (r: Video)
    ensures r.status == Error && WellFormed(r) && SameUpload(v, r)
    ensures r.details == Some(ErrorInfo(message))
    ensures r.score == v.score && r.transcript == v.transcript
  {
    v.(status := Error, details := Some(ErrorInfo(message)))
  }
}
