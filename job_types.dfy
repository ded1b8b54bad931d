/** The job status type shared by the front end and the database
    (frontend/src/types/index.ts). */
module JobTypes {
  import opened Wrappers

  datatype JobStatus = QUEUED | PROCESSING | COMPLETED | FAILED

  /** The string a status travels as in JSON. */
  function StatusName(s: JobStatus): string {
    match s
    case QUEUED => "QUEUED"
    case PROCESSING => "PROCESSING"
    case COMPLETED => "COMPLETED"
    case FAILED => "FAILED"
  }

  const StatusNames: seq<string> := ["QUEUED", "PROCESSING", "COMPLETED", "FAILED"]

  /** Reading a status back: exactly the four names are accepted. */
  function ParseStatus(name: string): (r: Option<JobStatus>)
    ensures r.Some? <==> name in StatusNames
    ensures r.Some? ==> StatusName(r.value) == name
  {
    if name == "QUEUED" then Some(QUEUED)
    else if name == "PROCESSING" then Some(PROCESSING)
    else if name == "COMPLETED" then Some(COMPLETED)
    else if name == "FAILED" then Some(FAILED)
    else None
  }

  lemma ParseStatusName(s: JobStatus)
    ensures ParseStatus(StatusName(s)) == Some(s)
  {
  }

  /** A status after which the backend sends no further updates. */
  predicate Terminal(s: JobStatus) {
    s == COMPLETED || s == FAILED
  }
}
