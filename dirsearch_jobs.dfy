/**
 * What the three dirsearch controllers (func.go, func_dirsearch.go and
 * apps/dirsearch/app.go) share: the job record DirsearchControl, the
 * path-found payload PathResult and the events they emit. func.go and
 * func_dirsearch.go declare the record and the payload with the same fields,
 * and all three controllers emit the same events from them; here they are
 * declared once.
 */
module DirsearchJobs {
  import opened Wrappers
  import Dirsearch

  /**
   * The current dirsearch job. `cancelled` stands for the job's context: it
   * becomes true when the stored cancel function is called.
   */
  class DirsearchControl {
    var cancelled: bool
    var scanned: int
    var totalPaths: int

    constructor ()
      ensures !cancelled && scanned == 0 && totalPaths == 0
    {
      cancelled, scanned, totalPaths := false, 0, 0;
    }
  }

  /** The payload of a "path-found" event. */
  datatype PathResult = PathResult(path: string, fullUrl: string, statusCode: int, contentType: string, contentLength: int)

  /** The path callback's conversion of a PathInfo: the full URL is URL followed by Path. */
  function ToPathResult(info: Dirsearch.PathInfo): (r: PathResult)
    ensures r.fullUrl == info.url + info.path
    ensures r.path == info.path && r.statusCode == info.statusCode
    ensures r.contentType == info.contentType && r.contentLength == info.contentLength
  {
    PathResult(info.path, info.url + info.path, info.statusCode, info.contentType, info.contentLength)
  }

  /** End to end, a gobuster result reaches the UI with its size as the length and its Content-Type header. */
  lemma FoundPathPayload(found: Dirsearch.GobusterResult)
    ensures ToPathResult(Dirsearch.HandleResult(found))
         == PathResult(found.path, found.url + found.path, found.statusCode,
                       Dirsearch.HeaderGet(found.header, "Content-Type"), found.size)
  {
  }

  /** The events of the "dirsearch-*" channels; speed is absent where the source sends none. */
  datatype DirEvent =
    | DirStatus(status: string)                                 // "dirsearch-status"
    | DirProgress(current: int, total: int, speed: Option<real>) // "dirsearch-progress"
    | PathFound(result: PathResult)                             // "path-found"
    | DirError(message: string)                                 // "dirsearch-error"

  /** How a scan goroutine's ScanDir call ended. */
  datatype ScanOutcome = Completed | Canceled | Failed(message: string) | Panicked

  const Idle: string := "idle"
  const Running: string := "running"
  const NotInitialized: string := "app context is not initialized"
  const NotRunning: string := "no dirsearch is running"

  const Terminal: set<string> := {"error", "cancelled", "completed"}

  /**
   * The events a scan goroutine emits for its outcome, before its deferred
   * reset: one terminal status first, and the error message only for a failure.
   */
  function FinishEvents(outcome: ScanOutcome): (e: seq<DirEvent>)
    ensures e != [] && e[0].DirStatus? && e[0].status in Terminal
    ensures forall i :: 1 <= i < |e| ==> !e[i].DirStatus?
    ensures e[0].status == "cancelled" <==> outcome.Canceled?
    ensures e[0].status == "completed" <==> outcome.Completed?
    ensures forall m :: DirError(m) in e <==> outcome == Failed(m)
  {
    match outcome
    case Panicked => [DirStatus("error")]
    case Canceled => [DirStatus("cancelled")]
    case Failed(m) => [DirStatus("error"), DirError(m)]
    case Completed => [DirStatus("completed")]
  }
}
