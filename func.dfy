/**
 * func.go: the port-scan controller (ScanPorts, StopScan, GetScanStatus,
 * GetScanProgress) and this file's dirsearch controller, which refuses to
 * start while a job exists. The package-level pointers currentScan and
 * currentDirsearch become fields of one controller object each. What the
 * scan goroutines do after the start call returns (their first events, the
 * worker callbacks, the code after the worker returns and the deferred reset)
 * arrives as explicit method calls, and everything they emit is appended to
 * `events`.
 */
module Func {
  import opened Wrappers
  import Int32
  import Dirsearch
  import opened DirsearchJobs

  // ---------------------------------------------------------------- port scan

  /** scanControl; `cancelled` stands for the job's context. */
  class ScanControl {
    var cancelled: bool
    const totalPorts: int
    var scanned: int

    constructor (totalPorts: int)
      ensures !cancelled && this.totalPorts == totalPorts && scanned == 0
    {
      cancelled := false;
      this.totalPorts := totalPorts;
      scanned := 0;
    }
  }

  /** What the goroutine of one ScanPorts call captured: its own job and its port range. */
  datatype PortScanRun = PortScanRun(control: ScanControl, startPort: int, endPort: int, totalPorts: int)

  /** A PortInfo delivered by the combined scanner; Protocol "progress" marks a progress tick. */
  datatype CombinedPortInfo = CombinedPortInfo(
    port: int, protocol: string, service: string, productName: string, version: string, info: string,
    hostname: string, operatingSystem: string, deviceType: string, probeName: string, tls: bool)

  const ProgressProtocol: string := "progress"

  /** The events of the "scan-*" and "port-found" channels; `scanned` is absent where none is sent. */
  datatype PortEvent =
    | ScanStatus(status: string)                                                                 // "scan-status"
    | ScanProgressEvent(currentPort: int, totalPorts: int, scanned: Option<int>, status: string) // "scan-progress"
    | PortFound(found: CombinedPortInfo)                                                         // "port-found"
    | ScanError(message: string)                                                                 // "scan-error"
    | ScanComplete(total: int, scannedCount: int)                                              // "scan-complete"

  /** ScanProgress as GetScanProgress returns it. */
  datatype ScanProgress = ScanProgress(currentPort: int, totalPorts: int, status: string)

  /** How ScanPortsCombined ended, or that the goroutine panicked before it returned. */
  datatype PortScanOutcome = PortsDone | PortsCanceled | PortsFailed(message: string) | PortsPanicked

  const InternalError: string := "Internal error occurred"

  /** The three non-idle statuses a finished scan reports. */
  function OutcomeStatus(outcome: PortScanOutcome): string
  {
    match outcome
    case PortsCanceled => "cancelled"
    case PortsFailed(_) => "error"
    case _ => "completed"
  }

  /**
   * The events a scan goroutine emits once ScanPortsCombined has returned (or
   * panicked), before the deferred reset. `current` is the scanned counter of
   * the job that is current at that moment, None when there is none; the
   * totals and the end port are the run's own.
   */
  function PortFinishEvents(run: PortScanRun, outcome: PortScanOutcome, current: Option<int>): (e: seq<PortEvent>)
    ensures outcome.PortsPanicked? ==> e == [ScanError(InternalError)]
    ensures !outcome.PortsPanicked? && current.None? ==> e == []
    ensures !outcome.PortsPanicked? && current.Some? ==>
      |e| >= 2 && ScanStatus(OutcomeStatus(outcome)) == e[|e| - 2]
      && e[|e| - 1] == ScanProgressEvent(if outcome.PortsDone? then run.endPort else current.value,
                                         run.totalPorts, None, OutcomeStatus(outcome))
    ensures forall m :: ScanError(m) in e <==>
      (outcome.PortsPanicked? && m == InternalError) || (current.Some? && outcome == PortsFailed(m))
    ensures forall t, s :: ScanComplete(t, s) in e <==>
      outcome.PortsDone? && current == Some(s) && t == run.totalPorts
  {
    match outcome
    case PortsPanicked => [ScanError(InternalError)]
    case PortsCanceled =>
      if current.None? then []
      else [ScanStatus("cancelled"), ScanProgressEvent(current.value, run.totalPorts, None, "cancelled")]
    case PortsFailed(m) =>
      if current.None? then []
      else [ScanError(m), ScanStatus("error"), ScanProgressEvent(current.value, run.totalPorts, None, "error")]
    case PortsDone =>
      if current.None? then []
      else [ScanComplete(run.totalPorts, current.value), ScanStatus("completed"),
            ScanProgressEvent(run.endPort, run.totalPorts, None, "completed")]
  }

  /** The port-scan half of App: the current job and the events emitted so far. */
  class PortScanController {
    const appReady: bool
    var currentScan: ScanControl?
    var events: seq<PortEvent>

    /** The counters of the current job are int32 values. */
    ghost predicate Valid()
      reads this, currentScan
    {
      currentScan != null ==> Int32.InRange(currentScan.scanned) && Int32.InRange(currentScan.totalPorts)
    }

    /** An App whose context is set (appReady) or not, with no scan. */
    constructor (appReady: bool)
      ensures Valid()
      ensures this.appReady == appReady && currentScan == null && events == []
    {
      this.appReady := appReady;
      currentScan := null;
      events := [];
    }

    /**
     * ScanPorts: without a context it fails and changes nothing; otherwise it
     * never rejects, and replaces whatever job is current by a fresh one whose
     * total is endPort - startPort + 1 as an int32, leaving the old job
     * uncancelled.
     */
    method ScanPorts(startPort: int, endPort: int) returns (err: Option<string>, run: Option<PortScanRun>)
      requires Valid()
      modifies this
      ensures Valid()
      ensures err.Some? <==> !appReady
      ensures !appReady ==> err == Some(NotInitialized) && run.None? && currentScan == old(currentScan)
      ensures appReady ==>
        run.Some? && fresh(run.value.control) && currentScan == run.value.control
        && run.value == PortScanRun(currentScan, startPort, endPort, Int32.Wrap(endPort - startPort + 1))
        && !currentScan.cancelled && currentScan.scanned == 0 && currentScan.totalPorts == run.value.totalPorts
      ensures events == old(events)
    {
      if !appReady {
        return Some(NotInitialized), None;
      }
      var totalPorts := Int32.Wrap(endPort - startPort + 1);
      var newScan := new ScanControl(totalPorts);
      currentScan := newScan;
      return None, Some(PortScanRun(newScan, startPort, endPort, totalPorts));
    }

    /** The goroutine's first two events: "running" and the starting progress. */
    method BeginScan(run: PortScanRun)
      modifies this
      ensures currentScan == old(currentScan)
      ensures events == old(events) + [ScanStatus(Running), ScanProgressEvent(run.startPort, run.totalPorts, None, "scanning")]
    {
      events := events + [ScanStatus(Running), ScanProgressEvent(run.startPort, run.totalPorts, None, "scanning")];
    }

    /**
     * The worker callback of `run`: ignored without a current job; a progress
     * item adds one (as an int32) to the CURRENT job's counter, whichever job
     * that is, and reports it against the run's own total; any other item is
     * forwarded as "port-found".
     */
    method OnPortInfo(run: PortScanRun, info: CombinedPortInfo)
      requires Valid()
      modifies this, currentScan
      ensures Valid()
      ensures currentScan == old(currentScan)
      ensures currentScan == null ==> events == old(events)
      ensures currentScan != null && info.protocol == ProgressProtocol ==>
        currentScan.scanned == Int32.Wrap(old(currentScan.scanned) + 1)
        && events == old(events) + [ScanProgressEvent(info.port, run.totalPorts, Some(currentScan.scanned), "scanning")]
      ensures currentScan != null && info.protocol != ProgressProtocol ==>
        currentScan.scanned == old(currentScan.scanned) && events == old(events) + [PortFound(info)]
      ensures currentScan != null ==> currentScan.cancelled == old(currentScan.cancelled)
    {
      if currentScan == null {
        return;
      }
      if info.protocol == ProgressProtocol {
        currentScan.scanned := Int32.Wrap(currentScan.scanned + 1);
        events := events + [ScanProgressEvent(info.port, run.totalPorts, Some(currentScan.scanned), "scanning")];
      } else {
        events := events + [PortFound(info)];
      }
    }

    /**
     * The rest of the goroutine of `run`: the outcome's events (measured on the
     * job current at that moment), then the deferred reset, which clears the
     * current job whoever installed it and emits "idle".
     */
    method OnScanFinished(run: PortScanRun, outcome: PortScanOutcome)
      requires Valid()
      modifies this
      ensures Valid()
      ensures currentScan == null
      ensures events == old(events)
        + PortFinishEvents(run, outcome, if old(currentScan) == null then None else Some(old(currentScan.scanned)))
        + [ScanStatus(Idle)]
    {
      var current := if currentScan == null then None else Some(currentScan.scanned);
      events := events + PortFinishEvents(run, outcome, current);
      currentScan := null;
      events := events + [ScanStatus(Idle)];
    }

    /** StopScan never fails; when a job exists it cancels it and reports "stopping". */
    method StopScan() returns (err: Option<string>)
      requires Valid()
      modifies this, currentScan
      ensures Valid()
      ensures err == None
      ensures currentScan == old(currentScan)
      ensures currentScan == null ==> events == old(events)
      ensures currentScan != null ==>
        currentScan.cancelled && currentScan.scanned == old(currentScan.scanned)
        && events == old(events) + [ScanStatus("stopping"),
                                    ScanProgressEvent(currentScan.scanned, currentScan.totalPorts, None, "stopping")]
    {
      if currentScan != null {
        currentScan.cancelled := true;
        events := events + [ScanStatus("stopping"),
                            ScanProgressEvent(currentScan.scanned, currentScan.totalPorts, None, "stopping")];
      }
      return None;
    }

    /** GetScanStatus: "running" exactly when a job exists, "idle" otherwise. */
    method GetScanStatus() returns (status: string)
      ensures status == Running <==> currentScan != null
      ensures status == Idle <==> currentScan == null
    {
      status := if currentScan != null then Running else Idle;
    }

    /** GetScanProgress: zeros and "idle" without a job, otherwise its counters and "running". */
    method GetScanProgress() returns (p: ScanProgress)
      ensures currentScan == null ==> p == ScanProgress(0, 0, Idle)
      ensures currentScan != null ==> p == ScanProgress(currentScan.scanned, currentScan.totalPorts, Running)
    {
      if currentScan == null {
        return ScanProgress(0, 0, Idle);
      }
      return ScanProgress(currentScan.scanned, currentScan.totalPorts, Running);
    }
  }

  /**
   * Two overlapping scans: the first run's progress callback counts on the
   * second job, and the first run's reset clears the second job, which was
   * never cancelled, so the controller reports idle while the second scan is
   * still at work.
   */
  method SupersededScan(start1: int, end1: int, start2: int, end2: int)
    returns (second: ScanControl, statusAfter: string, progressAfter: ScanProgress)
    ensures !second.cancelled && second.scanned == 1
    ensures second.totalPorts == Int32.Wrap(end2 - start2 + 1)
    ensures statusAfter == Idle && progressAfter == ScanProgress(0, 0, Idle)
  {
    var c := new PortScanController(true);
    var err1, run1 := c.ScanPorts(start1, end1);
    var err2, run2 := c.ScanPorts(start2, end2);
    second := run2.value.control;
    c.OnPortInfo(run1.value, CombinedPortInfo(start1, ProgressProtocol, "", "", "", "", "", "", "", "", false));
    c.OnScanFinished(run1.value, PortsDone);
    statusAfter := c.GetScanStatus();
    progressAfter := c.GetScanProgress();
  }

  // ---------------------------------------------------------------- dirsearch

  /** func.go's DirsearchProgress: counters only, no speed. */
  datatype DirsearchProgress = DirsearchProgress(current: int, total: int)

  const AlreadyRunning: string := "dirsearch is already running"

  /** The dirsearch half of App in func.go: refuses to start while a job exists. */
  class DirsearchController {
    const appReady: bool
    var currentDirsearch: DirsearchControl?
    var events: seq<DirEvent>

    /** The counters of the current job are int32 values. */
    ghost predicate Valid()
      reads this, currentDirsearch
    {
      currentDirsearch != null ==>
        Int32.InRange(currentDirsearch.scanned) && Int32.InRange(currentDirsearch.totalPaths)
    }

    constructor (appReady: bool)
      ensures Valid()
      ensures this.appReady == appReady && currentDirsearch == null && events == []
    {
      this.appReady := appReady;
      currentDirsearch := null;
      events := [];
    }

    /**
     * StartDirsearch: fails without a context, fails with "already running"
     * leaving the existing job as it is, and otherwise installs a fresh job
     * with zero counters.
     */
    method StartDirsearch() returns (err: Option<string>)
      requires Valid()
      modifies this
      ensures Valid()
      ensures !appReady ==> err == Some(NotInitialized) && currentDirsearch == old(currentDirsearch)
      ensures appReady && old(currentDirsearch) != null ==>
        err == Some(AlreadyRunning) && currentDirsearch == old(currentDirsearch)
      ensures appReady && old(currentDirsearch) == null ==>
        err == None && fresh(currentDirsearch) && currentDirsearch != null
        && !currentDirsearch.cancelled && currentDirsearch.scanned == 0 && currentDirsearch.totalPaths == 0
      ensures events == old(events)
    {
      if !appReady {
        return Some(NotInitialized);
      }
      if currentDirsearch != null {
        return Some(AlreadyRunning);
      }
      currentDirsearch := new DirsearchControl();
      return None;
    }

    /** The path callback: ignored without a job, otherwise one "path-found" event. */
    method OnPathFound(info: Dirsearch.PathInfo)
      modifies this
      ensures currentDirsearch == old(currentDirsearch)
      ensures currentDirsearch == null ==> events == old(events)
      ensures currentDirsearch != null ==> events == old(events) + [PathFound(ToPathResult(info))]
    {
      if currentDirsearch != null {
        events := events + [PathFound(ToPathResult(info))];
      }
    }

    /** The progress callback: ignored without a job, otherwise it overwrites both counters (as int32) and reports them. */
    method OnProgress(current: int, total: int)
      requires Valid()
      modifies this, currentDirsearch
      ensures Valid()
      ensures currentDirsearch == old(currentDirsearch)
      ensures currentDirsearch == null ==> events == old(events)
      ensures currentDirsearch != null ==>
        currentDirsearch.scanned == Int32.Wrap(current) && currentDirsearch.totalPaths == Int32.Wrap(total)
        && currentDirsearch.cancelled == old(currentDirsearch.cancelled)
        && events == old(events) + [DirProgress(current, total, None)]
    {
      if currentDirsearch == null {
        return;
      }
      currentDirsearch.scanned := Int32.Wrap(current);
      currentDirsearch.totalPaths := Int32.Wrap(total);
      events := events + [DirProgress(current, total, None)];
    }

    /** The end of the goroutine: the outcome's status events, then the deferred reset to idle. */
    method OnScanFinished(outcome: ScanOutcome)
      modifies this
      ensures Valid()
      ensures currentDirsearch == null
      ensures events == old(events) + FinishEvents(outcome) + [DirStatus(Idle)]
    {
      events := events + FinishEvents(outcome);
      currentDirsearch := null;
      events := events + [DirStatus(Idle)];
    }

    /** StopDirsearch: cancels a running job and reports "stopping"; fails when idle. */
    method StopDirsearch() returns (err: Option<string>)
      requires Valid()
      modifies this, currentDirsearch
      ensures Valid()
      ensures currentDirsearch == old(currentDirsearch)
      ensures currentDirsearch == null ==> err == Some(NotRunning) && events == old(events)
      ensures currentDirsearch != null ==>
        err == None && currentDirsearch.cancelled
        && currentDirsearch.scanned == old(currentDirsearch.scanned)
        && currentDirsearch.totalPaths == old(currentDirsearch.totalPaths)
        && events == old(events) + [DirStatus("stopping"),
                                    DirProgress(currentDirsearch.scanned, currentDirsearch.totalPaths, None)]
    {
      if currentDirsearch == null {
        return Some(NotRunning);
      }
      currentDirsearch.cancelled := true;
      events := events + [DirStatus("stopping"),
                          DirProgress(currentDirsearch.scanned, currentDirsearch.totalPaths, None)];
      return None;
    }

    /** GetDirsearchStatus: "running" exactly when a job exists. */
    method GetDirsearchStatus() returns (status: string)
      ensures status == Running <==> currentDirsearch != null
      ensures status == Idle <==> currentDirsearch == null
    {
      status := if currentDirsearch != null then Running else Idle;
    }

    /** GetDirsearchProgress: zeros when idle, otherwise the stored counters. */
    method GetDirsearchProgress() returns (p: DirsearchProgress)
      ensures currentDirsearch == null ==> p == DirsearchProgress(0, 0)
      ensures currentDirsearch != null ==> p == DirsearchProgress(currentDirsearch.scanned, currentDirsearch.totalPaths)
    {
      if currentDirsearch == null {
        return DirsearchProgress(0, 0);
      }
      return DirsearchProgress(currentDirsearch.scanned, currentDirsearch.totalPaths);
    }
  }

  /**
   * A second start while a job runs is refused and the first job keeps its
   * counters; once the job is stopped and its goroutine has ended with
   * context.Canceled, a start succeeds again.
   */
  method RejectWhileRunning(current: int, total: int)
    returns (second: Option<string>, progress: DirsearchProgress, third: Option<string>)
    ensures second == Some(AlreadyRunning)
    ensures progress == DirsearchProgress(Int32.Wrap(current), Int32.Wrap(total))
    ensures third == None
  {
    var c := new DirsearchController(true);
    var first := c.StartDirsearch();
    c.OnProgress(current, total);
    second := c.StartDirsearch();
    progress := c.GetDirsearchProgress();
    var stopped := c.StopDirsearch();
    c.OnScanFinished(Canceled);
    third := c.StartDirsearch();
  }
}
