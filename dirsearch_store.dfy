/**
 * frontend/src/stores/dirsearchStore.js: the Pinia store behind the
 * directory-scan page. State fields the actions assign raw from their
 * arguments hold JavaScript values; the counters only ever hold numbers.
 */
module DirsearchStore {
  import opened Js

  /** One row of foundPaths: the five fields addPath copies. */
  datatype FoundPath = FoundPath(path: JsValue, fullUrl: JsValue, statusCode: JsValue,
                                 contentType: JsValue, contentLength: JsValue)

  /** The row addPath builds from an object: its path, fullUrl, statusCode, contentType and contentLength. */
  function Record(o: JsObject): FoundPath {
    FoundPath(Get(o, "path"), Get(o, "fullUrl"), Get(o, "statusCode"), Get(o, "contentType"), Get(o, "contentLength"))
  }

  /** What exportResults returns, without its timestamp. */
  datatype ExportedScan = ExportedScan(totalScanned: int, foundPaths: seq<FoundPath>)

  /**
   * The scanProgress getter: 0 without a positive total, otherwise
   * Math.round(100 * scanned / total) capped at 99, so it never reads 100.
   * Math.round(x) is floor(x + 1/2), here computed exactly on integers.
   */
  function Percent(scanned: int, total: int): (p: int)
    ensures p <= 99
    ensures total <= 0 ==> p == 0
    ensures total > 0 && scanned >= 0 ==> p >= 0
    ensures total > 0 && p < 99 ==> (2 * p - 1) * total <= 200 * scanned < (2 * p + 1) * total
    ensures total > 0 ==> (p == 99 <==> 200 * scanned >= 197 * total)
  {
    if total <= 0 then 0
    else
      var rounded := (200 * scanned + total) / (2 * total);
      RoundedBounds(scanned, total, rounded);
      if rounded < 99 then rounded else 99
  }

  /** The floor quotient of 200 s + t by 2 t brackets 200 s within t of 2 q t. */
  lemma RoundedBounds(scanned: int, total: int, q: int)
    requires total > 0 && q == (200 * scanned + total) / (2 * total)
    ensures (2 * q - 1) * total <= 200 * scanned < (2 * q + 1) * total
    ensures q >= 99 <==> 200 * scanned >= 197 * total
    ensures scanned >= 0 ==> q >= 0
  {
    var r := (200 * scanned + total) % (2 * total);
    assert 200 * scanned + total == q * (2 * total) + r && 0 <= r < 2 * total;
    assert q * (2 * total) == 2 * q * total;
    assert 200 * scanned == 2 * q * total + r - total;
    assert (2 * q - 1) * total == 2 * q * total - total;
    assert (2 * q + 1) * total == 2 * q * total + total;
    if q >= 99 {
      MulMonotone(197, 2 * q - 1, total);
    } else {
      MulMonotone(2 * q + 1, 197, total);
    }
    if q < 0 {
      MulMonotone(2 * q + 1, -1, total);
    }
  }

  lemma MulMonotone(a: int, b: int, c: int)
    requires a <= b && c > 0
    ensures a * c <= b * c
  {
    assert b * c - a * c == (b - a) * c;
  }

  class DirsearchStore {
    var foundPaths: seq<FoundPath>
    var scannedPaths: int
    var totalPaths: int
    var showProgress: bool
    var isScanning: JsValue
    var sortProp: JsValue
    var sortOrder: JsValue
    var scanStatus: JsValue

    /** A terminal status never goes with a scan still marked running. */
    ghost predicate Valid()
      reads this
    {
      IsTerminal(scanStatus) ==> !Truthy(isScanning)
    }

    /** The state() function: nothing found, zero counters, no progress bar, idle. */
    constructor ()
      ensures Valid()
      ensures foundPaths == [] && scannedPaths == 0 && totalPaths == 0 && !showProgress
      ensures isScanning == Bool(false) && sortProp == Null && sortOrder == Null && scanStatus == Str("idle")
    {
      foundPaths, scannedPaths, totalPaths, showProgress := [], 0, 0, false;
      isScanning, sortProp, sortOrder, scanStatus := Bool(false), Null, Null, Str("idle");
    }

    /** The scanProgress getter. */
    function ScanProgress(): (p: int)
      reads this
      ensures p == Percent(scannedPaths, totalPaths)
      ensures p < 100
    {
      Percent(scannedPaths, totalPaths)
    }

    /** resetScan clears results, counters and the running flag, leaving the progress bar and sort order alone. */
    method ResetScan()
      modifies this
      ensures Valid()
      ensures foundPaths == [] && scannedPaths == 0 && totalPaths == 0
      ensures isScanning == Bool(false) && scanStatus == Str("idle")
      ensures showProgress == old(showProgress) && sortProp == old(sortProp) && sortOrder == old(sortOrder)
    {
      foundPaths := [];
      scannedPaths := 0;
      totalPaths := 0;
      isScanning := Bool(false);
      scanStatus := Str("idle");
    }

    /**
     * setIsScanning stores its argument; a truthy one starts a scan and shows
     * the progress bar, a falsy one turns "scanning" into "cancelled" and
     * leaves any other status as it was.
     */
    method SetIsScanning(value: JsValue)
      requires Valid()
      modifies this
      ensures Valid()
      ensures isScanning == value
      ensures Truthy(value) ==> scanStatus == Str("scanning") && showProgress
      ensures !Truthy(value) ==> showProgress == old(showProgress)
      ensures !Truthy(value) ==>
        scanStatus == (if old(scanStatus) == Str("scanning") then Str("cancelled") else old(scanStatus))
      ensures foundPaths == old(foundPaths) && scannedPaths == old(scannedPaths) && totalPaths == old(totalPaths)
      ensures sortProp == old(sortProp) && sortOrder == old(sortOrder)
    {
      isScanning := value;
      if !Truthy(value) {
        if scanStatus == Str("scanning") {
          scanStatus := Str("cancelled");
        }
      } else {
        scanStatus := Str("scanning");
        showProgress := true;
      }
    }

    /** setScanStatus stores the status; a terminal one also clears the running flag. */
    method SetScanStatus(status: JsValue)
      requires Valid()
      modifies this
      ensures Valid()
      ensures scanStatus == status
      ensures IsTerminal(status) ==> isScanning == Bool(false)
      ensures !IsTerminal(status) ==> isScanning == old(isScanning)
      ensures foundPaths == old(foundPaths) && scannedPaths == old(scannedPaths) && totalPaths == old(totalPaths)
      ensures showProgress == old(showProgress) && sortProp == old(sortProp) && sortOrder == old(sortOrder)
    {
      scanStatus := status;
      if IsTerminal(status) {
        isScanning := Bool(false);
      }
    }

    /** setShowProgress can show the progress bar but never hide it. */
    method SetShowProgress(value: JsValue)
      modifies this
      ensures showProgress == (old(showProgress) || Truthy(value))
      ensures old(showProgress) ==> showProgress
      ensures foundPaths == old(foundPaths) && scannedPaths == old(scannedPaths) && totalPaths == old(totalPaths)
      ensures isScanning == old(isScanning) && scanStatus == old(scanStatus)
      ensures sortProp == old(sortProp) && sortOrder == old(sortOrder)
    {
      if Truthy(value) {
        showProgress := true;
      }
    }

    /** setScannedPaths accepts any number and ignores everything else. */
    method SetScannedPaths(value: JsValue)
      modifies this
      ensures scannedPaths == (if value.Number? then value.n else old(scannedPaths))
      ensures foundPaths == old(foundPaths) && totalPaths == old(totalPaths) && showProgress == old(showProgress)
      ensures isScanning == old(isScanning) && scanStatus == old(scanStatus)
      ensures sortProp == old(sortProp) && sortOrder == old(sortOrder)
    {
      if value.Number? {
        scannedPaths := value.n;
      }
    }

    /** setTotalPaths accepts only positive numbers. */
    method SetTotalPaths(value: JsValue)
      modifies this
      ensures totalPaths == (if value.Number? && value.n > 0 then value.n else old(totalPaths))
      ensures foundPaths == old(foundPaths) && scannedPaths == old(scannedPaths) && showProgress == old(showProgress)
      ensures isScanning == old(isScanning) && scanStatus == old(scanStatus)
      ensures sortProp == old(sortProp) && sortOrder == old(sortOrder)
    {
      if value.Number? && value.n > 0 {
        totalPaths := value.n;
      }
    }

    /** clearFoundPaths empties the results and nothing else. */
    method ClearFoundPaths()
      modifies this
      ensures foundPaths == []
      ensures scannedPaths == old(scannedPaths) && totalPaths == old(totalPaths) && showProgress == old(showProgress)
      ensures isScanning == old(isScanning) && scanStatus == old(scanStatus)
      ensures sortProp == old(sortProp) && sortOrder == old(sortOrder)
    {
      foundPaths := [];
    }

    /**
     * addPath reads the argument's five fields and appends one record of
     * them; on null or undefined the first read throws a TypeError before
     * anything changes.
     */
    method AddPath(pathInfo: Argument) returns (threw: bool)
      modifies this
      ensures threw <==> pathInfo.NullOrUndefined?
      ensures threw ==> foundPaths == old(foundPaths)
      ensures pathInfo.Fields? ==> foundPaths == old(foundPaths) + [Record(pathInfo.fields)]
      ensures scannedPaths == old(scannedPaths) && totalPaths == old(totalPaths) && showProgress == old(showProgress)
      ensures isScanning == old(isScanning) && scanStatus == old(scanStatus)
      ensures sortProp == old(sortProp) && sortOrder == old(sortOrder)
    {
      if pathInfo.NullOrUndefined? {
        return true;
      }
      threw := false;
      foundPaths := foundPaths + [Record(pathInfo.fields)];
    }

    /**
     * setSortConfig destructures { prop, order } from its argument, which
     * throws a TypeError on null or undefined before anything changes;
     * otherwise it sets both fields, or clears both when either is falsy.
     */
    method SetSortConfig(arg: Argument) returns (threw: bool)
      modifies this
      ensures threw <==> arg.NullOrUndefined?
      ensures threw ==> sortProp == old(sortProp) && sortOrder == old(sortOrder)
      ensures arg.Fields? && Truthy(Get(arg.fields, "prop")) && Truthy(Get(arg.fields, "order")) ==>
        sortProp == Get(arg.fields, "prop") && sortOrder == Get(arg.fields, "order")
      ensures arg.Fields? && !(Truthy(Get(arg.fields, "prop")) && Truthy(Get(arg.fields, "order"))) ==>
        sortProp == Null && sortOrder == Null
      ensures foundPaths == old(foundPaths) && scannedPaths == old(scannedPaths) && totalPaths == old(totalPaths)
      ensures showProgress == old(showProgress) && isScanning == old(isScanning) && scanStatus == old(scanStatus)
    {
      if arg.NullOrUndefined? {
        return true;
      }
      var prop, order := Get(arg.fields, "prop"), Get(arg.fields, "order");
      threw := false;
      if !Truthy(prop) || !Truthy(order) {
        sortProp := Null;
        sortOrder := Null;
        return;
      }
      sortProp := prop;
      sortOrder := order;
    }

    /** setComplete ends the scan as completed. */
    method SetComplete()
      modifies this
      ensures Valid()
      ensures isScanning == Bool(false) && scanStatus == Str("completed")
      ensures foundPaths == old(foundPaths) && scannedPaths == old(scannedPaths) && totalPaths == old(totalPaths)
      ensures showProgress == old(showProgress) && sortProp == old(sortProp) && sortOrder == old(sortOrder)
    {
      isScanning := Bool(false);
      scanStatus := Str("completed");
    }

    /** exportResults reports the scanned count and the found paths, changing nothing. */
    method ExportResults() returns (r: ExportedScan)
      ensures r.totalScanned == scannedPaths && r.foundPaths == foundPaths
    {
      r := ExportedScan(scannedPaths, foundPaths);
    }
  }

  /**
   * A scan the back end reports completed stays completed when the page then
   * clears its running flag, while a scan still running becomes cancelled.
   */
  method CompletedNotCancelled() returns (afterCompleted: JsValue, afterRunning: JsValue)
    ensures afterCompleted == Str("completed")
    ensures afterRunning == Str("cancelled")
  {
    var s := new DirsearchStore();
    s.SetIsScanning(Bool(true));
    s.SetScanStatus(Str("completed"));
    s.SetIsScanning(Bool(false));
    afterCompleted := s.scanStatus;
    var t := new DirsearchStore();
    t.SetIsScanning(Bool(true));
    t.SetIsScanning(Bool(false));
    afterRunning := t.scanStatus;
  }

  /**
   * Starting a scan shows the progress bar, and neither resetting nor a
   * request to hide it takes it away; a zero total is ignored, so the
   * progress of a fresh scan reads 0.
   */
  method ProgressBarSticks() returns (shown: bool, progress: int)
    ensures shown
    ensures progress == 0
  {
    var s := new DirsearchStore();
    s.SetIsScanning(Bool(true));
    s.ResetScan();
    s.SetShowProgress(Bool(false));
    s.SetTotalPaths(Number(0));
    s.SetScannedPaths(Number(5));
    shown := s.showProgress;
    progress := s.ScanProgress();
  }
}
