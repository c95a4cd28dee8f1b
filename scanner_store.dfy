/**
 * frontend/src/stores/scannerStore.js: the Pinia store behind the port-scan
 * page. scannedPorts only ever holds a number.
 */
module ScannerStore {
  import opened Js

  class ScannerStore {
    var openPorts: seq<JsValue>
    var scannedPorts: int
    var showProgress: JsValue
    var scanComplete: JsValue
    var target: JsValue

    /** scannedPorts counts the ports added since the last reset. */
    ghost predicate Valid()
      reads this
    {
      scannedPorts == |openPorts|
    }

    /** The state() function: no ports, no progress bar, not complete, empty target. */
    constructor ()
      ensures Valid()
      ensures openPorts == [] && scannedPorts == 0
      ensures showProgress == Bool(false) && scanComplete == Bool(false) && target == Str("")
    {
      openPorts, scannedPorts := [], 0;
      showProgress, scanComplete, target := Bool(false), Bool(false), Str("");
    }

    /** resetScan clears ports and flags but keeps the target of the last scan. */
    method ResetScan()
      modifies this
      ensures Valid()
      ensures openPorts == [] && scannedPorts == 0
      ensures showProgress == Bool(false) && scanComplete == Bool(false)
      ensures target == old(target)
    {
      openPorts := [];
      scannedPorts := 0;
      showProgress := Bool(false);
      scanComplete := Bool(false);
    }

    /** setTarget changes only the target. */
    method SetTarget(value: JsValue)
      modifies this
      ensures target == value
      ensures openPorts == old(openPorts) && scannedPorts == old(scannedPorts)
      ensures showProgress == old(showProgress) && scanComplete == old(scanComplete)
    {
      target := value;
    }

    /** addPort appends the port and counts it. */
    method AddPort(portInfo: JsValue)
      requires Valid()
      modifies this
      ensures Valid()
      ensures openPorts == old(openPorts) + [portInfo] && scannedPorts == old(scannedPorts) + 1
      ensures showProgress == old(showProgress) && scanComplete == old(scanComplete) && target == old(target)
    {
      openPorts := openPorts + [portInfo];
      scannedPorts := scannedPorts + 1;
    }

    /** setScanComplete sets exactly scanComplete. */
    method SetScanComplete(value: JsValue)
      modifies this
      ensures scanComplete == value
      ensures openPorts == old(openPorts) && scannedPorts == old(scannedPorts)
      ensures showProgress == old(showProgress) && target == old(target)
    {
      scanComplete := value;
    }

    /** setShowProgress sets exactly showProgress. */
    method SetShowProgress(value: JsValue)
      modifies this
      ensures showProgress == value
      ensures openPorts == old(openPorts) && scannedPorts == old(scannedPorts)
      ensures scanComplete == old(scanComplete) && target == old(target)
    {
      showProgress := value;
    }
  }

  /**
   * A new scan on the same target: resetting drops the earlier ports but
   * keeps the target, and each port added afterwards is listed and counted.
   */
  method RescanSameTarget(target: JsValue, old1: JsValue, p: JsValue, q: JsValue)
    returns (listed: seq<JsValue>, count: int, kept: JsValue)
    ensures listed == [p, q] && count == 2
    ensures kept == target
  {
    var s := new ScannerStore();
    s.SetTarget(target);
    s.AddPort(old1);
    s.ResetScan();
    s.AddPort(p);
    s.AddPort(q);
    listed, count, kept := s.openPorts, s.scannedPorts, s.target;
  }
}
