/**
 * The threat-scan page: which of the two report schemas a stored scan uses,
 * the progress ticker shown while a scan runs, the state changes around a
 * scan request, and the expanded-scan toggle of the history list.
 */
module ThreatsPage {
  import opened Wrappers
  import opened Inventory

  // ---- The report-schema test ----

  /** `isNewReportFormat`: only the first element decides; absent or empty
   *  results are legacy. */
  function IsNewReportFormat(results: Option<seq<ResultEntry>>): (b: bool)
    ensures results.None? || results.value == [] ==> !b
    ensures results.Some? && results.value != [] ==>
      (b <==> results.value[0].software.Items? || results.value[0].hardware.Items?)
  {
    if results.None? || |results.value| == 0 then false
    else
      var first := results.value[0];
      first.software.Items? || first.hardware.Items?
  }

  /** Only the first element is looked at. */
  lemma FirstDecides(first: ResultEntry, rest1: seq<ResultEntry>, rest2: seq<ResultEntry>)
    ensures IsNewReportFormat(Some([first] + rest1)) == IsNewReportFormat(Some([first] + rest2))
  {
    assert ([first] + rest1)[0] == first && ([first] + rest2)[0] == first;
  }

  /** Every scan the backend stores now reads as the structured schema,
   *  unless it has no reports. */
  lemma StoredScansAreStructured(s: ThreatScan)
    ensures IsNewReportFormat(ScanToView(s).results) <==> s.results != []
  {
    if s.results != [] {
      assert ScanToView(s).results.value[0] == ReportToView(s.results[0]);
    }
  }

  // ---- The progress ticker ----

  const ScanDurationMs := 5000

  const ProgressSteps: seq<string> := [
    "Connecting to devices...",
    "Scanning software components...",
    "Checking hardware & firmware...",
    "Querying CVE databases...",
    "Generating report..."]

  /** `Math.min(100, (elapsed / SCAN_DURATION_MS) * 100)`, in exact
   *  arithmetic. */
  function ProgressPct(elapsed: int): (pct: real)
    ensures 0 <= elapsed ==> 0.0 <= pct <= 100.0
    ensures elapsed >= ScanDurationMs ==> pct == 100.0
    ensures elapsed < ScanDurationMs ==> pct < 100.0
  {
    var raw := (elapsed as real) / (ScanDurationMs as real) * 100.0;
    if raw < 100.0 then raw else 100.0
  }

  lemma ProgressMonotone(e1: int, e2: int)
    requires e1 <= e2
    ensures ProgressPct(e1) <= ProgressPct(e2)
  {
  }

  /** Milliseconds per phase: the duration split evenly over the steps. */
  const PhaseMs := ScanDurationMs / |ProgressSteps|

  /** The phase index `Math.min(4, Math.floor(elapsed / 5000 * 5))`, that
   *  is, one phase per `PhaseMs`; a negative elapsed time (a clock set
   *  back) gives a negative index. */
  function StepIndex(elapsed: int): (i: int)
    ensures 0 <= elapsed ==> 0 <= i < |ProgressSteps|
    ensures i == |ProgressSteps| - 1 <==> elapsed >= PhaseMs * (|ProgressSteps| - 1)
    ensures elapsed < ScanDurationMs ==> i * PhaseMs <= elapsed < (i + 1) * PhaseMs
  {
    var raw := elapsed / PhaseMs;
    if raw < |ProgressSteps| - 1 then raw else |ProgressSteps| - 1
  }

  lemma StepMonotone(e1: int, e2: int)
    requires e1 <= e2
    ensures StepIndex(e1) <= StepIndex(e2)
  {
  }

  /** The message shown: the phase's text, or the last one when the index
   *  falls outside the list. */
  function ScanMessage(elapsed: int): (m: string)
    ensures m in ProgressSteps
    ensures 0 <= elapsed ==> m == ProgressSteps[StepIndex(elapsed)]
    ensures elapsed >= ScanDurationMs ==> m == ProgressSteps[|ProgressSteps| - 1]
  {
    var i := StepIndex(elapsed);
    if 0 <= i then ProgressSteps[i] else ProgressSteps[|ProgressSteps| - 1]
  }

  // ---- Rendering dispatch ----

  /** What a scan's expanded card shows. */
  datatype Report = Detail(devices: seq<ResultEntry>) | NoFindings | Legacy(findings: seq<ResultEntry>)

  /** `renderDetailReport`: the per-device report, or null. */
  function RenderDetail(scan: ScanView): Option<Report>
  {
    var results := scan.results.GetOr([]);
    if IsNewReportFormat(Some(results)) then Some(Detail(results)) else None
  }

  /** `renderLegacyReport`: null for a structured scan, "No findings." for
   *  an empty one, else the finding table. */
  function RenderLegacy(scan: ScanView): Option<Report>
  {
    var results := scan.results.GetOr([]);
    if IsNewReportFormat(Some(results)) then None
    else if |results| == 0 then Some(NoFindings)
    else Some(Legacy(results))
  }

  /** `renderDetailReport(scan) || renderLegacyReport(scan)`. */
  function Render(scan: ScanView): (r: Report)
    ensures r.Detail? <==> IsNewReportFormat(scan.results)
    ensures r == NoFindings <==> scan.results.GetOr([]) == []
  {
    var d := RenderDetail(scan);
    if d.Some? then d.value else RenderLegacy(scan).value
  }

  /** Exactly one of the two renderers gives something, and empty results
   *  read "No findings.". */
  lemma ExactlyOneRenderer(scan: ScanView)
    ensures RenderDetail(scan).Some? != RenderLegacy(scan).Some?
    ensures scan.results.GetOr([]) == [] ==> RenderLegacy(scan) == Some(NoFindings)
  {
  }

  // ---- Page state ----

  /** What an awaited request gave. */
  datatype Fetch<T> = Fetched(value: T) | FetchFailed(message: string)

  class ScanPage {
    var scans: seq<ScanView>
    var loading: bool
    var scanning: bool
    var scanProgress: real
    var scanMessage: string
    var error: Option<string>
    var expanded: Option<string>

    /** The first render: loading, nothing scanned, nothing expanded. */
    constructor ()
      ensures scans == [] && loading && !scanning && scanProgress == 0.0 && scanMessage == ""
      ensures error.None? && expanded.None?
    {
      scans := [];
      loading := true;
      scanning := false;
      scanProgress := 0.0;
      scanMessage := "";
      error := None;
      expanded := None;
    }

    /** `load`: the listing replaces the scans, or its error is shown;
     *  loading ends either way. */
    method Load(listing: Fetch<seq<ScanView>>)
      modifies this
      ensures !loading
      ensures listing.Fetched? ==> scans == listing.value && error.None?
      ensures listing.FetchFailed? ==> scans == old(scans) && error == Some(listing.message)
      ensures scanning == old(scanning) && scanProgress == old(scanProgress)
      ensures scanMessage == old(scanMessage) && expanded == old(expanded)
    {
      error := None;
      match listing {
        case Fetched(data) => scans := data;
        case FetchFailed(message) => error := Some(message);
      }
      loading := false;
    }

    /** The synchronous start of `handleScanComplete`. */
    method StartScan()
      modifies this
      ensures scanning && scanProgress == 0.0 && scanMessage == ProgressSteps[0] && error.None?
      ensures scans == old(scans) && loading == old(loading) && expanded == old(expanded)
    {
      error := None;
      scanning := true;
      scanProgress := 0.0;
      scanMessage := ProgressSteps[0];
    }

    /** One interval tick, `elapsed` ms after the scan started; a tick while
     *  no scan runs changes nothing, since the interval is then cleared. */
    method Tick(elapsed: int)
      modifies this
      ensures old(scanning) ==> scanProgress == ProgressPct(elapsed) && scanMessage == ScanMessage(elapsed)
      ensures !old(scanning) ==> scanProgress == old(scanProgress) && scanMessage == old(scanMessage)
      ensures scanning == old(scanning) && scans == old(scans) && loading == old(loading)
      ensures error == old(error) && expanded == old(expanded)
    {
      if !scanning {
        return;
      }
      scanProgress := ProgressPct(elapsed);
      scanMessage := ScanMessage(elapsed);
    }

    /** The rest of `handleScanComplete` once the scan request settles: on
     *  success the list is reloaded and the new scan expanded; on failure
     *  the error is shown; either way scanning ends. */
    method FinishScan(result: Fetch<Option<string>>, listing: Fetch<seq<ScanView>>)
      modifies this
      ensures !scanning
      ensures result.Fetched? ==>
        expanded == result.value && !loading &&
        (listing.Fetched? ==> scans == listing.value && error.None?) &&
        (listing.FetchFailed? ==> scans == old(scans) && error == Some(listing.message))
      ensures result.FetchFailed? ==>
        error == Some(result.message) && expanded == old(expanded) && scans == old(scans) && loading == old(loading)
      ensures scanProgress == old(scanProgress) && scanMessage == old(scanMessage)
    {
      match result {
        case Fetched(newScanId) =>
          Load(listing);
          expanded := newScanId;
        case FetchFailed(message) =>
          error := Some(message);
      }
      scanning := false;
    }

    /** A click on a scan's header. */
    method ToggleExpanded(id: string)
      modifies this
      ensures expanded == Toggled(old(expanded), id)
      ensures scans == old(scans) && loading == old(loading) && scanning == old(scanning)
      ensures scanProgress == old(scanProgress) && scanMessage == old(scanMessage) && error == old(error)
    {
      expanded := if expanded == Some(id) then None else Some(id);
    }
  }

  /** `expanded === id ? null : id`. */
  function Toggled(expanded: Option<string>, id: string): Option<string>
  {
    if expanded == Some(id) then None else Some(id)
  }

  /** A click collapses the scan if it is the expanded one; otherwise that
   *  scan, and only that one, is expanded. */
  lemma ToggledExpandsOne(expanded: Option<string>, id: string, other: string)
    requires other != id
    ensures expanded == Some(id) ==> Toggled(expanded, id).None?
    ensures expanded != Some(id) ==> Toggled(expanded, id) == Some(id)
    ensures Toggled(expanded, id) != Some(other)
    ensures Toggled(Toggled(expanded, id), id) == (if expanded == Some(id) then Some(id) else None)
  {
  }
}
