/**
 * The JSON-shaped records exchanged between the agent, the backend and the
 * dashboard: devices with their hardware and installed apps, scan
 * configurations, the structured per-device scan report, and the view the
 * dashboard has of a stored scan's `results` array (which may hold either the
 * structured report or a legacy flat finding list).
 */
module Inventory {
  import opened Wrappers

  /** The `version` of an app record: key absent, JSON null, or a text. */
  datatype Version = NoVersion | NullVersion | VersionText(text: string)

  /** One element of `installed_apps`: a `{name, version}` record, as the agent
   *  sends it, or a "name version" string, as the manual form sends it. */
  datatype App = AppRecord(name: string, version: Version) | AppText(text: string)

  /** The `cpu` object of a device's hardware; `{}` is `Cpu(None, None)`. */
  datatype Cpu = Cpu(model: Option<string>, cores: Option<nat>)

  /** A device's `hardware` object. A RAM size is carried as its decimal
   *  rendering; `None` stands for an absent, null or zero size, so `Some`
   *  holds a non-zero number or a string. */
  datatype Hardware = Hardware(cpu: Option<Cpu>, ramTotalGb: Option<string>, ramUsedGb: Option<string>)

  /** The hardware object `{}`. */
  const EmptyHardware := Hardware(None, None, None)

  /** A stored device (its `last_seen` timestamp is not modelled). */
  datatype Device = Device(
    id: string,
    name: string,
    deviceType: string,
    source: string,
    ip: string,
    os: string,
    hardware: Hardware,
    installedApps: seq<App>,
    agentId: Option<string>)

  /** One element of a scan request's `device_configs`; a missing key is
   *  `None`, and a JSON null flag reads as `Some(false)` since flags are only
   *  ever tested for truthiness. */
  datatype ScanConfig = ScanConfig(deviceId: Option<string>, scanSoftware: Option<bool>, scanHardware: Option<bool>)

  /** A CVE finding attached to a report item. */
  datatype Threat = Threat(cveId: string, severity: string, description: string, source: string, sourceUrl: string)

  /** One row of a structured device report. */
  datatype ReportItem = ReportItem(name: string, installedVersion: string, latestVersion: string, threat: Option<Threat>)

  /** The structured per-device report the backend produces. */
  datatype DeviceReport = DeviceReport(deviceId: string, deviceName: string, software: seq<ReportItem>, hardware: seq<ReportItem>)

  /** A stored scan record. `device_configs` and `cve_sites` are added after
   *  the record was created, so they are optional here. */
  datatype ThreatScan = ThreatScan(
    id: string,
    deviceIds: seq<string>,
    status: string,
    results: seq<DeviceReport>,
    deviceConfigs: Option<seq<ScanConfig>>,
    cveSites: Option<seq<string>>)

  /** A `{id, name}` entry of the CVE source catalog. */
  datatype SourceEntry = SourceEntry(id: string, name: string)

  // ---- The dashboard's view of a stored scan's `results` ----

  /** A threat as the dashboard reads it: its severity may be absent. */
  datatype ThreatView = ThreatView(cveId: string, severity: Option<string>, description: string, sourceUrl: Option<string>)

  /** A software or hardware row as the dashboard reads it. */
  datatype ItemView = ItemView(name: string, installedVersion: string, latestVersion: string, threat: Option<ThreatView>)

  /** The value of a result element's `software` or `hardware` key: absent or
   *  null, an array of rows, or a string (a non-array value). */
  datatype Field = Missing | Items(items: seq<ItemView>) | Text(text: string)

  /** One element of `results`. A structured entry has `software`/`hardware`
   *  arrays; a legacy finding has neither but carries a `severity`. */
  datatype ResultEntry = ResultEntry(deviceName: string, software: Field, hardware: Field, severity: Option<string>)

  /** A scan record as the dashboard reads it; `results` may be absent. */
  datatype ScanView = ScanView(id: string, results: Option<seq<ResultEntry>>)

  function ThreatToView(t: Threat): ThreatView
  {
    ThreatView(t.cveId, Some(t.severity), t.description, Some(t.sourceUrl))
  }

  function ItemToView(i: ReportItem): ItemView
  {
    ItemView(i.name, i.installedVersion, i.latestVersion,
             if i.threat.Some? then Some(ThreatToView(i.threat.value)) else None)
  }

  function ItemsToView(items: seq<ReportItem>): (r: seq<ItemView>)
    ensures |r| == |items|
    ensures forall k :: 0 <= k < |items| ==> r[k] == ItemToView(items[k])
  {
    seq(|items|, k requires 0 <= k < |items| => ItemToView(items[k]))
  }

  /** How a stored device report reads once serialised to JSON. */
  function ReportToView(r: DeviceReport): ResultEntry
  {
    ResultEntry(r.deviceName, Items(ItemsToView(r.software)), Items(ItemsToView(r.hardware)), None)
  }

  /** How a stored scan record reads once serialised to JSON. */
  function ScanToView(s: ThreatScan): (v: ScanView)
    ensures v.id == s.id && v.results.Some? && |v.results.value| == |s.results|
    ensures forall k :: 0 <= k < |s.results| ==> v.results.value[k] == ReportToView(s.results[k])
  {
    ScanView(s.id, Some(seq(|s.results|, k requires 0 <= k < |s.results| => ReportToView(s.results[k]))))
  }

  // ---- HTTP responses of the backend handlers ----

  datatype Body =
    | DeviceBody(device: Device)
    | ScanBody(scan: ThreatScan)
    | ErrorBody(message: string)
    | NoBody
    | ServerError  // an uncaught exception: the framework's own 500 page

  datatype Response = Response(status: nat, body: Body)
}
