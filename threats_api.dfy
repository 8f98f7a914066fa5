/**
 * The simulated threat scan. For every requested device that exists and has
 * a category switched on, a report lists its installed apps (software) and
 * its CPU and RAM (hardware); each app row and the CPU row may carry a
 * made-up CVE finding that links to one of the selected CVE sites.
 *
 * Every random draw is read from an `Oracle` keyed by the row it belongs to
 * (config index, category, row index). Any run of the random number
 * generator corresponds to some oracle, so the properties proved here hold
 * for every run.
 */
module ThreatsApi {
  import opened Wrappers
  import opened Strings
  import opened Inventory
  import opened Models
  import opened Seqs

  const Severities: seq<string> := ["CRITICAL", "HIGH", "MEDIUM", "LOW"]

  const MockThreats: seq<string> := [
    "Buffer overflow allows remote code execution.",
    "Authentication bypass prior to patched version.",
    "Cross-site scripting vulnerability in web interface.",
    "Out-of-bounds read could lead to information disclosure."]

  /** A catalog entry: a site name and its URL template. Every template
   *  ends in its one replacement field `{cve_id}`, so it is kept as the text
   *  before that field, `urlBase`, and `template.format(cve_id=id)` is
   *  `urlBase + id`. */
  datatype CveSource = CveSource(name: string, urlBase: string)
  {
    function Url(cveId: string): string
    {
      urlBase + cveId
    }
  }

  /** The ten CVE sites, in catalog order; the first is NVD. */
  const CveSources: seq<CveSource> := [
    CveSource("nvd.nist.gov", "https://nvd.nist.gov/vuln/detail/"),
    CveSource("cve.mitre.org", "https://cve.mitre.org/cgi-bin/cvename.cgi?name="),
    CveSource("exploit-db.com", "https://www.exploit-db.com/search?q="),
    CveSource("vulners.com", "https://vulners.com/search?query="),
    CveSource("packetstormsecurity.com", "https://packetstormsecurity.com/search/?q="),
    CveSource("vulncode-db.com", "https://www.vulncode-db.com/"),
    CveSource("securityfocus.com", "https://www.securityfocus.com/bid/"),
    CveSource("redhat.com", "https://access.redhat.com/security/cve/"),
    CveSource("snyk.io", "https://security.snyk.io/vuln/?q="),
    CveSource("osv.dev", "https://osv.dev/list?q=")]

  // ---- Random draws ----

  datatype Part = SoftwarePart | CpuPart

  /** The row a random draw belongs to: which config, which category, which row. */
  datatype Slot = Slot(config: nat, part: Part, item: nat)

  /** The outcome of `_maybe_threat`'s draws: no finding (the 75% branch), or
   *  the raw picks for the CVE number, the site, the severity and the text. */
  datatype ThreatDraw = NoThreat | Hit(cveNumber: nat, sourcePick: nat, severityPick: nat, descriptionPick: nat)

  /** All randomness of a scan: a threat draw per row, and the latest version
   *  `_random_latest_version` reports for a row's installed version. */
  datatype Oracle = Oracle(threat: Slot -> ThreatDraw, latest: (Slot, string) -> string)

  lemma DecimalWidth4(m: nat)
    requires 1000 <= m <= 9999
    ensures |Decimal(m)| == 4
  {
    assert |Decimal(m / 1000)| == 1;
    assert |Decimal(m / 100)| == 2;
    assert |Decimal(m / 10)| == 3;
  }

  /** `f"CVE-2025-{randint(1000, 9999)}"`, the draw taken into range. */
  function CveId(n: nat): (id: string)
    ensures |id| == 13 && StartsWith(id, "CVE-2025-")
    ensures forall i :: 9 <= i < 13 ==> '0' <= id[i] <= '9'
  {
    var m := 1000 + n % 9000;
    DecimalWidth4(m);
    var id := "CVE-2025-" + Decimal(m);
    assert forall i :: 9 <= i < 13 ==> id[i] == Decimal(m)[i - 9];
    id
  }

  /** `_maybe_threat`: nothing unless the draw hits and a site is selected; a
   *  finding names one of the selected sites and links to that site's
   *  template filled with the finding's CVE id. */
  function MaybeThreat(selected: seq<CveSource>, draw: ThreatDraw): (t: Option<Threat>)
    ensures t.Some? <==> selected != [] && draw.Hit?
    ensures t.Some? ==> t.value.severity in Severities && t.value.description in MockThreats
    ensures t.Some? ==> |t.value.cveId| == 13 && StartsWith(t.value.cveId, "CVE-2025-")
    ensures t.Some? ==> exists k :: 0 <= k < |selected| && t.value.source == selected[k].name
                                    && t.value.sourceUrl == selected[k].Url(t.value.cveId)
  {
    if draw.NoThreat? || selected == [] then None
    else
      var id := CveId(draw.cveNumber);
      var src := selected[draw.sourcePick % |selected|];
      Some(Threat(id, Severities[draw.severityPick % |Severities|],
                  MockThreats[draw.descriptionPick % |MockThreats|], src.name, src.Url(id)))
  }

  // ---- App descriptors ----

  /** `str(item.get("version", ""))`. */
  function VersionString(v: Version): string
  {
    match v
    case NoVersion => ""
    case NullVersion => "None"
    case VersionText(t) => t
  }

  /** `_normalize_app` as a (name, version) pair. `None` is the `IndexError`
   *  a blank string containing a space raises, since `split(None, 1)` then
   *  returns no piece to index. */
  function NormalizeApp(app: App): (r: Option<(string, string)>)
    ensures app.AppRecord? ==> r.Some? && r.value.0 == app.name
    ensures app.AppRecord? && app.version.NoVersion? ==> r.value.1 == ""
    ensures app.AppRecord? && app.version.VersionText? ==> r.value.1 == app.version.text
    ensures app.AppRecord? && app.version.NullVersion? ==> r.value.1 == "None"
    ensures app.AppText? ==> (r.None? <==> ' ' in app.text && Blank(app.text))
    ensures app.AppText? && ' ' !in app.text ==> r == Some((app.text, ""))
    ensures app.AppText? && ' ' in app.text && r.Some? ==>
      r.value.0 != [] && (forall i :: 0 <= i < |r.value.0| ==> !IsPySpace(r.value.0[i]))
      && (r.value.1 != [] ==> !IsPySpace(r.value.1[0]))
  {
    match app
    case AppRecord(name, v) => Some((name, VersionString(v)))
    case AppText(s) =>
      if ' ' in s then
        var parts := SplitOnce(s);
        if parts == [] then None else Some((parts[0], if |parts| > 1 then parts[1] else ""))
      else Some((s, ""))
  }

  /** A string with a space splits into a name and a version that give the
   *  string back once the blanks around the name are put back. */
  lemma NormalizeAppRebuild(s: string)
    requires ' ' in s && !Blank(s)
    ensures NormalizeApp(AppText(s)).value.1 == [] ==>
      exists lead, tail :: Blank(lead) && Blank(tail) && s == lead + NormalizeApp(AppText(s)).value.0 + tail
    ensures NormalizeApp(AppText(s)).value.1 != [] ==>
      exists lead, gap :: Blank(lead) && Blank(gap) && gap != []
                          && s == lead + NormalizeApp(AppText(s)).value.0 + gap + NormalizeApp(AppText(s)).value.1
  {
    SplitOnceRebuild(s);
  }

  // ---- Report rows ----

  /** The row of one installed app: its normalised name, its version or "—",
   *  the oracle's latest version ("—" when no version is known), and a
   *  possible finding. `None` when the app cannot be normalised. */
  function SoftwareRow(app: App, slot: Slot, selected: seq<CveSource>, oracle: Oracle): (r: Option<ReportItem>)
    ensures r.None? <==> NormalizeApp(app).None?
    ensures r.Some? ==> r.value.name == NormalizeApp(app).value.0
    ensures r.Some? ==> r.value.installedVersion == if NormalizeApp(app).value.1 == "" then "—" else NormalizeApp(app).value.1
    ensures r.Some? && r.value.installedVersion == "—" ==> r.value.latestVersion == "—"
    ensures r.Some? ==> r.value.threat == MaybeThreat(selected, oracle.threat(slot))
  {
    var n := NormalizeApp(app);
    if n.None? then None
    else
      var installed := if n.value.1 == "" then "—" else n.value.1;
      var latest := if installed == "—" then "—" else oracle.latest(slot, installed);
      Some(ReportItem(n.value.0, installed, latest, MaybeThreat(selected, oracle.threat(slot))))
  }

  /** The rows of `xs`, the row of the element at position `k` being
   *  `row(xs[k], k)`, or `None` as soon as one row cannot be built. */
  function Rows<A, B>(row: (A, nat) -> Option<B>, xs: seq<A>): Option<seq<B>>
  {
    if xs == [] then Some([])
    else
      var last := |xs| - 1;
      var prev := Rows(row, xs[..last]);
      var r := row(xs[last], last);
      if prev.None? || r.None? then None else Some(prev.value + [r.value])
  }

  /** Built rows are one per element, the row of the element at that
   *  position. */
  lemma {:induction false} RowsShape<A, B>(row: (A, nat) -> Option<B>, xs: seq<A>)
    ensures Rows(row, xs).Some? ==> |Rows(row, xs).value| == |xs|
    ensures Rows(row, xs).Some? ==> forall k :: 0 <= k < |xs| ==> row(xs[k], k) == Some(Rows(row, xs).value[k])
  {
    if xs != [] {
      var last := |xs| - 1;
      RowsShape(row, xs[..last]);
      assert forall k :: 0 <= k < last ==> xs[..last][k] == xs[k];
    }
  }

  /** The rows are missing exactly when some element's row is. */
  lemma {:induction false} RowsFail<A, B>(row: (A, nat) -> Option<B>, xs: seq<A>)
    ensures Rows(row, xs).None? <==> exists k :: 0 <= k < |xs| && row(xs[k], k).None?
  {
    if xs != [] {
      var last := |xs| - 1;
      RowsFail(row, xs[..last]);
      assert forall k :: 0 <= k < last ==> xs[..last][k] == xs[k];
    }
  }

  /** One more element extends the rows as `Rows` does at its end. */
  lemma RowsStep<A, B>(row: (A, nat) -> Option<B>, xs: seq<A>, k: nat)
    requires k < |xs|
    ensures Rows(row, xs[..k + 1]) ==
      if Rows(row, xs[..k]).None? || row(xs[k], k).None? then None else Some(Rows(row, xs[..k]).value + [row(xs[k], k).value])
  {
    assert xs[..k + 1][..k] == xs[..k];
  }

  /** The row of the app at position `k` of the config at index `config`. */
  function SoftwareRowAt(config: nat, selected: seq<CveSource>, oracle: Oracle): (App, nat) -> Option<ReportItem>
  {
    (app: App, k: nat) => SoftwareRow(app, Slot(config, SoftwarePart, k), selected, oracle)
  }

  /** The software rows of a device: one per installed app, in app order, or
   *  `None` when some app cannot be normalised. */
  function SoftwareRows(apps: seq<App>, config: nat, selected: seq<CveSource>, oracle: Oracle): (r: Option<seq<ReportItem>>)
    ensures r.Some? ==> |r.value| == |apps|
    ensures r.Some? ==> forall k :: 0 <= k < |apps| ==>
      SoftwareRow(apps[k], Slot(config, SoftwarePart, k), selected, oracle) == Some(r.value[k])
  {
    RowsShape(SoftwareRowAt(config, selected, oracle), apps);
    Rows(SoftwareRowAt(config, selected, oracle), apps)
  }

  /** `cpu.get("model")` is truthy. */
  predicate HasCpuModel(hw: Hardware)
  {
    hw.cpu.Some? && hw.cpu.value.model.Some? && hw.cpu.value.model.value != ""
  }

  /** `hw.get("ram_total_gb")` is truthy. */
  predicate HasRam(hw: Hardware)
  {
    hw.ramTotalGb.Some? && hw.ramTotalGb.value != ""
  }

  /** The hardware rows: a CPU row iff a CPU model is known, then a RAM row
   *  iff a RAM size is known, both "current"; the RAM row never has a finding. */
  function HardwareRows(hw: Hardware, config: nat, selected: seq<CveSource>, oracle: Oracle): (r: seq<ReportItem>)
    ensures |r| == (if HasCpuModel(hw) then 1 else 0) + (if HasRam(hw) then 1 else 0)
    ensures HasCpuModel(hw) ==> r[0].name == hw.cpu.value.model.value
                                && r[0].threat == MaybeThreat(selected, oracle.threat(Slot(config, CpuPart, 0)))
    ensures HasRam(hw) ==> r[|r| - 1] == ReportItem("RAM (" + hw.ramTotalGb.value + " GB)", "current", "current", None)
    ensures forall k :: 0 <= k < |r| ==> r[k].installedVersion == "current" && r[k].latestVersion == "current"
  {
    var cpu := if HasCpuModel(hw)
      then [ReportItem(hw.cpu.value.model.value, "current", "current",
                       MaybeThreat(selected, oracle.threat(Slot(config, CpuPart, 0))))]
      else [];
    var ram := if HasRam(hw)
      then [ReportItem("RAM (" + hw.ramTotalGb.value + " GB)", "current", "current", None)]
      else [];
    cpu + ram
  }

  /** The report `_build_device_report` builds for the config at index
   *  `config`: the device's id and name, the software rows when software is
   *  scanned (else none), the hardware rows when hardware is scanned (else
   *  none). `None` when a software row cannot be built. */
  function DeviceReportOf(d: Device, scanSoftware: bool, scanHardware: bool, config: nat,
                          selected: seq<CveSource>, oracle: Oracle): (r: Option<DeviceReport>)
    ensures r.None? <==> scanSoftware && SoftwareRows(d.installedApps, config, selected, oracle).None?
    ensures r.Some? ==> r.value.deviceId == d.id && r.value.deviceName == d.name
    ensures r.Some? && scanSoftware ==> Some(r.value.software) == SoftwareRows(d.installedApps, config, selected, oracle)
                                        && |r.value.software| == |d.installedApps|
    ensures r.Some? && !scanSoftware ==> r.value.software == []
    ensures r.Some? ==> r.value.hardware == if scanHardware then HardwareRows(d.hardware, config, selected, oracle) else []
    ensures r.Some? ==> |r.value.hardware| <= 2
  {
    var software := if scanSoftware then SoftwareRows(d.installedApps, config, selected, oracle) else Some([]);
    var hardware := if scanHardware then HardwareRows(d.hardware, config, selected, oracle) else [];
    if software.None? then None else Some(DeviceReport(d.id, d.name, software.value, hardware))
  }

  /** The software rows are missing exactly when some app cannot be
   *  normalised. */
  lemma SoftwareRowsFail(apps: seq<App>, config: nat, selected: seq<CveSource>, oracle: Oracle)
    ensures SoftwareRows(apps, config, selected, oracle).None? <==> exists k :: 0 <= k < |apps| && NormalizeApp(apps[k]).None?
  {
    RowsFail(SoftwareRowAt(config, selected, oracle), apps);
  }

  /** The software half of `_build_device_report`: one row per app, appended
   *  in app order; the first app that cannot be normalised aborts. */
  method BuildSoftwareRows(apps: seq<App>, config: nat, selected: seq<CveSource>, oracle: Oracle)
    returns (rows: Option<seq<ReportItem>>)
    ensures rows == SoftwareRows(apps, config, selected, oracle)
  {
    var software: seq<ReportItem> := [];
    var k := 0;
    while k < |apps|
      invariant 0 <= k <= |apps|
      invariant SoftwareRows(apps[..k], config, selected, oracle) == Some(software)
    {
      RowsStep(SoftwareRowAt(config, selected, oracle), apps, k);
      var row := SoftwareRow(apps[k], Slot(config, SoftwarePart, k), selected, oracle);
      if row.None? {
        return None;
      }
      software := software + [row.value];
      k := k + 1;
    }
    assert apps[..k] == apps;
    return Some(software);
  }

  /** `_build_device_report`: the software rows, then the CPU row and the RAM
   *  row as far as they are known. */
  method BuildDeviceReport(device: Device, scanSoftware: bool, scanHardware: bool, config: nat,
                           selected: seq<CveSource>, oracle: Oracle) returns (r: Option<DeviceReport>)
    ensures r == DeviceReportOf(device, scanSoftware, scanHardware, config, selected, oracle)
  {
    var software: seq<ReportItem> := [];
    var hardware: seq<ReportItem> := [];
    if scanSoftware {
      var rows := BuildSoftwareRows(device.installedApps, config, selected, oracle);
      if rows.None? {
        return None;
      }
      software := rows.value;
    }
    if scanHardware {
      var hw := device.hardware;
      if HasCpuModel(hw) {
        hardware := hardware + [ReportItem(hw.cpu.value.model.value, "current", "current",
                                           MaybeThreat(selected, oracle.threat(Slot(config, CpuPart, 0))))];
      }
      if HasRam(hw) {
        hardware := hardware + [ReportItem("RAM (" + hw.ramTotalGb.value + " GB)", "current", "current", None)];
      }
      assert hardware == HardwareRows(hw, config, selected, oracle);
    }
    return Some(DeviceReport(device.id, device.name, software, hardware));
  }

  // ---- Source selection ----

  /** `name_to_tpl[name]` of the dictionary built from `catalog`: the last
   *  entry with that name, or `None` when the name is not a key. */
  function FindSource(catalog: seq<CveSource>, name: string): (r: Option<CveSource>)
    ensures r.Some? ==> r.value in catalog && r.value.name == name
    ensures r.None? <==> forall k :: 0 <= k < |catalog| ==> catalog[k].name != name
  {
    if catalog == [] then None
    else if catalog[|catalog| - 1].name == name then Some(catalog[|catalog| - 1])
    else
      var r := FindSource(catalog[..|catalog| - 1], name);
      assert forall k :: 0 <= k < |catalog| - 1 ==> catalog[..|catalog| - 1][k] == catalog[k];
      r
  }

  /** The entries of `catalog` named in `sites`, in `sites` order (a name
   *  given twice is selected twice); names outside the catalog are dropped. */
  function Named(catalog: seq<CveSource>, sites: seq<string>): (r: seq<CveSource>)
    ensures |r| <= |sites|
    ensures forall s :: s in r ==> s in catalog && s.name in sites
    ensures r == [] <==> forall k :: 0 <= k < |sites| ==> FindSource(catalog, sites[k]).None?
  {
    if sites == [] then []
    else
      var last := |sites| - 1;
      var r := Named(catalog, sites[..last]);
      assert forall k :: 0 <= k < last ==> sites[..last][k] == sites[k];
      var found := FindSource(catalog, sites[last]);
      if found.None? then r else r + [found.value]
  }

  /** Selection is done name by name, so it keeps the order of `sites`. */
  lemma {:induction false} NamedConcat(catalog: seq<CveSource>, a: seq<string>, b: seq<string>)
    ensures Named(catalog, a + b) == Named(catalog, a) + Named(catalog, b)
    decreases |b|
  {
    if b != [] {
      var b' := b[..|b| - 1];
      assert (a + b)[..|a + b| - 1] == a + b';
      assert (a + b)[|a + b| - 1] == b[|b| - 1];
      NamedConcat(catalog, a, b');
    } else {
      assert a + b == a;
    }
  }

  /** `_run_detailed_scan`'s source selection: the catalog entries named in
   *  `cve_sites`, or the first entry (NVD) alone when none is named. */
  function Select(catalog: seq<CveSource>, sites: seq<string>): (sel: seq<CveSource>)
    requires catalog != []
    ensures sel != [] && forall s :: s in sel ==> s in catalog
    ensures Named(catalog, sites) != [] ==> sel == Named(catalog, sites)
    ensures (forall k :: 0 <= k < |sites| ==> FindSource(catalog, sites[k]).None?) ==> sel == [catalog[0]]
  {
    var named := Named(catalog, sites);
    if named == [] then [catalog[0]] else named
  }

  /** The sites a scan draws findings from. */
  function SelectSources(sites: seq<string>): seq<CveSource>
  {
    Select(CveSources, sites)
  }

  /** One more name selects one more entry, when the catalog has it. */
  lemma NamedSnoc(catalog: seq<CveSource>, sites: seq<string>, name: string)
    ensures var found := FindSource(catalog, name);
      Named(catalog, sites + [name]) == Named(catalog, sites) + (if found.Some? then [found.value] else [])
  {
    assert (sites + [name])[..|sites|] == sites;
  }

  /** The names of a list of catalog entries. */
  function SourceNames(catalog: seq<CveSource>): (names: seq<string>)
    ensures |names| == |catalog| && forall k :: 0 <= k < |catalog| ==> names[k] == catalog[k].name
  {
    seq(|catalog|, k requires 0 <= k < |catalog| => catalog[k].name)
  }

  predicate DistinctNames(catalog: seq<CveSource>)
  {
    forall j, k :: 0 <= j < k < |catalog| ==> catalog[j].name != catalog[k].name
  }

  /** In a catalog without repeated names, every entry is found by its name. */
  lemma {:induction false} FindByName(catalog: seq<CveSource>, m: nat)
    requires DistinctNames(catalog) && m < |catalog|
    ensures FindSource(catalog, catalog[m].name) == Some(catalog[m])
    decreases |catalog|
  {
    var last := |catalog| - 1;
    if m < last {
      assert catalog[last].name != catalog[m].name;
      assert catalog[..last][m] == catalog[m];
      FindByName(catalog[..last], m);
    }
  }

  /** Naming the first `m` entries of a catalog without repeated names
   *  selects exactly those entries, in catalog order. */
  lemma {:induction false} NamedCatalogPrefix(catalog: seq<CveSource>, m: nat)
    requires DistinctNames(catalog) && m <= |catalog|
    ensures Named(catalog, SourceNames(catalog)[..m]) == catalog[..m]
  {
    if m > 0 {
      var names := SourceNames(catalog);
      PrefixSnoc(names, m);
      FindByName(catalog, m - 1);
      NamedSnoc(catalog, names[..m - 1], catalog[m - 1].name);
      NamedCatalogPrefix(catalog, m - 1);
      PrefixSnoc(catalog, m);
    }
  }

  /** No two catalog sites share a name. */
  lemma CatalogDistinct()
    ensures DistinctNames(CveSources)
  {
  }

  /** `list_cve_sources`: one `{id, name}` entry per catalog site, both the
   *  site's name, in catalog order. */
  function ListCveSources(): (r: seq<SourceEntry>)
    ensures |r| == |CveSources|
    ensures forall k :: 0 <= k < |r| ==> r[k].id == CveSources[k].name && r[k].name == CveSources[k].name
  {
    seq(|CveSources|, k requires 0 <= k < |CveSources| => SourceEntry(CveSources[k].name, CveSources[k].name))
  }

  /** Naming every site of a catalog without repeats selects the catalog. */
  lemma NamedAll(catalog: seq<CveSource>)
    requires DistinctNames(catalog)
    ensures Named(catalog, SourceNames(catalog)) == catalog
  {
    NamedCatalogPrefix(catalog, |catalog|);
    assert SourceNames(catalog)[..|catalog|] == SourceNames(catalog);
    assert catalog[..|catalog|] == catalog;
  }

  /** The ids `list_cve_sources` offers, in catalog order. */
  function ListedIds(): (ids: seq<string>)
    ensures ids == SourceNames(CveSources)
  {
    var l := ListCveSources();
    seq(|l|, k requires 0 <= k < |l| => l[k].id)
  }

  /** Submitting every listed id as `cve_sites` selects the whole catalog. */
  lemma SelectAllListed()
    ensures SelectSources(ListedIds()) == CveSources
  {
    CatalogDistinct();
    NamedAll(CveSources);
  }

  /** A finding of a scan always names a catalog site and links to that
   *  site's base URL followed by the CVE id. */
  lemma ThreatLinksCatalog(sites: seq<string>, draw: ThreatDraw)
    requires MaybeThreat(SelectSources(sites), draw).Some?
    ensures var t := MaybeThreat(SelectSources(sites), draw).value;
      exists k :: 0 <= k < |CveSources| && t.source == CveSources[k].name && t.sourceUrl == CveSources[k].urlBase + t.cveId
  {
    var sel := SelectSources(sites);
    var t := MaybeThreat(sel, draw).value;
    var j :| 0 <= j < |sel| && t.source == sel[j].name && t.sourceUrl == sel[j].Url(t.cveId);
    assert sel[j] in sel;
    var k :| 0 <= k < |CveSources| && CveSources[k] == sel[j];
  }

  // ---- The detailed scan ----

  /** The device a config refers to: `get_device(cfg.get("device_id"))`. */
  function ConfigDevice(ds: seq<Device>, cfg: ScanConfig): (r: Option<Device>)
    ensures r.Some? ==> cfg.deviceId.Some? && r.value in ds && r.value.id == cfg.deviceId.value
    ensures r.None? <==> cfg.deviceId.None? || forall k :: 0 <= k < |ds| ==> ds[k].id != cfg.deviceId.value
  {
    if cfg.deviceId.None? then None
    else
      var i := IndexOfId(ds, cfg.deviceId.value);
      if i < 0 then None else Some(ds[i])
  }

  /** A config is scanned when its device exists and at least one of its
   *  flags is on; a missing flag counts as on. */
  predicate Runs(ds: seq<Device>, cfg: ScanConfig)
  {
    ConfigDevice(ds, cfg).Some? && (cfg.scanSoftware.GetOr(true) || cfg.scanHardware.GetOr(true))
  }

  /** The positions of `xs` whose element is kept, in increasing order. */
  function Picked<A>(keep: (A, nat) -> bool, xs: seq<A>): (e: seq<nat>)
    ensures forall j :: 0 <= j < |e| ==> e[j] < |xs| && keep(xs[e[j]], e[j])
    ensures forall j, j' :: 0 <= j < j' < |e| ==> e[j] < e[j']
    ensures forall k :: 0 <= k < |xs| && keep(xs[k], k) ==> k in e
  {
    if xs == [] then []
    else
      var last := |xs| - 1;
      var e := Picked(keep, xs[..last]);
      assert forall k :: 0 <= k < last ==> xs[..last][k] == xs[k];
      if keep(xs[last], last) then e + [last] else e
  }

  /** The rows of the kept elements of `xs`, in order, or `None` as soon as
   *  a kept element's row cannot be built; other elements are skipped. */
  function Collect<A, B>(keep: (A, nat) -> bool, row: (A, nat) -> Option<B>, xs: seq<A>): Option<seq<B>>
  {
    if xs == [] then Some([])
    else
      var last := |xs| - 1;
      var prev := Collect(keep, row, xs[..last]);
      if prev.None? then None
      else if !keep(xs[last], last) then prev
      else if row(xs[last], last).None? then None
      else Some(prev.value + [row(xs[last], last).value])
  }

  /** One more element extends the collected rows as `Collect` does at its
   *  end. */
  lemma CollectStep<A, B>(keep: (A, nat) -> bool, row: (A, nat) -> Option<B>, xs: seq<A>, k: nat)
    requires k < |xs|
    ensures var prev := Collect(keep, row, xs[..k]);
      Collect(keep, row, xs[..k + 1]) ==
        if prev.None? then None
        else if !keep(xs[k], k) then prev
        else if row(xs[k], k).None? then None
        else Some(prev.value + [row(xs[k], k).value])
  {
    assert xs[..k + 1][..k] == xs[..k];
  }

  /** Nothing is collected exactly when some kept element has no row. */
  lemma {:induction false} CollectFail<A, B>(keep: (A, nat) -> bool, row: (A, nat) -> Option<B>, xs: seq<A>)
    ensures Collect(keep, row, xs).None? <==> exists k :: 0 <= k < |xs| && keep(xs[k], k) && row(xs[k], k).None?
  {
    if xs != [] {
      var last := |xs| - 1;
      var pre := xs[..last];
      CollectFail(keep, row, pre);
      assert forall k :: 0 <= k < last ==> pre[k] == xs[k];
    }
  }

  /** The collected rows are those of the picked elements, one each, in
   *  order. */
  lemma {:induction false} CollectRows<A, B>(keep: (A, nat) -> bool, row: (A, nat) -> Option<B>, xs: seq<A>)
    ensures var r := Collect(keep, row, xs);
      r.Some? ==> (|r.value| == |Picked(keep, xs)| &&
        forall j :: 0 <= j < |r.value| ==> row(xs[Picked(keep, xs)[j]], Picked(keep, xs)[j]) == Some(r.value[j]))
  {
    if xs != [] {
      var last := |xs| - 1;
      var pre := xs[..last];
      CollectRows(keep, row, pre);
      assert forall k :: 0 <= k < last ==> pre[k] == xs[k];
    }
  }

  /** Once a prefix fails, the whole collection fails. */
  lemma {:induction false} CollectPrefixNone<A, B>(keep: (A, nat) -> bool, row: (A, nat) -> Option<B>, xs: seq<A>, m: nat)
    requires m <= |xs| && Collect(keep, row, xs[..m]).None?
    ensures Collect(keep, row, xs).None?
    decreases |xs| - m
  {
    if m == |xs| {
      assert xs[..m] == xs;
    } else {
      CollectStep(keep, row, xs, m);
      CollectPrefixNone(keep, row, xs, m + 1);
    }
  }

  function RunsAt(ds: seq<Device>): (ScanConfig, nat) -> bool
  {
    (cfg: ScanConfig, k: nat) => Runs(ds, cfg)
  }

  /** The indices of the configs that are scanned, in increasing order. */
  function Eligible(ds: seq<Device>, configs: seq<ScanConfig>): (e: seq<nat>)
    ensures forall j :: 0 <= j < |e| ==> e[j] < |configs| && Runs(ds, configs[e[j]])
    ensures forall j, j' :: 0 <= j < j' < |e| ==> e[j] < e[j']
    ensures forall k :: 0 <= k < |configs| && Runs(ds, configs[k]) ==> k in e
  {
    Picked(RunsAt(ds), configs)
  }

  /** The report of a scanned config at index `k`. */
  function ReportFor(ds: seq<Device>, cfg: ScanConfig, k: nat, selected: seq<CveSource>, oracle: Oracle): Option<DeviceReport>
    requires Runs(ds, cfg)
  {
    DeviceReportOf(ConfigDevice(ds, cfg).value, cfg.scanSoftware.GetOr(true), cfg.scanHardware.GetOr(true), k, selected, oracle)
  }

  function ReportAt(ds: seq<Device>, selected: seq<CveSource>, oracle: Oracle): (ScanConfig, nat) -> Option<DeviceReport>
  {
    (cfg: ScanConfig, k: nat) => if Runs(ds, cfg) then ReportFor(ds, cfg, k, selected, oracle) else None
  }

  /** `_run_detailed_scan`'s results, config by config; `None` once a
   *  scanned config's report cannot be built. */
  function ScanResults(ds: seq<Device>, configs: seq<ScanConfig>, selected: seq<CveSource>, oracle: Oracle)
    : (r: Option<seq<DeviceReport>>)
    ensures r.Some? ==> |r.value| == |Eligible(ds, configs)|
  {
    CollectRows(RunsAt(ds), ReportAt(ds, selected, oracle), configs);
    Collect(RunsAt(ds), ReportAt(ds, selected, oracle), configs)
  }

  /** A scan has no results exactly when some scanned config's report
   *  cannot be built. */
  lemma ScanResultsFail(ds: seq<Device>, configs: seq<ScanConfig>, selected: seq<CveSource>, oracle: Oracle)
    ensures ScanResults(ds, configs, selected, oracle).None? <==>
      exists k :: 0 <= k < |configs| && Runs(ds, configs[k]) && ReportFor(ds, configs[k], k, selected, oracle).None?
  {
    CollectFail(RunsAt(ds), ReportAt(ds, selected, oracle), configs);
  }

  /** The results hold one report per scanned config, in config order, each
   *  for the device the config names. */
  lemma ScanResultsReports(ds: seq<Device>, configs: seq<ScanConfig>, selected: seq<CveSource>, oracle: Oracle)
    requires ScanResults(ds, configs, selected, oracle).Some?
    ensures var r := ScanResults(ds, configs, selected, oracle).value;
      forall j :: 0 <= j < |r| ==>
        var k := Eligible(ds, configs)[j];
        ReportFor(ds, configs[k], k, selected, oracle) == Some(r[j]) && r[j].deviceId == configs[k].deviceId.value
  {
    CollectRows(RunsAt(ds), ReportAt(ds, selected, oracle), configs);
  }

  /** `_run_detailed_scan`: configs are visited in order; a config whose
   *  device is missing, or whose flags are both off, is skipped. */
  method RunDetailedScan(store: Store, configs: seq<ScanConfig>, sites: seq<string>, oracle: Oracle)
    returns (results: Option<seq<DeviceReport>>)
    ensures results == ScanResults(store.devices, configs, SelectSources(sites), oracle)
  {
    var selected := SelectSources(sites);
    var acc: seq<DeviceReport> := [];
    var k := 0;
    while k < |configs|
      invariant 0 <= k <= |configs|
      invariant Collect(RunsAt(store.devices), ReportAt(store.devices, selected, oracle), configs[..k]) == Some(acc)
    {
      CollectStep(RunsAt(store.devices), ReportAt(store.devices, selected, oracle), configs, k);
      var runs, report := ScanConfigAt(store, configs[k], k, selected, oracle);
      if !runs {
        k := k + 1;
        continue;
      }
      if report.None? {
        CollectPrefixNone(RunsAt(store.devices), ReportAt(store.devices, selected, oracle), configs, k + 1);
        return None;
      }
      acc := acc + [report.value];
      k := k + 1;
    }
    assert configs[..k] == configs;
    return Some(acc);
  }

  /** One pass of `_run_detailed_scan`'s loop: whether the config is
   *  scanned, and if so the report built for it. */
  method ScanConfigAt(store: Store, cfg: ScanConfig, k: nat, selected: seq<CveSource>, oracle: Oracle)
    returns (runs: bool, report: Option<DeviceReport>)
    ensures runs == Runs(store.devices, cfg)
    ensures runs ==> report == ReportFor(store.devices, cfg, k, selected, oracle)
  {
    var device: Option<Device> := None;
    if cfg.deviceId.Some? {
      device := store.GetDevice(cfg.deviceId.value);
    }
    assert device == ConfigDevice(store.devices, cfg);
    if device.None? {
      return false, None;
    }
    var sw := cfg.scanSoftware.GetOr(true);
    var hw := cfg.scanHardware.GetOr(true);
    if !sw && !hw {
      return false, None;
    }
    report := BuildDeviceReport(device.value, sw, hw, k, selected, oracle);
    runs := true;
  }

  // ---- POST /scan ----

  /** The body of POST /scan; an absent or null key reads as `[]`. */
  datatype ScanRequest = ScanRequest(deviceConfigs: seq<ScanConfig>, cveSites: seq<string>)

  predicate AllHaveIds(configs: seq<ScanConfig>)
  {
    forall k :: 0 <= k < |configs| ==> configs[k].deviceId.Some?
  }

  /** `[c["device_id"] for c in device_configs]`. */
  function DeviceIds(configs: seq<ScanConfig>): (ids: seq<string>)
    requires AllHaveIds(configs)
    ensures |ids| == |configs| && forall k :: 0 <= k < |configs| ==> ids[k] == configs[k].deviceId.value
  {
    seq(|configs|, k requires 0 <= k < |configs| => configs[k].deviceId.value)
  }

  /** `[c["device_id"] for c in device_configs]` as a loop, which fails
   *  (`KeyError`) at the first config without an id. */
  method CollectIds(configs: seq<ScanConfig>) returns (ids: Option<seq<string>>)
    ensures ids.Some? <==> AllHaveIds(configs)
    ensures ids.Some? ==> ids.value == DeviceIds(configs)
  {
    var acc: seq<string> := [];
    var k := 0;
    while k < |configs|
      invariant 0 <= k <= |configs|
      invariant forall j :: 0 <= j < k ==> configs[j].deviceId.Some?
      invariant |acc| == k && forall j :: 0 <= j < k ==> acc[j] == configs[j].deviceId.value
    {
      if configs[k].deviceId.None? {
        return None;
      }
      acc := acc + [configs[k].deviceId.value];
      k := k + 1;
    }
    return Some(acc);
  }

  /** The `cve_sites` a scan record keeps: the request's, or the first three
   *  catalog names when the request sends none. */
  function RecordedSites(sites: seq<string>): (r: seq<string>)
    ensures sites != [] ==> r == sites
    ensures sites == [] ==> r == ["nvd.nist.gov", "cve.mitre.org", "exploit-db.com"]
  {
    if sites == [] then SourceNames(CveSources[..3]) else sites
  }

  /** POST /scan. No configs: 400 and nothing stored. A report that cannot be
   *  built, or a config without `device_id` (a `KeyError` once the reports
   *  are built): 500 and nothing stored. Otherwise one completed scan is
   *  stored with the device ids in config order, the request's configs and
   *  the recorded sites, and returned with 201. Devices never change. */
  method Scan(store: Store, req: ScanRequest, oracle: Oracle, freshId: string) returns (resp: Response)
    modifies store
    ensures store.devices == old(store.devices)
    ensures req.deviceConfigs == [] ==>
      resp == Response(400, ErrorBody("device_configs required")) && store.threatScans == old(store.threatScans)
    ensures req.deviceConfigs != [] ==>
      var results := ScanResults(old(store.devices), req.deviceConfigs, SelectSources(req.cveSites), oracle);
      if results.None? || !AllHaveIds(req.deviceConfigs) then
        resp == Response(500, ServerError) && store.threatScans == old(store.threatScans)
      else
        var rec := ThreatScan(freshId, DeviceIds(req.deviceConfigs), "completed", results.value,
                              Some(req.deviceConfigs), Some(RecordedSites(req.cveSites)));
        store.threatScans == old(store.threatScans) + [rec] && resp == Response(201, ScanBody(rec))
  {
    if req.deviceConfigs == [] {
      return Response(400, ErrorBody("device_configs required"));
    }
    var results := RunDetailedScan(store, req.deviceConfigs, req.cveSites, oracle);
    if results.None? {
      return Response(500, ServerError);
    }
    var ids := CollectIds(req.deviceConfigs);
    if ids.None? {
      return Response(500, ServerError);
    }
    var scan := store.CreateThreatScan(freshId, ids.value, results.value);
    var rec := scan.(deviceConfigs := Some(req.deviceConfigs), cveSites := Some(RecordedSites(req.cveSites)));
    store.threatScans := store.threatScans[|store.threatScans| - 1 := rec];
    return Response(201, ScanBody(rec));
  }

  /** With no sites sent, findings link to NVD only, while the stored record
   *  lists three site names. */
  lemma DefaultSitesRecord()
    ensures SelectSources([]) == [CveSources[0]]
    ensures RecordedSites([]) == [CveSources[0].name, CveSources[1].name, CveSources[2].name]
  {
  }
}
