# OdinEye core, modelled in Dafny

OdinEye is an inventory and threat-scan tool. It has three parts.

- **Endpoint agent.** A small Python agent enumerates a machine's installed packages and registers the machine with a backend.
- **Backend.** A Flask backend keeps devices and threat scans in memory. It serves CRUD routes for devices, an agent registration route, and a simulated CVE scan. The scan builds a per-device report of software and hardware rows, each with a possible random finding.
- **Frontend.** A React frontend lists devices, shows dashboard counts, lets the user pick devices and CVE sites for a scan, and renders the stored scans.

This project models that core and proves properties of the model.

| module | file | models |
|---|---|---|
| `Models` | `models.dfy` | the in-memory store as a class `Store` with two sequence fields, and its seven operations |
| `DevicesApi` | `devices_api.dfy` | the device routes: the create checks, the not-found paths, the PUT whitelist |
| `AgentsApi` | `agents_api.dfy` | agent registration: find by hostname, then refresh or create |
| `ThreatsApi` | `threats_api.dfy` | app normalisation, the report builder, the CVE site selection, the detailed scan, the scan route |
| `Agent` | `agent_parsers.dfy` | the dpkg, rpm and macOS package parsers and the enumeration order |
| `ThreatsPage` | `threats_page.dfy` | the report-schema test, the progress ticker, the page state around a scan, the expand toggle |
| `Dashboard` | `dashboard.dfy` | the device-type counts, the findings total, the severity counts, the recent-scan list |
| `DeviceList` | `device_list.dfy` | app display normalisation, the hardware cell, the six-app preview, the row toggles |
| `AddDeviceModal` | `add_device_modal.dfy` | the comma-separated apps field, the edit prefill, the submitted payload |
| `DeviceSelector` | `device_selector.dfy` | the per-device toggle and the select-all box |
| `NewScanDialog` | `new_scan_dialog.dfy` | the dialog state, the per-device flags, the CVE site set, the configs it submits |
| `Inventory` | `inventory.dfy` | the shared JSON-shaped records, and how a stored scan reads on the frontend |
| `Strings`, `Seqs`, `Wrappers` | | JavaScript and Python string helpers, sequence lemmas, `Option` |

How the model represents the source:

- **Randomness.** The random calls in the scan become an `Oracle`: a total function from the slot of each drawn value (config index, part, item index) to the value drawn. Any run of the random generator gives the same results as some oracle, so results stated for every oracle cover every run.
- **Generated values.** A uuid-based id is a `freshId` parameter. Timestamps are not stored.
- **Elapsed time.** The milliseconds since a scan started are a parameter of the progress tick.
- **Command output.** Each package command's output, or its failure, is a parameter (`Outcome`). A failure the enumeration catches on the spot (`Failed`) differs from an exception only the outer handler catches (`Crashed`), because the source treats the two differently.
- **Stateful frontend components.** Components whose state changes step by step are classes whose methods state the whole new state: `ThreatsPage.ScanPage`, `DeviceList.Expansion` and `NewScanDialog.ScanDialog`. Pure computations are functions with lemmas.
- **Loops in the source.** `update_device`, `delete_device`, the package loops, the report builder, the detailed scan and the dashboard reductions are methods with loops. Each is proved equal to a specification function, and the properties are proved about that function.
- **JavaScript Sets.** A JavaScript `Set` of ids is a duplicate-free sequence in insertion order.

Where the model follows the code rather than the documentation:

- **The dashboard's "Total findings".** The figure sums `results.length` over scans. For a structured scan that is the number of device entries, not the number of findings (`Dashboard.TotalCountsDevices`).
- **The dashboard's severity counting.** It uses its own schema test, which treats any truthy `software` or `hardware` as structured. The history page uses `Array.isArray`. The dashboard's test is strictly looser (`Dashboard.SniffIsLooser`).
- **A blank app string with a space.** `_normalize_app` raises on such a string, because `split(None, 1)` returns an empty list. The scan route then answers 500 and stores nothing.
- **A scan config without `device_id`.** The detailed scan skips such a config. The `device_ids` comprehension then raises, so the route answers 500 and stores nothing.

## Model

| member | source | states |
|---|---|---|
| Models.IndexOfId | backend/models.py:43-48 | -1 exactly when no device has the id; otherwise the first position holding it |
| Models.IndexOfIdReplace | backend/models.py:56-64 | overwriting the first match with a record of the same id leaves it the first match, so a later lookup finds the updated record |
| Models.WithoutId | backend/models.py:72 | the surviving devices are exactly those with another id; never longer than before |
| Models.WithoutIdConcat | backend/models.py:72 | the filter keeps the order of the survivors (it distributes over concatenation) |
| Models.WithoutAbsentId | backend/models.py:67-74 | deleting an id no device carries leaves the list as it was |
| Models.LastWritten | backend/models.py:61-63 | no keyword argument writes a key exactly when there is no last write for it |
| Models.GetApply | backend/models.py:62-63 | one keyword argument changes only the field it names, and only with a non-null value |
| Models.ApplyAllFields | backend/models.py:61-63 | after all keyword arguments each field holds its last non-null write, or its old value when it was never written |
| Models.Get | backend/models.py:62-63 | the value a device holds under a key; `Models.GetApply` and `Models.ApplyAllFields` state what `update_device` leaves under each key |
| Models.Written | backend/models.py:62 | the key and value one keyword argument writes, nothing for a None value or a key the device lacks; `Models.LastWritten` takes the last such write per key |
| Models.Apply | backend/models.py:62-63 | one pass of the loop; `Models.GetApply` states it changes only the field it names, and only with a non-null value |
| Models.ApplyAll | backend/models.py:61-63 | the whole keyword loop; `Models.ApplyAllFields` states each field ends with its last non-null write or keeps its old value |
| Models.Reversed | backend/models.py:92 | same length, element k is element n-1-k of the input |
| Models.Store.constructor | backend/models.py:8-9 | both stores start empty |
| Models.Store.CreateDevice | backend/models.py:16-40 | appends exactly one device with the given fields, empty hardware and apps for absent ones; scans untouched |
| Models.Store.GetDevice | backend/models.py:43-48 | the first device with the id, or None when there is none |
| Models.Store.GetAllDevices | backend/models.py:51-53 | the device list, in store order, with the store unchanged |
| Models.Store.UpdateDevice | backend/models.py:56-64 | unknown id: None and nothing changes; otherwise the first match is replaced by the record with the keyword arguments applied, and only that position changes |
| Models.Store.DeleteDevice | backend/models.py:67-74 | true exactly when a device had the id; the list becomes the devices without that id |
| Models.Store.CreateThreatScan | backend/models.py:77-87 | appends one completed scan; the newest-first listing gains it at its head; devices untouched |
| Models.Store.AllThreatScans | backend/models.py:90-92 | the scans newest first |
| DevicesApi.Allowed | backend/api/devices.py:58 | the six keys PUT accepts; `DevicesApi.Whitelist` keeps exactly the body's updates it allows |
| DevicesApi.Whitelist | backend/api/devices.py:58-59 | the body entries kept are exactly those for name, type, ip, os, hardware and installed_apps |
| DevicesApi.WhitelistKeepsIdentity | backend/api/devices.py:58-60 | a PUT can never change a device's id, source or agent id |
| DevicesApi.AllowedKeeps | backend/api/devices.py:58-60 | updates drawn from the whitelist leave id, source and agent id as they were |
| DevicesApi.AddDevice | backend/api/devices.py:15-38 | a missing or empty name is a 400 and nothing is stored; otherwise a 201 with the new manual device, defaults applied, appended to the store |
| DevicesApi.GetOne | backend/api/devices.py:41-47 | a 404 for an unknown id, otherwise a 200 with the first matching device |
| DevicesApi.UpdateOne | backend/api/devices.py:50-61 | a 404 with the store unchanged for an unknown id; otherwise only the whitelisted fields are written and the updated device is returned |
| DevicesApi.DeleteOne | backend/api/devices.py:64-69 | a 404 when the id is unknown, a 204 otherwise; every device with the id is gone |
| AgentsApi.IsAgentNamed | backend/api/agents.py:12 | same name and agent source; `AgentsApi.AgentIndex` finds the first device passing it, or -1 when none does |
| AgentsApi.RefreshUpdates | backend/api/agents.py:29-35 | the four keyword arguments of a re-registration; `AgentsApi.RefreshWrites` states they set ip, os, hardware and apps and nothing else |
| AgentsApi.AgentIndex | backend/api/agents.py:11-13 | -1 exactly when no agent-sourced device has that name; otherwise the first such device |
| AgentsApi.AgentCount | backend/api/agents.py:11-13 | zero exactly when no agent device has the hostname |
| AgentsApi.RefreshWrites | backend/api/agents.py:29-35 | the four refresh updates overwrite ip, os, hardware and apps and nothing else |
| AgentsApi.AgentCountReplace | backend/api/agents.py:28-36 | replacing a device by one with the same name and source keeps the number of agent devices with that hostname |
| AgentsApi.AgentCountAppend | backend/api/agents.py:38-48 | appending a device adds one agent device with that hostname exactly when it is one |
| AgentsApi.FindDeviceByHostname | backend/api/agents.py:9-14 | the first device with that name and source "agent", or None |
| AgentsApi.Refresh | backend/api/agents.py:28-36 | the device's ip, os, hardware and apps are overwritten in place and it is returned; agent counts and scans unchanged |
| AgentsApi.Register | backend/api/agents.py:17-48 | a known agent hostname is refreshed in place and answers 200; an unknown one creates a workstation device with source "agent" and answers 201; afterwards exactly one agent device with the hostname exists when none did before, and the count is otherwise unchanged |
| ThreatsApi.DecimalWidth4 | backend/api/threats.py:58 | numbers from 1000 to 9999 print as four digits |
| ThreatsApi.CveId | backend/api/threats.py:58 | the id is "CVE-2025-" followed by four digits, 13 characters in all |
| ThreatsApi.MaybeThreat | backend/api/threats.py:56-68 | a finding appears exactly when a source is selected and the draw hits; it names a selected source, a listed severity and a listed description |
| ThreatsApi.NormalizeApp | backend/api/threats.py:36-43 | a record keeps its name and version; a string without a space is all name; a blank string with a space has no result (the source raises); otherwise the first word is the name and the rest is the version |
| ThreatsApi.NormalizeAppRebuild | backend/api/threats.py:39-42 | the input string itself is blank leading text, then the name, then either blank trailing text (empty version) or a non-empty blank gap and the version; the version keeps any trailing blanks |
| ThreatsApi.VersionString | backend/api/threats.py:38 | `str` of the version: "" when absent, "None" for a null; `ThreatsApi.NormalizeApp` carries each case into a record's version |
| ThreatsApi.SoftwareRow | backend/api/threats.py:81-90 | a row exists exactly when the app normalises; the installed version is "—" for an empty version, and then the latest is "—" too; the threat is that slot's draw |
| ThreatsApi.SoftwareRows | backend/api/threats.py:79-90 | one row per installed app, in app order, row k built from app k |
| ThreatsApi.SoftwareRowsFail | backend/api/threats.py:81-82 | the software rows fail exactly when some app fails to normalise |
| ThreatsApi.Rows | backend/api/threats.py:81-90 | the row loop as a value; `ThreatsApi.RowsShape` and `ThreatsApi.RowsFail` state its result |
| ThreatsApi.RowsShape | backend/api/threats.py:81-90 | built rows are one per element, each the row of the element at that position |
| ThreatsApi.RowsFail | backend/api/threats.py:81-82 | no rows exactly when some element's row cannot be built |
| ThreatsApi.RowsStep | backend/api/threats.py:81-90 | one more pass appends that element's row, or fails when it has none |
| ThreatsApi.SoftwareRowAt | backend/api/threats.py:82-90 | the row of the app at a position, drawn from that slot; `ThreatsApi.SoftwareRows` states the rows it builds |
| ThreatsApi.HasCpuModel | backend/api/threats.py:94-95 | the CPU model is truthy; `ThreatsApi.HardwareRows` adds the CPU row exactly when it holds |
| ThreatsApi.HasRam | backend/api/threats.py:102 | the RAM size is truthy; `ThreatsApi.HardwareRows` adds the RAM row exactly when it holds |
| ThreatsApi.HardwareRows | backend/api/threats.py:92-108 | a CPU row when there is a model, a RAM row when there is a size, nothing else; both report "current"; the RAM row never carries a threat |
| ThreatsApi.DeviceReportOf | backend/api/threats.py:71-110 | a report for the device's id and name, whose software rows are present only when software is scanned and whose hardware rows are present only when hardware is scanned; at most two hardware rows |
| ThreatsApi.BuildSoftwareRows | backend/api/threats.py:79-90 | the loop's rows equal the software rows function |
| ThreatsApi.BuildDeviceReport | backend/api/threats.py:71-110 | the built report equals the report function |
| ThreatsApi.FindSource | backend/api/threats.py:115-116 | the catalog entry with that name, or None exactly when no entry has it |
| ThreatsApi.Named | backend/api/threats.py:116 | the selected entries all come from the catalog and from the requested names; empty exactly when no requested name is known |
| ThreatsApi.NamedConcat | backend/api/threats.py:116 | selection keeps the order of the requested names |
| ThreatsApi.NamedSnoc | backend/api/threats.py:116 | one more requested name adds its entry when it is known and nothing otherwise |
| ThreatsApi.Select | backend/api/threats.py:115-118 | the known requested sites, or NVD alone when none is known; never empty |
| ThreatsApi.SelectSources | backend/api/threats.py:115-118 | the sources a scan draws from; `ThreatsApi.Select` states they are the known requested sites, or NVD alone |
| ThreatsApi.SourceNames | backend/api/threats.py:160 | the catalog's names, in catalog order |
| ThreatsApi.FindByName | backend/api/threats.py:115 | with distinct names, looking an entry's name up gives back that entry |
| ThreatsApi.NamedCatalogPrefix | backend/api/threats.py:115-116 | requesting the first m catalog names selects the first m entries |
| ThreatsApi.DistinctNames | backend/api/threats.py:115 | no two catalog entries share a name, so the name lookup is a function; `ThreatsApi.CatalogDistinct` proves it of the catalog |
| ThreatsApi.CatalogDistinct | backend/api/threats.py:13-24 | the ten CVE sources have distinct names |
| ThreatsApi.ListCveSources | backend/api/threats.py:139-142 | one entry per catalog source, with id and name both equal to the source's name |
| ThreatsApi.NamedAll | backend/api/threats.py:115-116 | requesting every catalog name selects the whole catalog |
| ThreatsApi.ListedIds | backend/api/threats.py:142 | the listed ids are the catalog's names |
| ThreatsApi.SelectAllListed | backend/api/threats.py:115-118 | sending back every listed id selects all ten sources |
| ThreatsApi.ThreatLinksCatalog | backend/api/threats.py:56-68 | every finding names a catalog site and links to that site's URL with the CVE id appended |
| ThreatsApi.ConfigDevice | backend/api/threats.py:122-124 | the first stored device with the config's id; None exactly when the id is absent or unknown |
| ThreatsApi.Runs | backend/api/threats.py:122-128 | a known device with a flag on, a missing flag counting as on; `ThreatsApi.Eligible` picks exactly the configs passing it |
| ThreatsApi.RunsAt | backend/api/threats.py:122-128 | `ThreatsApi.Runs` as the keep test of `ThreatsApi.Collect` |
| ThreatsApi.ReportFor | backend/api/threats.py:122-129 | the report of a kept config, a missing flag read as on; `ThreatsApi.ScanResults` states the reports it gives |
| ThreatsApi.ReportAt | backend/api/threats.py:129 | `ThreatsApi.ReportFor` as the row function of `ThreatsApi.Collect` |
| ThreatsApi.Picked | backend/api/threats.py:121-128 | the positions of the kept elements, increasing, and every kept position among them |
| ThreatsApi.Collect | backend/api/threats.py:120-131 | the filtered loop as a value; `ThreatsApi.CollectRows` and `ThreatsApi.CollectFail` state its result |
| ThreatsApi.CollectStep | backend/api/threats.py:121-129 | one pass: a skipped element keeps the list, a kept one appends its row or fails |
| ThreatsApi.CollectFail | backend/api/threats.py:121-129 | nothing is collected exactly when some kept element has no row |
| ThreatsApi.CollectRows | backend/api/threats.py:121-129 | the collected rows are those of the picked elements, one each, in order |
| ThreatsApi.CollectPrefixNone | backend/api/threats.py:121-129 | once the loop fails on a prefix the whole loop fails, as the exception ends it |
| ThreatsApi.Eligible | backend/api/threats.py:121-128 | the positions, in increasing order, of exactly the configs with a known device and at least one flag on |
| ThreatsApi.ScanResults | backend/api/threats.py:113-131 | when there are results, one report per eligible config |
| ThreatsApi.ScanResultsFail | backend/api/threats.py:121-129 | there are no results exactly when some eligible config's report cannot be built |
| ThreatsApi.ScanResultsReports | backend/api/threats.py:121-129 | report j belongs to the j-th eligible config and carries its device id |
| ThreatsApi.RunDetailedScan | backend/api/threats.py:113-131 | the loop's results equal the scan-results function over the selected sources |
| ThreatsApi.ScanConfigAt | backend/api/threats.py:121-129 | a config is scanned exactly when it is eligible, and then gives its report |
| ThreatsApi.AllHaveIds | backend/api/threats.py:157 | every config carries a device id; `ThreatsApi.CollectIds` gives the ids exactly when it holds |
| ThreatsApi.DeviceIds | backend/api/threats.py:157 | one id per config, in config order |
| ThreatsApi.CollectIds | backend/api/threats.py:157 | the ids exactly when every config carries one, None otherwise |
| ThreatsApi.RecordedSites | backend/api/threats.py:160 | the sent sites, or the first three catalog names when none were sent |
| ThreatsApi.Scan | backend/api/threats.py:145-161 | no configs is a 400; a report that cannot be built, or a config without an id, is a 500 with nothing stored; otherwise one completed scan holding the results, the configs and the recorded sites is appended and returned with 201; devices never change |
| ThreatsApi.DefaultSitesRecord | backend/api/threats.py:116-118 | with no sites sent, findings link to NVD only, while the stored record names three sites |
| Agent.Window | agent/agent.py:95 | at most `count` lines, exactly `count` when the input is long enough, line i being input line start+i |
| Agent.StageLines | agent/agent.py:93-95 | dpkg reads at most 300 lines after the first five; the rpm query format at most 300 from the top; plain rpm -qa at most 50 |
| Agent.Lines | agent/agent.py:93 | the output split at newlines; `Strings.JoinSplit` shows the lines rebuild it |
| Agent.StripArch | agent/agent.py:100-101 | the name up to its first colon, which contains no colon; a name without a colon is unchanged |
| Agent.DpkgEntry | agent/agent.py:97-103 | a package exactly when the line has three words and the architecture-stripped second word does not start with "lib"; then that word and the third |
| Agent.RpmTabName | agent/agent.py:107-110 | a parsed name is non-empty and has no tab |
| Agent.RpmTabEntry | agent/agent.py:107-112 | the split at the first tab, both halves stripped, nothing without a tab or a name; `Agent.RpmTabName` and `Agent.RpmTabRoundTrip` state its meaning |
| Agent.LastIndexOf | agent/agent.py:122 | -1 exactly when the character is absent; otherwise its position, with no later occurrence |
| Agent.RpmTabRoundTrip | agent/agent.py:107-109 | "name TAB version" with no surrounding whitespace parses back to that name and version |
| Agent.RsplitDash | agent/agent.py:122-124 | name, a dash and version rebuild the line |
| Agent.RsplitDashVersion | agent/agent.py:122-124 | the version holds at most one dash, and holds one whenever the name still has a dash (the split is at the last two dashes) |
| Agent.AtMostOneDash | agent/agent.py:122-124 | the version `rsplit("-", 2)` leaves; `Agent.RsplitDashVersion` states every split version satisfies it |
| Agent.OneDash | agent/agent.py:122-124 | a dash between two dash-free parts leaves one dash |
| Agent.RpmQaEntry | agent/agent.py:121-124 | a package exactly when the line has a dash, rebuilding the line |
| Agent.Entry | agent/agent.py:96-124 | the line parser of each format; `Agent.DpkgStage`, `Agent.RpmTabStage` and `Agent.RpmQaStage` state what each collects |
| Agent.EntryOf | agent/agent.py:96-124 | `Agent.Entry` of a format as a function value |
| Agent.NameSet | agent/agent.py:87 | the names collected so far, which `seen` holds; `Agent.AddSeen` keeps the two in step |
| Agent.NameSetPrefix | agent/agent.py:103-105 | the names of a prefix of the collected list are names of the whole list, so appending never loses a seen name |
| Agent.DistinctNames | agent/agent.py:103-127 | no name twice; `Agent.LinuxDistinct` proves it of the Linux enumeration |
| Agent.Add | agent/agent.py:103-105 | adding a parsed entry keeps names distinct and records its name |
| Agent.GatherShape | agent/agent.py:95-112 | the loop only appends, at most one package per line; names stay distinct; the name of every parsing line ends up collected |
| Agent.GatherFrom | agent/agent.py:95-112 | every collected package was there before or is the parse of some line |
| Agent.AddSeen | agent/agent.py:103-105 | an unseen name is appended and added to the seen set; a seen name or an unparsed line changes nothing |
| Agent.Gather | agent/agent.py:95-112 | the loop over a format's lines as a value; `Agent.GatherShape` and `Agent.GatherFrom` state its result |
| Agent.GatherStep | agent/agent.py:95-112 | the loop over a suffix is its first line's effect followed by the loop over the rest |
| Agent.Stage | agent/agent.py:93-112 | one format's loop from an empty list; `Agent.DpkgStage`, `Agent.RpmTabStage` and `Agent.RpmQaStage` state what it holds |
| Agent.LinuxPackages | agent/agent.py:89-129 | dpkg, then the rpm query format, then `rpm -qa`; `Agent.LinuxIsAStage` and `Agent.LinuxDistinct` state its result |
| Agent.Collected | agent/agent.py:88-205 | the platform's listing, or nothing after an uncaught exception; `Agent.InstalledApps` adds the placeholder when it is empty |
| Agent.DarwinPackages | agent/agent.py:198-201 | at most one package per line |
| Agent.DarwinPackagesFrom | agent/agent.py:198-201 | each package comes from a line ending in ".app", with an empty version |
| Agent.BundleLine | agent/agent.py:199-201 | a listed `name.app` whose name has no dot is a bundle, named by the stripped name, with an empty version |
| Agent.IsBundle | agent/agent.py:199 | the stripped line ends in ".app"; `Agent.BundleLine` shows every dot-free `name.app` passes |
| Agent.BundleName | agent/agent.py:200 | every ".app" removed, then stripped; `Agent.BundleLine` shows `name.app` gives the stripped name |
| Agent.DarwinRow | agent/agent.py:199-201 | one package for a bundle line, none otherwise; `Agent.DarwinPackagesFrom` and `Agent.BundleLine` state its content |
| Agent.DarwinStep | agent/agent.py:198-201 | the listing of a suffix is its first line's package followed by the rest, the loop's step |
| Agent.InstalledApps | agent/agent.py:207-209 | never empty; the placeholder appears exactly when nothing was collected |
| Agent.LinuxIsAStage | agent/agent.py:89-127 | the Linux result is empty or is exactly the list one of the three commands gave |
| Agent.LinuxDistinct | agent/agent.py:103-127 | on Linux no name is collected twice |
| Agent.DpkgStage | agent/agent.py:94-105 | at most 300 packages, each parsed from one of lines 5 to 304 |
| Agent.RpmTabStage | agent/agent.py:106-112 | at most 300 packages, each parsed from one of the first 300 lines |
| Agent.RpmQaStage | agent/agent.py:119-127 | at most 50 packages, each rebuilding one of the first 50 lines |
| Agent.DarwinKeepsRepeats | agent/agent.py:198-201 | unlike Linux, a repeated macOS bundle is listed twice |
| Agent.ParseLines | agent/agent.py:95-112 | the line loop collects the gathered packages and keeps the seen set equal to their names |
| Agent.RunListing | agent/agent.py:90-116 | one command: its lines are parsed when it gave output, a caught failure adds nothing, and only an uncaught exception is reported as a crash |
| Agent.ListApplications | agent/agent.py:193-203 | the loop's list equals the macOS listing of the first 50 lines |
| Agent.ListLinuxPackages | agent/agent.py:89-129 | the loop over the commands equals the Linux enumeration: dpkg, then the rpm query format, then plain rpm -qa |
| Agent.GetInstalledApps | agent/agent.py:84-209 | the method's result equals the per-platform enumeration with the placeholder fallback |
| ThreatsPage.IsNewReportFormat | frontend/src/components/ThreatsPage.jsx:49-53 | absent or empty results are legacy; otherwise structured exactly when the first entry has a software or hardware array |
| ThreatsPage.FirstDecides | frontend/src/components/ThreatsPage.jsx:51-52 | only the first entry decides the schema |
| ThreatsPage.StoredScansAreStructured | frontend/src/components/ThreatsPage.jsx:49-53 | a scan stored by the backend reads as structured exactly when it has reports |
| ThreatsPage.ProgressPct | frontend/src/components/ThreatsPage.jsx:85 | between 0 and 100; exactly 100 from the scan duration on, below 100 before it |
| ThreatsPage.ProgressMonotone | frontend/src/components/ThreatsPage.jsx:85 | progress never goes back as time passes |
| ThreatsPage.StepIndex | frontend/src/components/ThreatsPage.jsx:86-89 | a valid step index for non-negative time; the last step exactly from the fifth phase on; before the end, step i covers the i-th thousand milliseconds |
| ThreatsPage.StepMonotone | frontend/src/components/ThreatsPage.jsx:86-89 | the step never goes back as time passes |
| ThreatsPage.ScanMessage | frontend/src/components/ThreatsPage.jsx:91 | always one of the five messages: that step's message, or the last one once the duration has passed |
| ThreatsPage.RenderDetail | frontend/src/components/ThreatsPage.jsx:121-123 | the per-device report exactly for the structured schema; `ThreatsPage.ExactlyOneRenderer` relates it to the legacy renderer |
| ThreatsPage.RenderLegacy | frontend/src/components/ThreatsPage.jsx:210-213 | nothing for the structured schema, "No findings." for empty results, else the finding table; `ThreatsPage.ExactlyOneRenderer` states the split |
| ThreatsPage.Render | frontend/src/components/ThreatsPage.jsx:323 | the detailed report exactly for the structured schema; "No findings." exactly for empty results |
| ThreatsPage.ExactlyOneRenderer | frontend/src/components/ThreatsPage.jsx:210-213 | exactly one of the two renderers gives output, and empty results give "No findings." |
| ThreatsPage.ScanPage.constructor | frontend/src/components/ThreatsPage.jsx:56-62 | loading, not scanning, no progress, no error, nothing expanded |
| ThreatsPage.ScanPage.Load | frontend/src/components/ThreatsPage.jsx:64-74 | the listing replaces the scans and clears the error, or the error is shown and the scans stay; loading ends either way |
| ThreatsPage.ScanPage.StartScan | frontend/src/components/ThreatsPage.jsx:96-100 | scanning at 0 with the first message and no error; nothing else changes |
| ThreatsPage.ScanPage.Tick | frontend/src/components/ThreatsPage.jsx:80-94 | while scanning, progress and message follow the elapsed time; otherwise nothing changes |
| ThreatsPage.ScanPage.FinishScan | frontend/src/components/ThreatsPage.jsx:101-109 | on success the list is reloaded and the new scan expanded; on failure the error is shown; scanning ends either way |
| ThreatsPage.ScanPage.ToggleExpanded | frontend/src/components/ThreatsPage.jsx:312 | the expanded scan is toggled and nothing else changes |
| ThreatsPage.Toggled | frontend/src/components/ThreatsPage.jsx:312 | the next expanded scan; `ThreatsPage.ToggledExpandsOne` states it collapses the open one or opens only the clicked one |
| ThreatsPage.ToggledExpandsOne | frontend/src/components/ThreatsPage.jsx:312 | a click collapses the open scan or opens exactly the clicked one, never another |
| Dashboard.Bump | frontend/src/components/Dashboard.jsx:22 | the key is added or its count grows by one; every other count stays |
| Dashboard.TallyFrom | frontend/src/components/Dashboard.jsx:21-24 | bumping each key in turn; `Dashboard.TallyFromMeaning` and `Dashboard.TallyFromCounts` state the counts it leaves |
| Dashboard.Tally | frontend/src/components/Dashboard.jsx:21-24 | the counts from an empty accumulator; `Dashboard.TallyOrderFree` and `Dashboard.MapSumTally` state its properties |
| Dashboard.TallyFromMeaning | frontend/src/components/Dashboard.jsx:21-24 | a tally holds the old keys and the new ones, each count grown by its number of occurrences |
| Dashboard.TallyFromKeys | frontend/src/components/Dashboard.jsx:21-24 | the tallied keys are the old keys plus the keys seen |
| Dashboard.TallyFromCounts | frontend/src/components/Dashboard.jsx:21-24 | each count is the old count plus the key's occurrences |
| Dashboard.TallyFromSnoc | frontend/src/components/Dashboard.jsx:22 | one more key is one more bump |
| Dashboard.TallyFromStep | frontend/src/components/Dashboard.jsx:22 | the tally of a prefix one longer is one more bump |
| Dashboard.TallyFromConcat | frontend/src/components/Dashboard.jsx:27-47 | tallying a concatenation tallies its parts in turn |
| Dashboard.TallyOrderFree | frontend/src/components/Dashboard.jsx:21-24 | a tally depends only on the multiset of keys |
| Dashboard.MapSum | frontend/src/components/Dashboard.jsx:21-24 | the sum of the counts; `Dashboard.MapSumTally` shows a tally sums to the number of keys bumped |
| Dashboard.MapSumBump | frontend/src/components/Dashboard.jsx:22 | a bump adds one to the sum of the counts |
| Dashboard.MapSumAt | frontend/src/components/Dashboard.jsx:22 | the sum of the counts may be taken starting at any key |
| Dashboard.MapSumTally | frontend/src/components/Dashboard.jsx:21-24 | each tallied key adds one to the sum of the counts |
| Dashboard.Types | frontend/src/components/Dashboard.jsx:21-22 | one type per device, in device order |
| Dashboard.ByType | frontend/src/components/Dashboard.jsx:21-24 | the reduction's map equals the tally of the device types |
| Dashboard.ByTypeCounts | frontend/src/components/Dashboard.jsx:21-24 | a key per type present, each counting its devices, the counts summing to the number of devices |
| Dashboard.TotalFindings | frontend/src/components/Dashboard.jsx:26 | the sum of the result lengths; `Dashboard.TotalFindingsConcat` and `Dashboard.TotalCountsDevices` state what it counts |
| Dashboard.TotalFindingsConcat | frontend/src/components/Dashboard.jsx:26 | the findings total is additive over the scan list |
| Dashboard.SevKey | frontend/src/components/Dashboard.jsx:35 | an absent or empty severity counts as "low"; otherwise the lower-cased severity |
| Dashboard.SniffIsLooser | frontend/src/components/Dashboard.jsx:29 | every scan the history page treats as structured, the dashboard does too, but a string-valued software field fools only the dashboard |
| Dashboard.Truthy | frontend/src/components/Dashboard.jsx:29 | an array, or a non-empty string; `Dashboard.SniffIsLooser` shows the string case passes |
| Dashboard.SniffsStructured | frontend/src/components/Dashboard.jsx:29 | the dashboard's own schema test; `Dashboard.SniffIsLooser` shows it is strictly looser than the history page's |
| Dashboard.Spread | frontend/src/components/Dashboard.jsx:32 | the rows of an array field, none for a string; `Dashboard.StructuredKeysCount` counts the keys they give |
| Dashboard.Threatened | frontend/src/components/Dashboard.jsx:33-34 | the positions of the rows with a threat; `Dashboard.ThreatKeys` gives one key for each |
| Dashboard.ThreatenedSnoc | frontend/src/components/Dashboard.jsx:32-37 | one more row adds its position exactly when it carries a threat |
| Dashboard.DeviceRows | frontend/src/components/Dashboard.jsx:32 | software rows, then hardware rows, of one device entry |
| Dashboard.ThreatTotal | frontend/src/components/Dashboard.jsx:31-39 | the threatened rows over a structured scan's devices; `Dashboard.StructuredKeysCount` shows one key each |
| Dashboard.DeviceKeys | frontend/src/components/Dashboard.jsx:32-37 | the keys one device entry adds, one per threatened row |
| Dashboard.StructuredKeys | frontend/src/components/Dashboard.jsx:31-39 | the keys of a structured scan; `Dashboard.StructuredKeysCount` shows they number its threatened rows |
| Dashboard.ThreatKeys | frontend/src/components/Dashboard.jsx:32-37 | one key per row carrying a threat |
| Dashboard.ThreatKeysSnoc | frontend/src/components/Dashboard.jsx:32-37 | one more row adds its severity key exactly when it carries a threat |
| Dashboard.StructuredKeysCount | frontend/src/components/Dashboard.jsx:31-39 | a structured scan adds one key per threatened row |
| Dashboard.LegacyKeys | frontend/src/components/Dashboard.jsx:41-44 | a legacy scan adds one key per result, result k adding its severity key |
| Dashboard.ScanKeys | frontend/src/components/Dashboard.jsx:28-45 | the keys one scan adds, by the dashboard's schema test; `Dashboard.StructuredScanAdds` and `Dashboard.LegacyScanAdds` state how many |
| Dashboard.AllKeys | frontend/src/components/Dashboard.jsx:27-47 | the keys of every scan in turn; `Dashboard.FlatMapOrderFree` shows reordering the scans only permutes them |
| Dashboard.SeverityCounts | frontend/src/components/Dashboard.jsx:27-47 | the tally of all keys; `Dashboard.CountSeverities` equates it with the reduction and `Dashboard.SeverityOrderFree` shows the scan order does not matter |
| Dashboard.FlatMap | frontend/src/components/Dashboard.jsx:31-32 | the keys of each element in turn; `Dashboard.FlatMapConcat` makes it additive |
| Dashboard.FlatMapConcat | frontend/src/components/Dashboard.jsx:31-32 | the keys of a concatenation are the keys of each part in turn |
| Dashboard.FlatMapOrderFree | frontend/src/components/Dashboard.jsx:27-47 | the multiset of keys depends only on the multiset of scans |
| Dashboard.SeverityOrderFree | frontend/src/components/Dashboard.jsx:27-47 | the severity counts do not depend on the order of the scans |
| Dashboard.StructuredScanAdds | frontend/src/components/Dashboard.jsx:30-39 | a structured scan adds as many to the counts as it has threatened rows |
| Dashboard.LegacyScanAdds | frontend/src/components/Dashboard.jsx:40-44 | a legacy scan adds one per result |
| Dashboard.LegacyTotalsAgree | frontend/src/components/Dashboard.jsx:26-47 | with legacy scans only, the severity counts sum to the findings total |
| Dashboard.LegacyKeyCount | frontend/src/components/Dashboard.jsx:26-44 | with legacy scans only, there is one key per counted finding |
| Dashboard.TotalCountsDevices | frontend/src/components/Dashboard.jsx:26 | a structured scan with one device and no threats counts one finding and no severities |
| Dashboard.CountSeverities | frontend/src/components/Dashboard.jsx:27-47 | the reduction's map equals the severity counts |
| Dashboard.AddScan | frontend/src/components/Dashboard.jsx:28-45 | one scan's step tallies that scan's keys |
| Dashboard.AddStructured | frontend/src/components/Dashboard.jsx:31-39 | the per-device loop tallies the structured keys |
| Dashboard.AddLegacy | frontend/src/components/Dashboard.jsx:41-44 | the per-result loop tallies the legacy keys |
| Dashboard.AddRows | frontend/src/components/Dashboard.jsx:32-38 | the per-row loop tallies the keys of the threatened rows |
| Dashboard.EmptyListings | frontend/src/components/Dashboard.jsx:21-47 | nothing listed, nothing counted |
| Dashboard.RecentScans | frontend/src/components/Dashboard.jsx:49 | the first five scans in order, or all of them when there are fewer |
| DeviceList.VersionString | frontend/src/components/DeviceList.jsx:21 | "" for an absent, null or empty version; `DeviceList.NormalizeApp` carries it into a record's row |
| DeviceList.NormalizeApp | frontend/src/components/DeviceList.jsx:19-26 | a record keeps its name and version; a string with a space after the first character is cut there, and name, space and version rebuild it; otherwise the whole string is the name |
| DeviceList.NormalizeTextRoundTrip | frontend/src/components/DeviceList.jsx:23-25 | "name version" with a non-empty, space-free name reads back as that name and version |
| DeviceList.NormalizeApps | frontend/src/components/DeviceList.jsx:154 | one display row per app, in order |
| DeviceList.HasModel | frontend/src/components/DeviceList.jsx:32 | a present, non-empty CPU model; `DeviceList.HardwareParts` pushes the model exactly when it holds |
| DeviceList.HasRam | frontend/src/components/DeviceList.jsx:33 | a RAM size that reads as true; `DeviceList.HardwareParts` pushes the RAM part exactly when it holds |
| DeviceList.HardwareParts | frontend/src/components/DeviceList.jsx:29-33 | the CPU model first when present, then "N GB RAM" when present; no empty part |
| DeviceList.FormatHardware | frontend/src/components/DeviceList.jsx:28-35 | the parts joined by " · ", or the OS, or a dash, case by case |
| DeviceList.FormatHardwareNonEmpty | frontend/src/components/DeviceList.jsx:34 | the hardware cell is never blank |
| DeviceList.VisibleApps | frontend/src/components/DeviceList.jsx:156 | all apps when shown in full, otherwise the first six or fewer; always a prefix |
| DeviceList.HasMore | frontend/src/components/DeviceList.jsx:157 | more than six apps and not all shown; `DeviceList.PreviewHidesIffMore` shows it holds exactly when the preview hides apps |
| DeviceList.PreviewHidesIffMore | frontend/src/components/DeviceList.jsx:156-157 | the "more" control appears exactly when the preview hides apps |
| DeviceList.Expansion.constructor | frontend/src/components/DeviceList.jsx:43-44 | no row open, no list shown in full |
| DeviceList.Expansion.ToggleExpand | frontend/src/components/DeviceList.jsx:83-90 | the row is opened or closed, and its list falls back to the preview |
| DeviceList.Expansion.ToggleAppsFully | frontend/src/components/DeviceList.jsx:92-99 | flips only that row's full-list state |
| DeviceList.Flip | frontend/src/components/DeviceList.jsx:94-98 | add an absent id, delete a present one; `DeviceList.FlipOnlyOne` states it changes only that id and is its own inverse |
| DeviceList.FlipOnlyOne | frontend/src/components/DeviceList.jsx:94-98 | a flip changes that id's membership and no other's; two flips restore the set |
| DeviceSelector.Ids | frontend/src/components/DeviceSelector.jsx:28 | one id per device, in device order |
| DeviceSelector.NoDup | frontend/src/components/DeviceSelector.jsx:16-20 | no id twice; `DeviceSelector.Toggle` keeps it |
| DeviceSelector.NoDupOnce | frontend/src/components/DeviceSelector.jsx:17-18 | a present id occurs exactly once in a duplicate-free selection |
| DeviceSelector.NoDupCard | frontend/src/components/DeviceSelector.jsx:49 | a duplicate-free selection has as many ids as elements |
| DeviceSelector.Remove | frontend/src/components/DeviceSelector.jsx:18 | every occurrence of the id goes and every other id stays |
| DeviceSelector.RemoveCounts | frontend/src/components/DeviceSelector.jsx:18 | ids that stay keep their number of occurrences |
| DeviceSelector.RemoveConcat | frontend/src/components/DeviceSelector.jsx:18 | ids that stay keep their order |
| DeviceSelector.RemoveAbsent | frontend/src/components/DeviceSelector.jsx:18 | removing an unselected id changes nothing |
| DeviceSelector.Toggle | frontend/src/components/DeviceSelector.jsx:16-22 | a selected id is removed everywhere and nothing else changes; an unselected one is appended; a duplicate-free selection stays duplicate-free |
| DeviceSelector.ToggleTwiceAbsent | frontend/src/components/DeviceSelector.jsx:16-22 | toggling an unselected id twice restores the selection exactly |
| DeviceSelector.ToggleTwicePresent | frontend/src/components/DeviceSelector.jsx:16-22 | toggling a selected id twice moves it to the end and keeps the same ids |
| DeviceSelector.ToggleTwiceReorders | frontend/src/components/DeviceSelector.jsx:16-22 | so two toggles do not always restore the order |
| DeviceSelector.ToggleAll | frontend/src/components/DeviceSelector.jsx:24-30 | clear a full-length selection, else select every device; `DeviceSelector.ToggleAllFlips` states the result and the box it leaves |
| DeviceSelector.ToggleAllFlips | frontend/src/components/DeviceSelector.jsx:24-30 | select-all clears a full-length selection and otherwise selects every device; the box's checked state flips accordingly |
| DeviceSelector.AllChecked | frontend/src/components/DeviceSelector.jsx:49 | some device and a full-length selection; `DeviceSelector.AllCheckedMeansEvery` shows that means every device is selected |
| DeviceSelector.AllCheckedMeansEvery | frontend/src/components/DeviceSelector.jsx:49 | for a duplicate-free selection of known distinct ids, the length test holds exactly when every device is selected |
| NewScanDialog.SourceIds | frontend/src/components/NewScanDialog.jsx:45 | one id per source, in order |
| NewScanDialog.Distinct | frontend/src/components/NewScanDialog.jsx:45 | a set holds each given id once and nothing else |
| NewScanDialog.ToggleSite | frontend/src/components/NewScanDialog.jsx:55-62 | the site's membership flips and no other's; the set stays duplicate-free |
| NewScanDialog.ToggleSiteTwice | frontend/src/components/NewScanDialog.jsx:55-62 | two toggles restore the members, and the sequence itself for an absent site |
| NewScanDialog.SoftwareFlag | frontend/src/components/NewScanDialog.jsx:72 | the software flag, true when unset; `NewScanDialog.ConfigFor` states the defaults |
| NewScanDialog.HardwareFlag | frontend/src/components/NewScanDialog.jsx:73 | the hardware flag, true when unset; `NewScanDialog.ConfigFor` states the defaults |
| NewScanDialog.Kept | frontend/src/components/NewScanDialog.jsx:75 | not both effective flags off; `NewScanDialog.BuildConfigsMembers` submits exactly the devices passing it |
| NewScanDialog.ConfigFor | frontend/src/components/NewScanDialog.jsx:70-74 | the config names the device; both flags default to true for a device without flags |
| NewScanDialog.BuildConfigs | frontend/src/components/NewScanDialog.jsx:69-75 | no more configs than devices, each with at least one flag on |
| NewScanDialog.BuildConfigsMembers | frontend/src/components/NewScanDialog.jsx:69-75 | a config is submitted exactly for the devices whose effective flags are not both off |
| NewScanDialog.BuildConfigsConcat | frontend/src/components/NewScanDialog.jsx:69-75 | configs keep device order |
| NewScanDialog.HasAnySelected | frontend/src/components/NewScanDialog.jsx:87-89 | some device has a flag on in its entry; `NewScanDialog.HasAnySelectedAgrees` relates it to the submitted configs |
| NewScanDialog.Full | frontend/src/components/NewScanDialog.jsx:38-41 | an entry with both flags set; `NewScanDialog.HasAnySelectedAgrees` holds when every device has one, as after the defaults merge |
| NewScanDialog.HasAnySelectedAgrees | frontend/src/components/NewScanDialog.jsx:87-89 | once every device has its flags, the run button's test agrees with a non-empty config list |
| NewScanDialog.Defaults | frontend/src/components/NewScanDialog.jsx:37-40 | an entry for every device and no other key, each with both flags on |
| NewScanDialog.Merge | frontend/src/components/NewScanDialog.jsx:41 | earlier flags win; new devices get the defaults |
| NewScanDialog.SelectsEvery | frontend/src/components/NewScanDialog.jsx:64-66 | select-all selects exactly the listed source ids |
| NewScanDialog.ScanDialog.Valid | frontend/src/components/NewScanDialog.jsx:45 | the site selection holds no site twice, as a Set; the constructor, `LoadSources`, `ToggleCveSite` and `SelectAllCve` establish or keep it |
| NewScanDialog.ScanDialog.constructor | frontend/src/components/NewScanDialog.jsx:25-29 | closed, no devices, the ten default sources, all of them selected |
| NewScanDialog.ScanDialog.SetOpen | frontend/src/components/NewScanDialog.jsx:25 | only the open flag changes |
| NewScanDialog.ScanDialog.LoadDevices | frontend/src/components/NewScanDialog.jsx:36-42 | the devices are replaced; every earlier flag is kept and every new device gets both flags on |
| NewScanDialog.ScanDialog.LoadSources | frontend/src/components/NewScanDialog.jsx:44-46 | the sources are replaced and exactly their ids become selected |
| NewScanDialog.ScanDialog.SetDeviceOption | frontend/src/components/NewScanDialog.jsx:48-53 | one flag of one device is set, its other flag is kept, and no other device changes |
| NewScanDialog.ScanDialog.ToggleCveSite | frontend/src/components/NewScanDialog.jsx:55-62 | the site set becomes its toggle; nothing else changes |
| NewScanDialog.ScanDialog.SelectAllCve | frontend/src/components/NewScanDialog.jsx:64-66 | exactly the listed source ids become selected |
| NewScanDialog.ScanDialog.RunScan | frontend/src/components/NewScanDialog.jsx:68-85 | submits the configs and sites only when both are non-empty, and then closes the dialog |
| AddDeviceModal.NonEmpty | frontend/src/components/AddDeviceModal.jsx:69 | the non-empty strings in order; `AddDeviceModal.NonEmptyShape` and `AddDeviceModal.NonEmptyConcat` state it |
| AddDeviceModal.NonEmptyShape | frontend/src/components/AddDeviceModal.jsx:69 | the filter keeps only non-empty entries from the input |
| AddDeviceModal.NonEmptyConcat | frontend/src/components/AddDeviceModal.jsx:69 | the filter keeps order |
| AddDeviceModal.TrimAll | frontend/src/components/AddDeviceModal.jsx:68 | each piece trimmed, in order |
| AddDeviceModal.TrimAllConcat | frontend/src/components/AddDeviceModal.jsx:68 | trimming distributes over concatenation |
| AddDeviceModal.Clean | frontend/src/components/AddDeviceModal.jsx:57-69 | an app the field gives back unchanged; `AddDeviceModal.ParseJoinRoundTrip` round-trips lists of such apps |
| AddDeviceModal.TrimAllIsMap | frontend/src/components/AddDeviceModal.jsx:68 | trimming the pieces is mapping the trim over them |
| AddDeviceModal.TrimmedClean | frontend/src/components/AddDeviceModal.jsx:65-69 | a trimmed non-empty comma-free piece has no comma and no outer whitespace |
| AddDeviceModal.ParseApps | frontend/src/components/AddDeviceModal.jsx:65-69 | every parsed app is non-empty, comma-free and trimmed |
| AddDeviceModal.ParseAppsConcat | frontend/src/components/AddDeviceModal.jsx:65-69 | parsing "a,b" parses a and then b |
| AddDeviceModal.JoinPieces | frontend/src/components/AddDeviceModal.jsx:57 | joining with ", " is joining with "," pieces that start with a space |
| AddDeviceModal.TrimClean | frontend/src/components/AddDeviceModal.jsx:68 | trimming leaves a clean app, with or without a leading space |
| AddDeviceModal.CutAtComma | frontend/src/components/AddDeviceModal.jsx:67 | a string with a comma is its text before the first comma, the comma, and the rest |
| AddDeviceModal.SplitConcat | frontend/src/components/AddDeviceModal.jsx:67 | splitting at a comma splits each side separately |
| AddDeviceModal.SplitConcatCut | frontend/src/components/AddDeviceModal.jsx:67 | the inductive step of `AddDeviceModal.SplitConcat` |
| AddDeviceModal.Pieces | frontend/src/components/AddDeviceModal.jsx:57-67 | one comma-separated piece per app of a join with ", " |
| AddDeviceModal.PiecesStep | frontend/src/components/AddDeviceModal.jsx:57-67 | the first piece is the prefixed first app, the rest follow with a leading space |
| AddDeviceModal.ParseMapped | frontend/src/components/AddDeviceModal.jsx:65-69 | pieces that each map back to their non-empty app filter back to the apps |
| AddDeviceModal.ParsePieces | frontend/src/components/AddDeviceModal.jsx:65-69 | parsing the pieces of clean apps gives the apps back |
| AddDeviceModal.PiecesCommaFree | frontend/src/components/AddDeviceModal.jsx:57 | pieces of comma-free apps are comma-free |
| AddDeviceModal.ParseJoinRoundTrip | frontend/src/components/AddDeviceModal.jsx:57-69 | clean apps joined with ", " parse back to themselves |
| AddDeviceModal.ParseNormalises | frontend/src/components/AddDeviceModal.jsx:57-69 | parsing, joining and parsing again gives the first parse |
| AddDeviceModal.SerializeApp | frontend/src/components/AddDeviceModal.jsx:45-49 | a string stays itself; a named record becomes "name version", or the name alone without a version; an unnamed record becomes "[object Object]" |
| AddDeviceModal.EditSubmitsSerialised | frontend/src/components/AddDeviceModal.jsx:45-57 | editing and saving unchanged resubmits one string per app, the serialised app |
| AddDeviceModal.EditingApps | frontend/src/components/AddDeviceModal.jsx:45-57 | the serialised apps joined with ", "; `AddDeviceModal.EditSubmitsSerialised` shows saving it unchanged resubmits each serialised app |
| AddDeviceModal.EditKeepsRecord | frontend/src/components/AddDeviceModal.jsx:45-49 | a record with a space-free name and a version is displayed after the edit round trip as the same name and version |
| AddDeviceModal.PayloadCpu | frontend/src/components/AddDeviceModal.jsx:82 | a model exactly when the CPU text is non-empty, that text; never a core count |
| AddDeviceModal.FormPayload | frontend/src/components/AddDeviceModal.jsx:76-87 | the payload carries the CPU object, a RAM size exactly when one was typed, no used RAM, and one submitted app per parsed app |
| AddDeviceModal.InitialTab | frontend/src/components/AddDeviceModal.jsx:27 | the manual tab exactly when editing |
| Inventory.ThreatToView | backend/api/threats.py:61-67 | a finding as the frontend reads it; `Inventory.ScanToView` carries it into each row |
| Inventory.ItemToView | backend/api/threats.py:85-90 | a report row as the frontend reads it, its threat viewed when present |
| Inventory.ItemsToView | backend/api/threats.py:85-107 | one view per report row, in order |
| Inventory.ReportToView | backend/api/threats.py:72-77 | a device report as the frontend reads it: name kept, both row lists viewed, no severity |
| Inventory.ScanToView | backend/api/threats.py:134-136 | a stored scan reads on the frontend with the same id and one result per report, in order |
| Strings.IsJsSpace | frontend/src/components/AddDeviceModal.jsx:68 | the characters JavaScript's `trim` removes |
| Strings.IsPySpace | backend/api/threats.py:41 | the characters Python's `strip` and `split()` treat as whitespace |
| Strings.TrimLeft | agent/agent.py:109 | a suffix of the input not starting with a blank, all of whose dropped characters are blank |
| Strings.TrimRight | agent/agent.py:109 | a prefix of the input not ending with a blank, all of whose dropped characters are blank |
| Strings.Trim | frontend/src/components/AddDeviceModal.jsx:68 | the result starts and ends with a non-space and uses only the input's characters |
| Strings.TrimOfTrimmed | agent/agent.py:109 | a string without outer whitespace trims to itself |
| Strings.TrimIdempotent | frontend/src/components/AddDeviceModal.jsx:68 | trimming twice equals trimming once |
| Strings.TrimBlankPrefix | frontend/src/components/AddDeviceModal.jsx:68 | a leading blank disappears under trimming |
| Strings.TrimKeepsSuffix | agent/agent.py:199 | trimming keeps a suffix that starts and ends with non-blanks, so the result still ends with it |
| Strings.JsTrim | frontend/src/components/AddDeviceModal.jsx:68 | `trim` with the JavaScript set; `Strings.Trim` and `Strings.TrimIdempotent` state its properties |
| Strings.PyStrip | agent/agent.py:109 | `strip` with the Python set; `Strings.Trim` and `Strings.TrimOfTrimmed` state its properties |
| Strings.IndexOf | frontend/src/components/DeviceList.jsx:24 | -1 exactly when the character is absent; otherwise its first position |
| Strings.IndexOfAfter | frontend/src/components/DeviceList.jsx:24 | the first occurrence in text before which the character is absent is right after that text |
| Strings.Join | frontend/src/components/AddDeviceModal.jsx:57 | a single part joins to itself; `Strings.JoinSplit` and `Strings.SplitJoin` relate joining to splitting |
| Strings.Split | frontend/src/components/AddDeviceModal.jsx:67 | at least one piece, none holding the separator |
| Strings.JoinSplit | frontend/src/components/AddDeviceModal.jsx:67 | joining the pieces with the separator rebuilds the string |
| Strings.SplitJoin | frontend/src/components/AddDeviceModal.jsx:57 | splitting a join of separator-free pieces gives the pieces back |
| Strings.SplitAfter | frontend/src/components/AddDeviceModal.jsx:67 | splitting at the first separator peels off the text before it |
| Strings.Words | agent/agent.py:97 | every word is non-empty and holds no whitespace |
| Strings.Token | backend/api/threats.py:41 | the longest blank-free prefix, followed by a blank or the end |
| Strings.Blank | backend/api/threats.py:41 | every character is whitespace; `Strings.SplitOnce` gives no piece exactly for such a string |
| Strings.SplitOnce | backend/api/threats.py:41 | at most two pieces; none exactly for a blank string; the first a word, the second starting with a non-space |
| Strings.SplitOnceRebuild | backend/api/threats.py:41 | the string itself is blank leading text, the first piece, and then either blank trailing text or a non-empty blank gap and the second piece, which keeps any trailing blanks |
| Strings.WordPieces | backend/api/threats.py:41 | the string is blanks, its first word, blanks and the remainder, with blanks before any remainder |
| Strings.LeadSplit | backend/api/threats.py:41 | the string is its leading blanks followed by what left-trimming keeps |
| Strings.TokenSplit | backend/api/threats.py:41 | the string is its leading token followed by the rest |
| Strings.StartsWith | agent/agent.py:103 | Python `startswith`; `Agent.DpkgEntry` rejects names passing it with "lib" |
| Strings.EndsWith | agent/agent.py:199 | Python `endswith`; `Agent.BundleLine` shows `name.app` passes it once stripped |
| Strings.Replace | agent/agent.py:200 | removing never lengthens; a string without the pattern's first character is unchanged |
| Strings.ReplaceCons | agent/agent.py:200 | a character that cannot start the pattern is copied and the scan goes on after it |
| Strings.ReplaceFirst | agent/agent.py:200 | when no earlier character starts the pattern, its first occurrence is replaced and the scan goes on after it |
| Strings.ReplaceSuffix | agent/agent.py:200 | removing a pattern that occurs only at the end leaves exactly the text before it |
| Strings.Decimal | backend/api/threats.py:58 | a non-empty string of digits |
| Strings.Lower | frontend/src/components/Dashboard.jsx:35 | same length, no upper-case ASCII letter left, each one mapped to its lower-case letter, every other character kept |
| Strings.LowerIdempotent | frontend/src/components/Dashboard.jsx:35 | lower-casing twice equals lower-casing once |

## Left out

- **OS probing and subprocess handling.** The agent's CPU and RAM probing, the `platform` check mechanics, subprocess calls and their timeouts, and the HTTP registration call are I/O. Each command's outcome is a parameter instead.
- **Windows enumeration.** The registry and `wmic` enumeration is taken as an input list (`Windows(found)`). It depends on the Windows registry API.
- **Random values.** The random number generator is an oracle. Among other things, the bump arithmetic of `_random_latest_version` is a value the oracle returns for the slot. Only its "—" case, where nothing is drawn, is modelled.
- **Ids, timestamps and the scan delay.** uuid ids and timestamps (`last_seen`, scan `timestamp`) come from the system. Ids are parameters and timestamps are not stored. The five-second `time.sleep` of the scan route is not modelled.
- **Flask and HTTP.** Routing, JSON parsing, `jsonify` and deep copies are left out. Routes are methods that return a status and a body. `list_devices` and `list_scans` only wire a store operation to a route.
- **Rendering and network calls in the frontend.** JSX output, styling and `fetch` calls are left out. Awaited results are parameters (`Fetch`). The DeviceList load, delete and edit-open handlers and the AddDeviceModal agent tab only issue requests.
- **Float parsing.** `parseFloat` of the RAM field has floating-point semantics. The payload carries the typed text when it is non-empty.
- **Progress arithmetic.** The progress percentage is computed in exact arithmetic, not in IEEE doubles.
- **Text handling.** Trimming uses the full whitespace sets of JavaScript's `trim` and Python's `strip` (`Strings.IsJsSpace`, `Strings.IsPySpace`), Unicode space separators included. No other Unicode processing, such as normalisation, is modelled.
- Strings.Lower: lower-cases the ASCII letters only; `toLowerCase` also maps non-ASCII upper-case letters, which the model keeps as they are.
- **JSON nulls in string fields.** A null in a string field of a request body is treated like an absent field. For flags only truthiness matters, and null reads as false.
- **Untyped JSON values.** `_normalize_app` on a dict without "name" (it is stringified), and on values that are neither strings nor dicts, is left out. The model's apps are strings or name/version records.
- **Edit prefill.** The AddDeviceModal edit prefill is modelled for the apps field only. The other fields copy the record with "" defaults.
- **Key order.** The key order of JavaScript objects and Python dicts is not modelled. Results are compared as maps, sequences or records.
- **The Linux command loop.** It is written out as its two iterations, dpkg then the rpm query format, followed by the plain `rpm -qa` fallback.
- Dashboard.Bump: does not model the keys that `Object.prototype` already holds. With the JavaScript `{}` accumulator a type or severity named "constructor" starts from an inherited function, and "__proto__" is not stored. The model's map has no prototype, so `Dashboard.ByType` and `Dashboard.SeverityCounts` count such names like any other, and device types are free text.
- DevicesApi.Whitelist: keeps the request body's order instead of the order of the allowed-key tuple. A JSON object holds each key once, so applying the updates gives the same record either way.
