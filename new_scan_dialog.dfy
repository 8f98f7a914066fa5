/**
 * The "New Threat Scan" dialog: per-device software/hardware flags that
 * default to on, a selection of CVE sources that defaults to the whole
 * catalog, and the request it hands on when a scan is started.
 */
module NewScanDialog {
  import opened Wrappers
  import opened Inventory
  import opened Seqs
  import DeviceSelector

  /** A device's entry in `deviceConfigs`; a key that was never set is `None`. */
  datatype Flags = Flags(scanSoftware: Option<bool>, scanHardware: Option<bool>)

  datatype FlagKey = ScanSoftwareKey | ScanHardwareKey

  const DefaultFlags := Flags(Some(true), Some(true))

  /** An entry with both keys set. */
  predicate Full(f: Flags)
  {
    f.scanSoftware.Some? && f.scanHardware.Some?
  }

  /** The catalog the dialog offers before (or instead of) the backend's. */
  const DefaultCveSources: seq<SourceEntry> := [
    SourceEntry("nvd.nist.gov", "nvd.nist.gov"), SourceEntry("cve.mitre.org", "cve.mitre.org"),
    SourceEntry("exploit-db.com", "exploit-db.com"), SourceEntry("vulners.com", "vulners.com"),
    SourceEntry("packetstormsecurity.com", "packetstormsecurity.com"),
    SourceEntry("vulncode-db.com", "vulncode-db.com"), SourceEntry("securityfocus.com", "securityfocus.com"),
    SourceEntry("redhat.com", "redhat.com"), SourceEntry("snyk.io", "snyk.io"), SourceEntry("osv.dev", "osv.dev")]

  // ---- The source selection, a JavaScript Set ----

  /** `cveSources.map((s) => s.id)`. */
  function SourceIds(sources: seq<SourceEntry>): (ids: seq<string>)
    ensures |ids| == |sources| && forall k :: 0 <= k < |sources| ==> ids[k] == sources[k].id
  {
    seq(|sources|, k requires 0 <= k < |sources| => sources[k].id)
  }

  /** `new Set(ids)` read in iteration order: the first occurrence of each
   *  id, in order. */
  function Distinct(ids: seq<string>): (r: seq<string>)
    ensures DeviceSelector.NoDup(r)
    ensures forall x :: x in r <==> x in ids
  {
    if ids == [] then []
    else
      var last := ids[|ids| - 1];
      var r := Distinct(ids[..|ids| - 1]);
      assert ids == ids[..|ids| - 1] + [last];
      if last in r then r else r + [last]
  }

  /** `toggleCveSite` on the set: delete a member, add (at the end) a
   *  non-member. */
  function ToggleSite(selected: seq<string>, id: string): (r: seq<string>)
    ensures DeviceSelector.NoDup(selected) ==> DeviceSelector.NoDup(r)
    ensures id in r <==> id !in selected
    ensures forall x :: x != id ==> (x in r <==> x in selected)
  {
    if id in selected then DeviceSelector.Remove(selected, id)
    else
      var r := selected + [id];
      assert forall i :: 0 <= i < |selected| ==> r[i] == selected[i] && selected[i] in selected;
      r
  }

  /** Toggling the same site twice selects the same sites again. */
  lemma ToggleSiteTwice(selected: seq<string>, id: string)
    ensures forall x :: x in ToggleSite(ToggleSite(selected, id), id) <==> x in selected
    ensures id !in selected ==> ToggleSite(ToggleSite(selected, id), id) == selected
  {
    if id !in selected {
      DeviceSelector.ToggleTwiceAbsent(selected, id);
    }
  }

  // ---- Building the request ----

  /** `deviceConfigs[id]?.scan_software ?? true`. */
  function SoftwareFlag(configs: map<string, Flags>, id: string): bool
  {
    if id in configs && configs[id].scanSoftware.Some? then configs[id].scanSoftware.value else true
  }

  /** `deviceConfigs[id]?.scan_hardware ?? true`. */
  function HardwareFlag(configs: map<string, Flags>, id: string): bool
  {
    if id in configs && configs[id].scanHardware.Some? then configs[id].scanHardware.value else true
  }

  /** The config `handleRunScan` maps a device to; a device without an entry
   *  scans both software and hardware. */
  function ConfigFor(d: Device, configs: map<string, Flags>): (c: ScanConfig)
    ensures c.deviceId == Some(d.id) && c.scanSoftware.Some? && c.scanHardware.Some?
    ensures d.id !in configs ==> c.scanSoftware == Some(true) && c.scanHardware == Some(true)
    ensures d.id in configs && configs[d.id] == Flags(Some(false), Some(false)) ==>
      !c.scanSoftware.value && !c.scanHardware.value
  {
    ScanConfig(Some(d.id), Some(SoftwareFlag(configs, d.id)), Some(HardwareFlag(configs, d.id)))
  }

  /** A device stays in the request unless both its flags are off. */
  predicate Kept(d: Device, configs: map<string, Flags>)
  {
    SoftwareFlag(configs, d.id) || HardwareFlag(configs, d.id)
  }

  /** The `devices.map(...).filter(...)` pipeline of `handleRunScan`. */
  function BuildConfigs(devices: seq<Device>, configs: map<string, Flags>): (r: seq<ScanConfig>)
    ensures |r| <= |devices|
    ensures forall c :: c in r ==> c.scanSoftware == Some(true) || c.scanHardware == Some(true)
  {
    if devices == [] then []
    else
      var last := devices[|devices| - 1];
      var init := devices[..|devices| - 1];
      var r := BuildConfigs(init, configs);
      if Kept(last, configs) then r + [ConfigFor(last, configs)] else r
  }

  /** The request holds the config of each kept device and nothing else. */
  lemma {:induction false} BuildConfigsMembers(devices: seq<Device>, configs: map<string, Flags>)
    ensures forall c :: c in BuildConfigs(devices, configs) <==>
      exists k :: 0 <= k < |devices| && Kept(devices[k], configs) && c == ConfigFor(devices[k], configs)
  {
    if devices != [] {
      var init := devices[..|devices| - 1];
      BuildConfigsMembers(init, configs);
      assert forall k :: 0 <= k < |init| ==> init[k] == devices[k];
    }
  }

  /** The request keeps device order. */
  lemma {:induction false} BuildConfigsConcat(a: seq<Device>, b: seq<Device>, configs: map<string, Flags>)
    ensures BuildConfigs(a + b, configs) == BuildConfigs(a, configs) + BuildConfigs(b, configs)
    decreases |b|
  {
    if b == [] {
      assert a + b == a;
    } else {
      var b' := b[..|b| - 1];
      var last := b[|b| - 1];
      BuildConfigsConcat(a, b', configs);
      SnocParts(a, b);
      var step := if Kept(last, configs) then [ConfigFor(last, configs)] else [];
      assert BuildConfigs(a + b, configs) == BuildConfigs(a + b', configs) + step;
      assert BuildConfigs(b, configs) == BuildConfigs(b', configs) + step;
      Associative(BuildConfigs(a, configs), BuildConfigs(b', configs), step);
    }
  }

  /** `hasAnySelected`: some device's entry has a flag that is on; a device
   *  without an entry counts as off here. */
  predicate HasAnySelected(devices: seq<Device>, configs: map<string, Flags>)
  {
    exists k :: 0 <= k < |devices| && devices[k].id in configs &&
      (configs[devices[k].id].scanSoftware == Some(true) || configs[devices[k].id].scanHardware == Some(true))
  }

  /** Once every device has a full entry, the run button's test agrees with
   *  the request `handleRunScan` would build. */
  lemma HasAnySelectedAgrees(devices: seq<Device>, configs: map<string, Flags>)
    requires forall k :: 0 <= k < |devices| ==> devices[k].id in configs && Full(configs[devices[k].id])
    ensures HasAnySelected(devices, configs) <==> BuildConfigs(devices, configs) != []
  {
    BuildConfigsMembers(devices, configs);
    if HasAnySelected(devices, configs) {
      var k :| 0 <= k < |devices| && devices[k].id in configs &&
        (configs[devices[k].id].scanSoftware == Some(true) || configs[devices[k].id].scanHardware == Some(true));
      assert ConfigFor(devices[k], configs) in BuildConfigs(devices, configs);
    }
    if BuildConfigs(devices, configs) != [] {
      var c := BuildConfigs(devices, configs)[0];
      assert c in BuildConfigs(devices, configs);
      var k :| 0 <= k < |devices| && Kept(devices[k], configs) && c == ConfigFor(devices[k], configs);
      assert devices[k].id in configs;
    }
  }

  // ---- The defaults merge ----

  /** The defaults for devices `ds`: both flags on for each id. */
  function Defaults(ds: seq<Device>): (r: map<string, Flags>)
    ensures forall k :: 0 <= k < |ds| ==> ds[k].id in r && r[ds[k].id] == Flags(Some(true), Some(true))
    ensures forall id :: id in r ==> exists k :: 0 <= k < |ds| && ds[k].id == id
  {
    map id | id in DeviceSelector.Ids(ds) :: DefaultFlags
  }

  /** `{ ...init, ...prev }`: every key of either, `prev`'s value winning. */
  function Merge(init: map<string, Flags>, prev: map<string, Flags>): (r: map<string, Flags>)
    ensures r.Keys == init.Keys + prev.Keys
    ensures forall k :: k in prev ==> r[k] == prev[k]
    ensures forall k :: k in init && k !in prev ==> r[k] == init[k]
  {
    map k | k in init.Keys + prev.Keys :: if k in prev then prev[k] else init[k]
  }

  /** The dialog's state. `selectedCveSites` is a JavaScript Set: kept here
   *  in its insertion order, without repeats. */
  class ScanDialog {
    var open: bool
    var devices: seq<Device>
    var cveSources: seq<SourceEntry>
    var deviceConfigs: map<string, Flags>
    var selectedCveSites: seq<string>

    /** The selection is a set. */
    predicate Valid()
      reads this
    {
      DeviceSelector.NoDup(selectedCveSites)
    }

    /** The mounted dialog, once its effects have run on the initial state:
     *  no devices, the default catalog, all of it selected. */
    constructor ()
      ensures Valid()
      ensures !open && devices == [] && cveSources == DefaultCveSources && deviceConfigs == map[]
      ensures selectedCveSites == Distinct(SourceIds(DefaultCveSources))
    {
      open := false;
      devices := [];
      cveSources := DefaultCveSources;
      deviceConfigs := map[];
      selectedCveSites := Distinct(SourceIds(DefaultCveSources));
    }

    /** `setOpen`, from the trigger or the Cancel button. */
    method SetOpen(value: bool)
      modifies this
      ensures open == value
      ensures devices == old(devices) && cveSources == old(cveSources)
      ensures deviceConfigs == old(deviceConfigs) && selectedCveSites == old(selectedCveSites)
    {
      open := value;
    }

    /** The device list arrives; the effect on `devices` then gives each
     *  device the default entry unless it already has one. */
    method LoadDevices(ds: seq<Device>)
      modifies this
      ensures devices == ds && deviceConfigs == Merge(Defaults(ds), old(deviceConfigs))
      ensures forall k :: k in old(deviceConfigs) ==> deviceConfigs[k] == old(deviceConfigs)[k]
      ensures forall k :: 0 <= k < |ds| ==>
        (ds[k].id in deviceConfigs && (ds[k].id !in old(deviceConfigs) ==> deviceConfigs[ds[k].id] == DefaultFlags))
      ensures open == old(open) && cveSources == old(cveSources) && selectedCveSites == old(selectedCveSites)
    {
      devices := ds;
      var init: map<string, Flags> := map[];
      var k := 0;
      while k < |ds|
        invariant 0 <= k <= |ds|
        invariant init == Defaults(ds[..k])
      {
        assert DeviceSelector.Ids(ds[..k + 1]) == DeviceSelector.Ids(ds[..k]) + [ds[k].id];
        init := init[ds[k].id := DefaultFlags];
        k := k + 1;
      }
      assert ds[..k] == ds;
      forall j | 0 <= j < |ds| ensures ds[j].id in init {
        assert DeviceSelector.Ids(ds)[j] == ds[j].id;
      }
      deviceConfigs := Merge(init, deviceConfigs);
    }

    /** The catalog arrives (or the default replaces a failed request); the
     *  effect on `cveSources` then selects every source in it. */
    method LoadSources(sources: seq<SourceEntry>)
      modifies this
      ensures Valid()
      ensures cveSources == sources && selectedCveSites == Distinct(SourceIds(sources))
      ensures forall x :: x in selectedCveSites <==> exists k :: 0 <= k < |sources| && sources[k].id == x
      ensures open == old(open) && devices == old(devices) && deviceConfigs == old(deviceConfigs)
    {
      cveSources := sources;
      selectedCveSites := Distinct(SourceIds(sources));
      SelectsEvery(sources);
    }

    /** `setDeviceOption`: key `key` of device `deviceId` becomes `value`;
     *  its other key and every other device keep their entries. */
    method SetDeviceOption(deviceId: string, key: FlagKey, value: bool)
      modifies this
      ensures deviceId in deviceConfigs
      ensures key == ScanSoftwareKey ==> deviceConfigs[deviceId].scanSoftware == Some(value)
      ensures key == ScanHardwareKey ==> deviceConfigs[deviceId].scanHardware == Some(value)
      ensures var before := if deviceId in old(deviceConfigs) then old(deviceConfigs)[deviceId] else Flags(None, None);
        (key == ScanSoftwareKey ==> deviceConfigs[deviceId].scanHardware == before.scanHardware) &&
        (key == ScanHardwareKey ==> deviceConfigs[deviceId].scanSoftware == before.scanSoftware)
      ensures deviceConfigs.Keys == old(deviceConfigs).Keys + {deviceId}
      ensures forall k :: k in old(deviceConfigs) && k != deviceId ==> deviceConfigs[k] == old(deviceConfigs)[k]
      ensures open == old(open) && devices == old(devices) && cveSources == old(cveSources)
      ensures selectedCveSites == old(selectedCveSites)
    {
      var prev := if deviceId in deviceConfigs then deviceConfigs[deviceId] else Flags(None, None);
      var next := match key
        case ScanSoftwareKey => prev.(scanSoftware := Some(value))
        case ScanHardwareKey => prev.(scanHardware := Some(value));
      deviceConfigs := deviceConfigs[deviceId := next];
    }

    /** `toggleCveSite`. */
    method ToggleCveSite(id: string)
      requires Valid()
      modifies this
      ensures Valid()
      ensures selectedCveSites == ToggleSite(old(selectedCveSites), id)
      ensures open == old(open) && devices == old(devices) && cveSources == old(cveSources)
      ensures deviceConfigs == old(deviceConfigs)
    {
      var next := selectedCveSites;
      if id in next {
        next := DeviceSelector.Remove(next, id);
      } else {
        next := next + [id];
      }
      selectedCveSites := next;
    }

    /** `selectAllCve`: every source of the current catalog. */
    method SelectAllCve()
      modifies this
      ensures Valid()
      ensures selectedCveSites == Distinct(SourceIds(cveSources))
      ensures forall x :: x in selectedCveSites <==> exists k :: 0 <= k < |cveSources| && cveSources[k].id == x
      ensures open == old(open) && devices == old(devices) && cveSources == old(cveSources)
      ensures deviceConfigs == old(deviceConfigs)
    {
      selectedCveSites := Distinct(SourceIds(cveSources));
      SelectsEvery(cveSources);
    }

    /** `handleRunScan`: the request handed to `onScanComplete`, if any; the
     *  dialog closes only when one is handed on. Nothing is handed on with
     *  no config or no source. */
    method RunScan() returns (submitted: Option<(seq<ScanConfig>, seq<string>)>)
      modifies this
      ensures var configs := BuildConfigs(devices, deviceConfigs);
        if configs == [] || selectedCveSites == [] then submitted.None? && open == old(open)
        else submitted == Some((configs, selectedCveSites)) && !open
      ensures submitted.Some? ==> submitted.value.0 != [] && submitted.value.1 != []
      ensures devices == old(devices) && cveSources == old(cveSources)
      ensures deviceConfigs == old(deviceConfigs) && selectedCveSites == old(selectedCveSites)
    {
      var configs := BuildConfigs(devices, deviceConfigs);
      if |configs| == 0 {
        return None;
      }
      if |selectedCveSites| == 0 {
        return None;
      }
      submitted := Some((configs, selectedCveSites));
      open := false;
    }
  }

  /** Selecting a whole catalog selects exactly its ids. */
  lemma SelectsEvery(sources: seq<SourceEntry>)
    ensures forall x :: x in Distinct(SourceIds(sources)) <==> exists k :: 0 <= k < |sources| && sources[k].id == x
  {
    var ids := SourceIds(sources);
    forall x ensures x in ids <==> exists k :: 0 <= k < |sources| && sources[k].id == x {
      if x in ids {
        var k :| 0 <= k < |ids| && ids[k] == x;
      }
    }
  }
}
