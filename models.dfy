/**
 * The backend's in-memory store: a list of devices and a list of threat
 * scans, appended to in place. Fresh ids come from the caller (the store
 * draws them from a random uuid, which is not modelled), and uniqueness of
 * ids is not assumed: every lookup finds the first device with the id.
 */
module Models {
  import opened Wrappers
  import opened Inventory

  /** Index of the first device with this id, or -1 when there is none. */
  function IndexOfId(ds: seq<Device>, id: string): (i: int)
    ensures -1 <= i < |ds|
    ensures i == -1 <==> forall k :: 0 <= k < |ds| ==> ds[k].id != id
    ensures 0 <= i ==> ds[i].id == id && forall k :: 0 <= k < i ==> ds[k].id != id
  {
    if ds == [] then -1
    else if ds[0].id == id then 0
    else
      var j := IndexOfId(ds[1..], id);
      if j < 0 then -1 else j + 1
  }

  /** Overwriting the first device with an id by one with the same id
   *  keeps it the first. */
  lemma IndexOfIdReplace(ds: seq<Device>, i: nat, d: Device)
    requires i < |ds| && IndexOfId(ds, ds[i].id) == i && d.id == ds[i].id
    ensures IndexOfId(ds[i := d], d.id) == i
  {
    var es := ds[i := d];
    assert forall k :: 0 <= k < i ==> es[k] == ds[k];
  }

  /** The devices whose id differs from `id`, in their original order. */
  function WithoutId(ds: seq<Device>, id: string): (r: seq<Device>)
    ensures |r| <= |ds|
    ensures forall d :: d in r <==> d in ds && d.id != id
  {
    if ds == [] then []
    else
      var keep := WithoutId(ds[..|ds| - 1], id);
      var last := ds[|ds| - 1];
      assert ds == ds[..|ds| - 1] + [last];
      if last.id == id then keep else keep + [last]
  }

  /** Removal distributes over concatenation, so the survivors keep their order. */
  lemma {:induction false} WithoutIdConcat(a: seq<Device>, b: seq<Device>, id: string)
    ensures WithoutId(a + b, id) == WithoutId(a, id) + WithoutId(b, id)
    decreases |b|
  {
    if b != [] {
      var b' := b[..|b| - 1];
      assert (a + b)[..|a + b| - 1] == a + b';
      assert (a + b)[|a + b| - 1] == b[|b| - 1];
      WithoutIdConcat(a, b', id);
    } else {
      assert a + b == a;
    }
  }

  /** With no device carrying the id, removal changes nothing. */
  lemma {:induction false} WithoutAbsentId(ds: seq<Device>, id: string)
    requires forall k :: 0 <= k < |ds| ==> ds[k].id != id
    ensures WithoutId(ds, id) == ds
    decreases |ds|
  {
    if ds != [] {
      WithoutAbsentId(ds[..|ds| - 1], id);
      assert ds == ds[..|ds| - 1] + [ds[|ds| - 1]];
    }
  }

  /** The keys a stored device has (`last_seen` is not modelled). */
  datatype Key = KId | KName | KType | KSource | KIp | KOs | KHardware | KApps | KAgentId

  /** The value stored under a key. */
  datatype FieldValue =
    | TextValue(text: string)
    | HardwareValue(hardware: Hardware)
    | AppsValue(apps: seq<App>)
    | AgentValue(agentId: Option<string>)

  /** One keyword argument of `update_device`; `None` is Python's `None`.
   *  `SetOther` names a key the device does not have. */
  datatype Update =
    | SetId(id: Option<string>)
    | SetName(name: Option<string>)
    | SetType(deviceType: Option<string>)
    | SetSource(source: Option<string>)
    | SetIp(ip: Option<string>)
    | SetOs(os: Option<string>)
    | SetHardware(hardware: Option<Hardware>)
    | SetApps(apps: Option<seq<App>>)
    | SetAgentId(agentId: Option<string>)
    | SetOther(key: string)

  function Get(d: Device, k: Key): FieldValue
  {
    match k
    case KId => TextValue(d.id)
    case KName => TextValue(d.name)
    case KType => TextValue(d.deviceType)
    case KSource => TextValue(d.source)
    case KIp => TextValue(d.ip)
    case KOs => TextValue(d.os)
    case KHardware => HardwareValue(d.hardware)
    case KApps => AppsValue(d.installedApps)
    case KAgentId => AgentValue(d.agentId)
  }

  /** The key and value an update writes, or `None` when `update_device`
   *  skips it: the value is `None`, or the device has no such key. */
  function Written(u: Update): Option<(Key, FieldValue)>
  {
    match u
    case SetId(v) => if v.Some? then Some((KId, TextValue(v.value))) else None
    case SetName(v) => if v.Some? then Some((KName, TextValue(v.value))) else None
    case SetType(v) => if v.Some? then Some((KType, TextValue(v.value))) else None
    case SetSource(v) => if v.Some? then Some((KSource, TextValue(v.value))) else None
    case SetIp(v) => if v.Some? then Some((KIp, TextValue(v.value))) else None
    case SetOs(v) => if v.Some? then Some((KOs, TextValue(v.value))) else None
    case SetHardware(v) => if v.Some? then Some((KHardware, HardwareValue(v.value))) else None
    case SetApps(v) => if v.Some? then Some((KApps, AppsValue(v.value))) else None
    case SetAgentId(v) => if v.Some? then Some((KAgentId, AgentValue(v))) else None
    case SetOther(_) => None
  }

  /** One iteration of `update_device`'s loop: `device[k] = v` when `k in device and v is not None`. */
  function Apply(d: Device, u: Update): Device
  {
    match u
    case SetId(v) => if v.Some? then d.(id := v.value) else d
    case SetName(v) => if v.Some? then d.(name := v.value) else d
    case SetType(v) => if v.Some? then d.(deviceType := v.value) else d
    case SetSource(v) => if v.Some? then d.(source := v.value) else d
    case SetIp(v) => if v.Some? then d.(ip := v.value) else d
    case SetOs(v) => if v.Some? then d.(os := v.value) else d
    case SetHardware(v) => if v.Some? then d.(hardware := v.value) else d
    case SetApps(v) => if v.Some? then d.(installedApps := v.value) else d
    case SetAgentId(v) => if v.Some? then d.(agentId := v) else d
    case SetOther(_) => d
  }

  /** The whole loop of `update_device` over its keyword arguments. */
  function ApplyAll(d: Device, us: seq<Update>): Device
  {
    if us == [] then d else Apply(ApplyAll(d, us[..|us| - 1]), us[|us| - 1])
  }

  /** The value the last update writing `k` writes, if any update does. */
  function LastWritten(us: seq<Update>, k: Key): (r: Option<FieldValue>)
    ensures r.None? <==> forall j :: 0 <= j < |us| ==> Written(us[j]).None? || Written(us[j]).value.0 != k
  {
    if us == [] then None
    else
      var w := Written(us[|us| - 1]);
      if w.Some? && w.value.0 == k then Some(w.value.1)
      else
        var r := LastWritten(us[..|us| - 1], k);
        assert forall j :: 0 <= j < |us| - 1 ==> us[..|us| - 1][j] == us[j];
        r
  }

  /** One update writes exactly the key and value `Written` names. */
  lemma GetApply(d: Device, u: Update, k: Key)
    ensures Get(Apply(d, u), k) == if Written(u).Some? && Written(u).value.0 == k then Written(u).value.1 else Get(d, k)
  {
  }

  /** `update_device` leaves every key at its old value unless some argument
   *  writes it, and then holds the value of the last such argument. */
  lemma {:induction false} ApplyAllFields(d: Device, us: seq<Update>, k: Key)
    ensures Get(ApplyAll(d, us), k) == LastWritten(us, k).GetOr(Get(d, k))
    decreases |us|
  {
    if us != [] {
      ApplyAllFields(d, us[..|us| - 1], k);
      GetApply(ApplyAll(d, us[..|us| - 1]), us[|us| - 1], k);
    }
  }

  /** The reverse of a sequence. */
  function Reversed<T>(s: seq<T>): (r: seq<T>)
    ensures |r| == |s|
    ensures forall k :: 0 <= k < |s| ==> r[k] == s[|s| - 1 - k]
  {
    if s == [] then [] else [s[|s| - 1]] + Reversed(s[..|s| - 1])
  }

  class Store {
    var devices: seq<Device>
    var threatScans: seq<ThreatScan>

    constructor ()
      ensures devices == [] && threatScans == []
    {
      devices := [];
      threatScans := [];
    }

    /** `create_device`: appends one device whose hardware defaults to `{}`
     *  and whose apps default to `[]`. */
    method CreateDevice(id: string, name: string, deviceType: string, source: string, ip: string, os: string,
                        hardware: Option<Hardware>, installedApps: Option<seq<App>>, agentId: Option<string>)
      returns (d: Device)
      modifies this
      ensures d == Device(id, name, deviceType, source, ip, os, hardware.GetOr(EmptyHardware), installedApps.GetOr([]), agentId)
      ensures devices == old(devices) + [d]
      ensures threatScans == old(threatScans)
    {
      d := Device(id, name, deviceType, source, ip, os, hardware.GetOr(EmptyHardware), installedApps.GetOr([]), agentId);
      devices := devices + [d];
    }

    /** `get_device`: the first device with the id, or `None`. */
    method GetDevice(id: string) returns (d: Option<Device>)
      ensures var i := IndexOfId(devices, id); d == if i < 0 then None else Some(devices[i])
    {
      var k := 0;
      while k < |devices|
        invariant 0 <= k <= |devices|
        invariant forall j :: 0 <= j < k ==> devices[j].id != id
      {
        if devices[k].id == id {
          return Some(devices[k]);
        }
        k := k + 1;
      }
      return None;
    }

    /** `get_all_devices`: a copy of every device, in store order. */
    method GetAllDevices() returns (ds: seq<Device>)
      ensures ds == devices
    {
      ds := [];
      var k := 0;
      while k < |devices|
        invariant 0 <= k <= |devices|
        invariant ds == devices[..k]
      {
        ds := ds + [devices[k]];
        k := k + 1;
      }
    }

    /** `update_device`: `None` for an unknown id; otherwise the first device
     *  with the id gets every argument whose key it has and whose value is
     *  not `None`. */
    method UpdateDevice(id: string, kwargs: seq<Update>) returns (d: Option<Device>)
      modifies this
      ensures var i := IndexOfId(old(devices), id);
        if i < 0 then d.None? && devices == old(devices)
        else d == Some(ApplyAll(old(devices)[i], kwargs)) && devices == old(devices)[i := d.value]
      ensures threatScans == old(threatScans)
    {
      var found := GetDevice(id);
      if found.None? {
        return None;
      }
      var i := IndexOfId(devices, id);
      var dev := found.value;
      var k := 0;
      while k < |kwargs|
        invariant 0 <= k <= |kwargs|
        invariant dev == ApplyAll(devices[i], kwargs[..k])
      {
        assert kwargs[..k + 1][..k] == kwargs[..k];
        dev := Apply(dev, kwargs[k]);
        k := k + 1;
      }
      assert kwargs[..k] == kwargs;
      devices := devices[i := dev];
      return Some(dev);
    }

    /** `delete_device`: true iff the id existed; then every device with the
     *  id is gone and the rest keep their order. */
    method DeleteDevice(id: string) returns (found: bool)
      modifies this
      ensures found <==> IndexOfId(old(devices), id) >= 0
      ensures devices == WithoutId(old(devices), id)
      ensures threatScans == old(threatScans)
    {
      var dev := GetDevice(id);
      if dev.None? {
        WithoutAbsentId(devices, id);
        return false;
      }
      var kept := [];
      var k := 0;
      while k < |devices|
        invariant 0 <= k <= |devices|
        invariant kept == WithoutId(devices[..k], id)
      {
        assert devices[..k + 1][..k] == devices[..k];
        if devices[k].id != id {
          kept := kept + [devices[k]];
        }
        k := k + 1;
      }
      assert devices[..k] == devices;
      devices := kept;
      return true;
    }

    /** `create_threat_scan`: appends one completed scan, which then heads the
     *  newest-first listing. */
    method CreateThreatScan(id: string, deviceIds: seq<string>, results: seq<DeviceReport>) returns (scan: ThreatScan)
      modifies this
      ensures scan == ThreatScan(id, deviceIds, "completed", results, None, None)
      ensures threatScans == old(threatScans) + [scan]
      ensures devices == old(devices)
      ensures AllThreatScans() == [scan] + old(AllThreatScans())
    {
      scan := ThreatScan(id, deviceIds, "completed", results, None, None);
      threatScans := threatScans + [scan];
      assert threatScans[..|threatScans| - 1] == old(threatScans);
    }

    /** `get_all_threat_scans`: the scans newest first. */
    function AllThreatScans(): (r: seq<ThreatScan>)
      reads this
      ensures |r| == |threatScans|
      ensures forall k :: 0 <= k < |r| ==> r[k] == threatScans[|threatScans| - 1 - k]
    {
      Reversed(threatScans)
    }
  }
}
