/**
 * Agent self-registration: an upsert keyed by (hostname, source "agent").
 * A registration either refreshes the matching agent device's ip, os,
 * hardware and apps, or creates a new agent workstation.
 */
module AgentsApi {
  import opened Wrappers
  import opened Inventory
  import opened Models

  /** The JSON body an agent posts; every key may be missing. */
  datatype RegisterRequest = RegisterRequest(
    hostname: Option<string>,
    ip: Option<string>,
    os: Option<string>,
    hardware: Option<Hardware>,
    installedApps: Option<seq<App>>,
    agentId: Option<string>)

  predicate IsAgentNamed(d: Device, hostname: string)
  {
    d.name == hostname && d.source == "agent"
  }

  /** Index of the first agent-sourced device called `hostname`, or -1. */
  function AgentIndex(ds: seq<Device>, hostname: string): (i: int)
    ensures -1 <= i < |ds|
    ensures i == -1 <==> forall k :: 0 <= k < |ds| ==> !IsAgentNamed(ds[k], hostname)
    ensures 0 <= i ==> IsAgentNamed(ds[i], hostname) && forall k :: 0 <= k < i ==> !IsAgentNamed(ds[k], hostname)
  {
    if ds == [] then -1
    else if IsAgentNamed(ds[0], hostname) then 0
    else
      var j := AgentIndex(ds[1..], hostname);
      if j < 0 then -1 else j + 1
  }

  /** How many agent-sourced devices are called `hostname`. */
  function AgentCount(ds: seq<Device>, hostname: string): (n: nat)
    ensures n == 0 <==> AgentIndex(ds, hostname) == -1
    ensures n <= |ds|
  {
    if ds == [] then 0
    else
      var n := AgentCount(ds[..|ds| - 1], hostname);
      var hit := IsAgentNamed(ds[|ds| - 1], hostname);
      assert forall k :: 0 <= k < |ds| - 1 ==> ds[..|ds| - 1][k] == ds[k];
      if hit then n + 1 else n
  }

  /** The keyword arguments a re-registration passes to `update_device`. */
  function RefreshUpdates(ip: string, os: string, hardware: Hardware, apps: seq<App>): seq<Update>
  {
    [SetIp(Some(ip)), SetOs(Some(os)), SetHardware(Some(hardware)), SetApps(Some(apps))]
  }

  /** A re-registration overwrites exactly ip, os, hardware and apps. */
  lemma RefreshWrites(d: Device, ip: string, os: string, hardware: Hardware, apps: seq<App>)
    ensures ApplyAll(d, RefreshUpdates(ip, os, hardware, apps)) == d.(ip := ip, os := os, hardware := hardware, installedApps := apps)
  {
    var us := RefreshUpdates(ip, os, hardware, apps);
    assert us[..1][..0] == [] && us[..2][..1] == us[..1] && us[..3][..2] == us[..2] && us[..4][..3] == us[..3];
    assert us[..4] == us;
    assert ApplyAll(d, us[..1]) == d.(ip := ip);
    assert ApplyAll(d, us[..2]) == d.(ip := ip, os := os);
    assert ApplyAll(d, us[..3]) == d.(ip := ip, os := os, hardware := hardware);
  }

  /** Replacing a device by one with the same name and source keeps the count. */
  lemma {:induction false} AgentCountReplace(ds: seq<Device>, j: nat, d: Device, hostname: string)
    requires j < |ds| && d.name == ds[j].name && d.source == ds[j].source
    ensures AgentCount(ds[j := d], hostname) == AgentCount(ds, hostname)
    decreases |ds|
  {
    var last := |ds| - 1;
    if j < last {
      assert ds[j := d][..last] == ds[..last][j := d];
      AgentCountReplace(ds[..last], j, d, hostname);
    } else {
      assert ds[j := d][..last] == ds[..last];
    }
  }

  /** Appending one device adds one to the count iff it is an agent device with that name. */
  lemma AgentCountAppend(ds: seq<Device>, d: Device, hostname: string)
    ensures AgentCount(ds + [d], hostname) == AgentCount(ds, hostname) + (if IsAgentNamed(d, hostname) then 1 else 0)
  {
    assert (ds + [d])[..|ds|] == ds;
  }

  /** `_find_device_by_hostname`: the first device named `hostname` whose
   *  source is "agent"; a manual device of that name never matches. */
  method FindDeviceByHostname(store: Store, hostname: string) returns (d: Option<Device>)
    ensures var i := AgentIndex(store.devices, hostname);
      d == if i < 0 then None else Some(store.devices[i])
  {
    var all := store.GetAllDevices();
    var k := 0;
    while k < |all|
      invariant 0 <= k <= |all|
      invariant forall j :: 0 <= j < k ==> !IsAgentNamed(all[j], hostname)
    {
      if all[k].name == hostname && all[k].source == "agent" {
        return Some(all[k]);
      }
      k := k + 1;
    }
    return None;
  }

  /** The re-registration branch: the first device carrying `id` gets the
   *  new ip, os, hardware and apps; its name and source stay, so the number
   *  of agent devices called `hostname` stays too. */
  method Refresh(store: Store, id: string, hostname: string, ip: string, os: string, hardware: Hardware, apps: seq<App>)
    returns (d: Device)
    requires IndexOfId(store.devices, id) >= 0
    modifies store
    ensures var i := IndexOfId(old(store.devices), id);
      d == old(store.devices)[i].(ip := ip, os := os, hardware := hardware, installedApps := apps) &&
      store.devices == old(store.devices)[i := d]
    ensures AgentCount(store.devices, hostname) == AgentCount(old(store.devices), hostname)
    ensures store.threatScans == old(store.threatScans)
  {
    ghost var i := IndexOfId(store.devices, id);
    var _ := store.UpdateDevice(id, RefreshUpdates(ip, os, hardware, apps));
    RefreshWrites(old(store.devices)[i], ip, os, hardware, apps);
    AgentCountReplace(old(store.devices), i, store.devices[i], hostname);
    IndexOfIdReplace(old(store.devices), i, store.devices[i]);
    var found := store.GetDevice(id);
    return found.value;
  }

  /** POST /register. With no agent device of that hostname, one agent
   *  workstation is created (201); otherwise the first device carrying the
   *  matching device's id gets the new ip, os, hardware and apps (200) and no
   *  device is created. Either way exactly one agent device of that name
   *  exists afterwards if none did, and the count is unchanged otherwise. */
  method Register(store: Store, req: RegisterRequest, freshId: string) returns (resp: Response)
    modifies store
    ensures
      var hostname := req.hostname.GetOr("unknown");
      var ip := req.ip.GetOr("");
      var os := req.os.GetOr("");
      var hardware := req.hardware.GetOr(EmptyHardware);
      var apps := req.installedApps.GetOr([]);
      var a := AgentIndex(old(store.devices), hostname);
      if a < 0 then
        var d := Device(freshId, hostname, "workstation", "agent", ip, os, hardware, apps, req.agentId);
        store.devices == old(store.devices) + [d] && resp == Response(201, DeviceBody(d))
      else
        var i := IndexOfId(old(store.devices), old(store.devices)[a].id);
        var d := old(store.devices)[i].(ip := ip, os := os, hardware := hardware, installedApps := apps);
        store.devices == old(store.devices)[i := d] && resp == Response(200, DeviceBody(d))
    ensures
      var hostname := req.hostname.GetOr("unknown");
      AgentCount(store.devices, hostname) == if AgentCount(old(store.devices), hostname) == 0 then 1 else AgentCount(old(store.devices), hostname)
    ensures store.threatScans == old(store.threatScans)
  {
    var hostname := req.hostname.GetOr("unknown");
    var ip := req.ip.GetOr("");
    var os := req.os.GetOr("");
    var hardware := req.hardware.GetOr(EmptyHardware);
    var apps := req.installedApps.GetOr([]);

    var existing := FindDeviceByHostname(store, hostname);
    if existing.Some? {
      assert store.devices[AgentIndex(store.devices, hostname)].id == existing.value.id;
      var d := Refresh(store, existing.value.id, hostname, ip, os, hardware, apps);
      return Response(200, DeviceBody(d));
    }
    var d := store.CreateDevice(freshId, hostname, "workstation", "agent", ip, os, Some(hardware), Some(apps), req.agentId);
    AgentCountAppend(old(store.devices), d, hostname);
    return Response(201, DeviceBody(d));
  }
}
