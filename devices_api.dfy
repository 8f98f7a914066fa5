/**
 * The device REST handlers: POST validates and creates a manual device,
 * GET/PUT/DELETE on one id answer 404 for an unknown id, and PUT only lets
 * six keys through to the store.
 */
module DevicesApi {
  import opened Wrappers
  import opened Inventory
  import opened Models

  /** The JSON body of a POST; every key may be missing. */
  datatype AddRequest = AddRequest(
    name: Option<string>,
    deviceType: Option<string>,
    ip: Option<string>,
    os: Option<string>,
    hardware: Option<Hardware>,
    installedApps: Option<seq<App>>)

  /** The keys PUT accepts: name, type, ip, os, hardware, installed_apps. */
  predicate Allowed(u: Update)
  {
    u.SetName? || u.SetType? || u.SetIp? || u.SetOs? || u.SetHardware? || u.SetApps?
  }

  /** The members of a PUT body whose key is on the whitelist, in body order. */
  function Whitelist(body: seq<Update>): (r: seq<Update>)
    ensures |r| <= |body|
    ensures forall u :: u in r <==> u in body && Allowed(u)
  {
    if body == [] then []
    else
      var r := Whitelist(body[..|body| - 1]);
      var last := body[|body| - 1];
      assert body == body[..|body| - 1] + [last];
      if Allowed(last) then r + [last] else r
  }

  /** Whatever a PUT body holds, the whitelisted update never touches the
   *  device's id, source or agent id. */
  lemma WhitelistKeepsIdentity(d: Device, body: seq<Update>)
    ensures ApplyAll(d, Whitelist(body)).id == d.id
    ensures ApplyAll(d, Whitelist(body)).source == d.source
    ensures ApplyAll(d, Whitelist(body)).agentId == d.agentId
  {
    var w := Whitelist(body);
    forall j | 0 <= j < |w| ensures Allowed(w[j]) {
      assert w[j] in w;
    }
    AllowedKeeps(d, w, KId);
    AllowedKeeps(d, w, KSource);
    AllowedKeeps(d, w, KAgentId);
  }

  /** Whitelisted updates never write the id, the source or the agent id. */
  lemma AllowedKeeps(d: Device, us: seq<Update>, k: Key)
    requires forall j :: 0 <= j < |us| ==> Allowed(us[j])
    requires k == KId || k == KSource || k == KAgentId
    ensures Get(ApplyAll(d, us), k) == Get(d, k)
  {
    ApplyAllFields(d, us, k);
    assert LastWritten(us, k).None?;
  }

  const NotFound := Response(404, ErrorBody("device not found"))

  /** POST /: a missing or empty name answers 400 and stores nothing;
   *  otherwise one manual device is created, of type "workstation" unless
   *  the body names one. */
  method AddDevice(store: Store, req: AddRequest, freshId: string) returns (resp: Response)
    modifies store
    ensures req.name.None? || req.name.value == "" ==>
      resp == Response(400, ErrorBody("name is required")) && store.devices == old(store.devices)
    ensures req.name.Some? && req.name.value != "" ==>
      var d := Device(freshId, req.name.value, req.deviceType.GetOr("workstation"), "manual",
                      req.ip.GetOr(""), req.os.GetOr(""), req.hardware.GetOr(EmptyHardware),
                      req.installedApps.GetOr([]), None);
      resp == Response(201, DeviceBody(d)) && store.devices == old(store.devices) + [d]
    ensures store.threatScans == old(store.threatScans)
  {
    var deviceType := req.deviceType.GetOr("workstation");
    var ip := req.ip.GetOr("");
    var os := req.os.GetOr("");
    if req.name.None? || req.name.value == "" {
      return Response(400, ErrorBody("name is required"));
    }
    var d := store.CreateDevice(freshId, req.name.value, deviceType, "manual", ip, os,
                                Some(req.hardware.GetOr(EmptyHardware)), Some(req.installedApps.GetOr([])), None);
    return Response(201, DeviceBody(d));
  }

  /** GET /<id>: the first device with the id, or 404. */
  method GetOne(store: Store, id: string) returns (resp: Response)
    ensures var i := IndexOfId(store.devices, id);
      resp == if i < 0 then NotFound else Response(200, DeviceBody(store.devices[i]))
  {
    var d := store.GetDevice(id);
    if d.None? {
      return NotFound;
    }
    return Response(200, DeviceBody(d.value));
  }

  /** PUT /<id>: 404 and no change for an unknown id; otherwise the
   *  whitelisted members of the body are applied to the first device with
   *  the id, and that device is returned. */
  method UpdateOne(store: Store, id: string, body: seq<Update>) returns (resp: Response)
    modifies store
    ensures var i := IndexOfId(old(store.devices), id);
      if i < 0 then resp == NotFound && store.devices == old(store.devices)
      else
        var d := ApplyAll(old(store.devices)[i], Whitelist(body));
        store.devices == old(store.devices)[i := d] && resp == Response(200, DeviceBody(d))
    ensures store.threatScans == old(store.threatScans)
  {
    var found := store.GetDevice(id);
    if found.None? {
      return NotFound;
    }
    ghost var i := IndexOfId(store.devices, id);
    var updates := Whitelist(body);
    var _ := store.UpdateDevice(id, updates);
    WhitelistKeepsIdentity(old(store.devices)[i], body);
    assert store.devices == old(store.devices)[i := ApplyAll(old(store.devices)[i], updates)];
    assert store.devices[i].id == id;
    IndexOfIdReplace(old(store.devices), i, store.devices[i]);
    var d := store.GetDevice(id);
    return Response(200, DeviceBody(d.value));
  }

  /** DELETE /<id>: 404 for an unknown id, 204 after removing a known one. */
  method DeleteOne(store: Store, id: string) returns (resp: Response)
    modifies store
    ensures resp == if IndexOfId(old(store.devices), id) < 0 then NotFound else Response(204, NoBody)
    ensures store.devices == WithoutId(old(store.devices), id)
    ensures store.threatScans == old(store.threatScans)
  {
    var ok := store.DeleteDevice(id);
    if !ok {
      return NotFound;
    }
    return Response(204, NoBody);
  }
}
