/**
 * The device table: how an installed-app entry is split into name and
 * version for display, the hardware summary cell, the six-app preview, and
 * the two expansion toggles of a row.
 */
module DeviceList {
  import opened Wrappers
  import opened Inventory
  import opened Strings
  import ThreatsPage

  /** A displayed app: the `{name, version}` pair `normalizeApp` returns. */
  datatype AppRow = AppRow(name: string, version: string)

  /** `String(item.version || "")`: an absent, null or empty version is "". */
  function VersionString(v: Version): string
  {
    if v.VersionText? then v.text else ""
  }

  /** `normalizeApp`: a record keeps its name and version; a string is cut
   *  at its first space when that space is not at the start, and is
   *  otherwise the whole name. */
  function NormalizeApp(item: App): (r: AppRow)
    ensures item.AppRecord? ==> r == AppRow(item.name, VersionString(item.version))
    ensures item.AppText? && 0 < IndexOf(item.text, ' ') ==>
      r.name + " " + r.version == item.text && r.name != "" && ' ' !in r.name
    ensures item.AppText? && IndexOf(item.text, ' ') <= 0 ==> r == AppRow(item.text, "")
  {
    match item
    case AppRecord(name, version) => AppRow(name, VersionString(version))
    case AppText(s) =>
      var sp := IndexOf(s, ' ');
      if sp > 0 then
        assert s == s[..sp] + " " + s[sp + 1..] by {
          assert s == s[..sp] + [s[sp]] + s[sp + 1..];
        }
        AppRow(s[..sp], s[sp + 1..])
      else AppRow(s, "")
  }

  /** A "name version" string with a non-empty, space-free name reads back
   *  as that name and version. */
  lemma NormalizeTextRoundTrip(name: string, version: string)
    requires name != [] && ' ' !in name
    ensures NormalizeApp(AppText(name + " " + version)) == AppRow(name, version)
  {
    var s := name + " " + version;
    assert s[|name|] == ' ';
    assert s[..|name|] == name;
    assert IndexOf(s, ' ') == |name|;
    assert s[|name| + 1..] == version;
  }

  /** `rawApps.map(normalizeApp)`. */
  function NormalizeApps(apps: seq<App>): (r: seq<AppRow>)
    ensures |r| == |apps| && forall k :: 0 <= k < |apps| ==> r[k] == NormalizeApp(apps[k])
  {
    seq(|apps|, k requires 0 <= k < |apps| => NormalizeApp(apps[k]))
  }

  // ---- The hardware cell ----

  /** The CPU model, when present and non-empty (`cpu?.model`). */
  predicate HasModel(hw: Hardware)
  {
    hw.cpu.Some? && hw.cpu.value.model.Some? && hw.cpu.value.model.value != ""
  }

  /** A RAM size that reads as true. */
  predicate HasRam(hw: Hardware)
  {
    hw.ramTotalGb.Some? && hw.ramTotalGb.value != ""
  }

  /** The pushed parts: the CPU model, then "N GB RAM". */
  function HardwareParts(hw: Hardware): (parts: seq<string>)
    ensures |parts| == (if HasModel(hw) then 1 else 0) + (if HasRam(hw) then 1 else 0)
    ensures HasModel(hw) ==> parts[0] == hw.cpu.value.model.value
    ensures HasRam(hw) ==> parts[|parts| - 1] == hw.ramTotalGb.value + " GB RAM"
    ensures forall p :: p in parts ==> p != ""
  {
    (if HasModel(hw) then [hw.cpu.value.model.value] else [])
    + (if HasRam(hw) then [hw.ramTotalGb.value + " GB RAM"] else [])
  }

  /** `formatHardware`: the parts joined with " · ", or the OS text, or a
   *  dash. */
  function FormatHardware(d: Device): (r: string)
    ensures HasModel(d.hardware) && HasRam(d.hardware) ==>
      r == d.hardware.cpu.value.model.value + " · " + d.hardware.ramTotalGb.value + " GB RAM"
    ensures HasModel(d.hardware) && !HasRam(d.hardware) ==> r == d.hardware.cpu.value.model.value
    ensures !HasModel(d.hardware) && HasRam(d.hardware) ==> r == d.hardware.ramTotalGb.value + " GB RAM"
    ensures !HasModel(d.hardware) && !HasRam(d.hardware) ==> r == (if d.os != "" then d.os else "—")
  {
    var parts := HardwareParts(d.hardware);
    if |parts| > 0 then Join(parts, " · ") else if d.os != "" then d.os else "—"
  }

  /** The hardware cell is never blank. */
  lemma FormatHardwareNonEmpty(d: Device)
    ensures FormatHardware(d) != ""
  {
  }

  // ---- The apps preview ----

  const AppsPreview := 6

  /** `showAll ? apps : apps.slice(0, APPS_PREVIEW)`. */
  function VisibleApps(apps: seq<AppRow>, showAll: bool): (r: seq<AppRow>)
    ensures showAll ==> r == apps
    ensures !showAll ==> |r| == (if |apps| < AppsPreview then |apps| else AppsPreview)
    ensures forall k :: 0 <= k < |r| ==> r[k] == apps[k]
  {
    if showAll || |apps| <= AppsPreview then apps else apps[..AppsPreview]
  }

  /** `apps.length > APPS_PREVIEW && !showAll`. */
  predicate HasMore(apps: seq<AppRow>, showAll: bool)
  {
    |apps| > AppsPreview && !showAll
  }

  /** The "show more" control appears exactly when the preview hides some
   *  apps, and the preview never shows more than six unless all are shown. */
  lemma PreviewHidesIffMore(apps: seq<AppRow>, showAll: bool)
    ensures HasMore(apps, showAll) <==> |VisibleApps(apps, showAll)| < |apps|
    ensures !showAll ==> |VisibleApps(apps, showAll)| <= AppsPreview
  {
  }

  // ---- Row expansion ----

  /** The table's expansion state: at most one row open, and the rows
   *  whose app list is shown in full. */
  class Expansion {
    var expandedId: Option<string>
    var appsFullyExpanded: set<string>

    constructor ()
      ensures expandedId.None? && appsFullyExpanded == {}
    {
      expandedId := None;
      appsFullyExpanded := {};
    }

    /** `toggleExpand`: opens or closes the row, and its app list always
     *  falls back to the preview. */
    method ToggleExpand(id: string)
      modifies this
      ensures expandedId == ThreatsPage.Toggled(old(expandedId), id)
      ensures appsFullyExpanded == old(appsFullyExpanded) - {id}
    {
      expandedId := if expandedId == Some(id) then None else Some(id);
      appsFullyExpanded := appsFullyExpanded - {id};
    }

    /** `toggleAppsFully`: flips whether one row's list is shown in full. */
    method ToggleAppsFully(id: string)
      modifies this
      ensures appsFullyExpanded == Flip(old(appsFullyExpanded), id)
      ensures expandedId == old(expandedId)
    {
      if id in appsFullyExpanded {
        appsFullyExpanded := appsFullyExpanded - {id};
      } else {
        appsFullyExpanded := appsFullyExpanded + {id};
      }
    }
  }

  /** Adding an absent id or deleting a present one. */
  function Flip(s: set<string>, id: string): set<string>
  {
    if id in s then s - {id} else s + {id}
  }

  /** A flip changes the one id's membership and no other, and two flips
   *  restore the set. */
  lemma FlipOnlyOne(s: set<string>, id: string)
    ensures (id in Flip(s, id)) <==> id !in s
    ensures forall x :: x != id ==> (x in Flip(s, id) <==> x in s)
    ensures Flip(Flip(s, id), id) == s
  {
  }
}
