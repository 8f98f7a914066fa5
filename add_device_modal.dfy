/**
 * The add/edit device form: the apps text field is split at commas into
 * trimmed, non-empty app strings; when a device is edited its apps are
 * written back into that field as "name version" strings joined by ", ";
 * the submitted hardware object is shaped from the CPU and RAM fields; and
 * the dialog opens on the manual tab exactly when a device is edited.
 */
module AddDeviceModal {
  import opened Wrappers
  import opened Inventory
  import opened Strings
  import opened Seqs
  import DeviceList

  // ---- Parsing the apps field ----

  /** `.filter(Boolean)`: the non-empty strings, in order. */
  function NonEmpty(xs: seq<string>): seq<string>
  {
    if xs == [] then []
    else if |xs[0]| == 0 then NonEmpty(xs[1..])
    else [xs[0]] + NonEmpty(xs[1..])
  }

  /** Only non-empty elements are kept. */
  lemma {:induction false} NonEmptyShape(xs: seq<string>)
    ensures forall e :: e in NonEmpty(xs) ==> |e| > 0 && e in xs
  {
    if xs != [] {
      NonEmptyShape(xs[1..]);
    }
  }

  lemma {:induction false} NonEmptyConcat(a: seq<string>, b: seq<string>)
    ensures NonEmpty(a + b) == NonEmpty(a) + NonEmpty(b)
  {
    if a == [] {
      assert a + b == b;
    } else {
      NonEmptyConcat(a[1..], b);
      var ab := a + b;
      assert ab[0] == a[0] && ab[1..] == a[1..] + b;
      if |a[0]| > 0 {
        Associative([a[0]], NonEmpty(a[1..]), NonEmpty(b));
      }
    }
  }

  /** `.map((a) => a.trim())`. */
  function TrimAll(pieces: seq<string>): (r: seq<string>)
    ensures |r| == |pieces| && forall k :: 0 <= k < |pieces| ==> r[k] == JsTrim(pieces[k])
  {
    seq(|pieces|, k requires 0 <= k < |pieces| => JsTrim(pieces[k]))
  }

  lemma TrimAllConcat(a: seq<string>, b: seq<string>)
    ensures TrimAll(a + b) == TrimAll(a) + TrimAll(b)
  {
    assert forall k :: 0 <= k < |a| ==> (a + b)[k] == a[k];
    assert forall k :: |a| <= k < |a| + |b| ==> (a + b)[k] == b[k - |a|];
  }

  /** An app string the field gives back unchanged: non-empty, without
   *  whitespace at either end, and without a comma. */
  predicate Clean(a: string)
  {
    |a| > 0 && !IsJsSpace(a[0]) && !IsJsSpace(a[|a| - 1]) && ',' !in a
  }

  /** The non-empty trimmed pieces of comma-free pieces are clean. */
  lemma TrimmedClean(pieces: seq<string>)
    requires forall p :: p in pieces ==> ',' !in p
    ensures forall e :: e in TrimAll(pieces) && |e| > 0 ==> Clean(e)
  {
    var t := TrimAll(pieces);
    forall e | e in t && |e| > 0
      ensures Clean(e)
    {
      var k :| 0 <= k < |t| && t[k] == e;
      assert ',' !in pieces[k];
    }
  }

  /** `parseApps`: split at commas, trim, drop the empty pieces; every app
   *  it gives is clean. */
  function ParseApps(s: string): (r: seq<string>)
    ensures forall e :: e in r ==> Clean(e)
  {
    var t := TrimAll(Split(s, ','));
    TrimmedClean(Split(s, ','));
    NonEmptyShape(t);
    NonEmpty(t)
  }

  /** The text before the first comma and the text after it. */
  lemma CutAtComma(a: string) returns (a1: string, a2: string)
    requires ',' in a
    ensures a == a1 + [','] + a2 && ',' !in a1 && |a2| < |a|
  {
    var i := IndexOf(a, ',');
    a1, a2 := a[..i], a[i + 1..];
    assert a == a1 + [a[i]] + a2;
  }

  /** Splitting at a comma splits at the pieces on each side of it. */
  lemma {:induction false} SplitConcat(a: string, b: string)
    ensures Split(a + [','] + b, ',') == Split(a, ',') + Split(b, ',')
    decreases |a|
  {
    if ',' !in a {
      SplitAfter(a, ',', b);
      assert IndexOf(a, ',') < 0;
    } else {
      var a1, a2 := CutAtComma(a);
      SplitConcat(a2, b);
      SplitConcatCut(a1, a2, b);
    }
  }

  /** The step of `SplitConcat`: peeling the first piece off the left part. */
  lemma SplitConcatCut(a1: string, a2: string, b: string)
    requires ',' !in a1
    requires Split(a2 + [','] + b, ',') == Split(a2, ',') + Split(b, ',')
    ensures Split(a1 + [','] + a2 + [','] + b, ',') == Split(a1 + [','] + a2, ',') + Split(b, ',')
  {
    SplitAfter(a1, ',', a2);
    Regroup(a1, [','], a2, b);
    SplitAfter(a1, ',', a2 + [','] + b);
    Associative([a1], Split(a2, ','), Split(b, ','));
  }

  /** The apps on each side of a comma keep their left-to-right order. */
  lemma ParseAppsConcat(a: string, b: string)
    ensures ParseApps(a + "," + b) == ParseApps(a) + ParseApps(b)
  {
    SplitConcat(a, b);
    TrimAllConcat(Split(a, ','), Split(b, ','));
    NonEmptyConcat(TrimAll(Split(a, ',')), TrimAll(Split(b, ',')));
  }

  /** The comma-separated pieces of `prefix + apps.join(", ")`. */
  function Pieces(prefix: string, apps: seq<string>): (r: seq<string>)
    requires apps != []
    ensures |r| == |apps|
    decreases |apps|
  {
    if |apps| == 1 then [prefix + apps[0]] else [prefix + apps[0]] + Pieces(" ", apps[1..])
  }

  lemma {:induction false} JoinPieces(prefix: string, apps: seq<string>)
    requires apps != []
    ensures prefix + Join(apps, ", ") == Join(Pieces(prefix, apps), [','])
    decreases |apps|
  {
    if |apps| > 1 {
      JoinPieces(" ", apps[1..]);
      var tail := Pieces(" ", apps[1..]);
      assert Join(Pieces(prefix, apps), [',']) == prefix + apps[0] + [','] + Join(tail, [',']);
      assert prefix + Join(apps, ", ") == prefix + apps[0] + [','] + (" " + Join(apps[1..], ", "));
    }
  }

  /** A clean app string trims to itself, with or without the space that
   *  follows a comma of ", ". */
  lemma TrimClean(a: string)
    requires Clean(a)
    ensures JsTrim(a) == a && JsTrim(" " + a) == a
  {
    TrimOfTrimmed(a, IsJsSpace);
    TrimBlankPrefix(' ', a, IsJsSpace);
    assert [' '] + a == " " + a;
  }

  /** `xs.map(f)`, for the parsing proof below, which needs nothing of
   *  the trim but what it does to each piece. */
  function MapAll(f: string -> string, xs: seq<string>): (r: seq<string>)
    ensures |r| == |xs| && forall k :: 0 <= k < |xs| ==> r[k] == f(xs[k])
  {
    seq(|xs|, k requires 0 <= k < |xs| => f(xs[k]))
  }

  lemma MapCons(f: string -> string, x: string, tail: seq<string>)
    ensures MapAll(f, [x] + tail) == [f(x)] + MapAll(f, tail)
  {
    var xs := [x] + tail;
    var r := [f(x)] + MapAll(f, tail);
    assert |r| == |xs|;
    forall k | 0 <= k < |xs|
      ensures MapAll(f, xs)[k] == r[k]
    {
      if k > 0 {
        assert xs[k] == tail[k - 1];
      }
    }
  }

  /** One unfolding of `Pieces` on at least two apps. */
  lemma PiecesStep(prefix: string, apps: seq<string>)
    requires |apps| > 1
    ensures Pieces(prefix, apps) == [prefix + apps[0]] + Pieces(" ", apps[1..])
  {
  }

  /** The pieces of non-empty apps, each of which `f` maps back from its
   *  piece, filter back to the apps. */
  lemma {:induction false} ParseMapped(f: string -> string, prefix: string, apps: seq<string>)
    requires apps != []
    requires |apps[0]| > 0 && f(prefix + apps[0]) == apps[0]
    requires forall k :: 1 <= k < |apps| ==> |apps[k]| > 0 && f(" " + apps[k]) == apps[k]
    ensures NonEmpty(MapAll(f, Pieces(prefix, apps))) == apps
    decreases |apps|
  {
    var x := prefix + apps[0];
    if |apps| == 1 {
      MapCons(f, x, []);
      assert Pieces(prefix, apps) == [x] + [];
      assert NonEmpty(MapAll(f, [x] + [])) == [apps[0]] + NonEmpty([]);
      assert apps == [apps[0]] + [];
    } else {
      var rest := apps[1..];
      assert forall k :: 1 <= k < |rest| ==> rest[k] == apps[k + 1];
      ParseMapped(f, " ", rest);
      PiecesStep(prefix, apps);
      MapCons(f, x, Pieces(" ", rest));
      ConsSplit(apps);
    }
  }

  /** Trimming is mapping `JsTrim`. */
  lemma TrimAllIsMap(pieces: seq<string>)
    ensures TrimAll(pieces) == MapAll(JsTrim, pieces)
  {
  }

  /** The pieces of clean apps trim and filter back to the apps. */
  lemma ParsePieces(apps: seq<string>)
    requires apps != []
    requires forall k :: 0 <= k < |apps| ==> Clean(apps[k])
    ensures NonEmpty(TrimAll(Pieces("", apps))) == apps
  {
    forall k | 0 <= k < |apps|
      ensures |apps[k]| > 0 && JsTrim(apps[k]) == apps[k] && JsTrim(" " + apps[k]) == apps[k]
    {
      TrimClean(apps[k]);
    }
    assert "" + apps[0] == apps[0];
    ParseMapped(JsTrim, "", apps);
    TrimAllIsMap(Pieces("", apps));
  }

  lemma {:induction false} PiecesCommaFree(prefix: string, apps: seq<string>)
    requires apps != [] && ',' !in prefix
    requires forall k :: 0 <= k < |apps| ==> ',' !in apps[k]
    ensures forall p :: p in Pieces(prefix, apps) ==> ',' !in p
    decreases |apps|
  {
    assert ',' !in prefix + apps[0];
    if |apps| > 1 {
      PiecesCommaFree(" ", apps[1..]);
    }
  }

  /** Joining clean app strings with ", " and parsing the field gives the
   *  same apps back. */
  lemma ParseJoinRoundTrip(apps: seq<string>)
    requires forall k :: 0 <= k < |apps| ==> Clean(apps[k])
    ensures ParseApps(Join(apps, ", ")) == apps
  {
    if apps == [] {
      assert Split("", ',') == [""];
    } else {
      JoinPieces("", apps);
      assert "" + Join(apps, ", ") == Join(apps, ", ");
      ParsePieces(apps);
      PiecesCommaFree("", apps);
      SplitJoin(Pieces("", apps), ',');
    }
  }

  /** Writing the parsed apps back as ", "-joined text and parsing it again
   *  changes nothing: the parse is a normal form. */
  lemma ParseNormalises(s: string)
    ensures ParseApps(Join(ParseApps(s), ", ")) == ParseApps(s)
  {
    var apps := ParseApps(s);
    assert forall k :: 0 <= k < |apps| ==> apps[k] in apps;
    ParseJoinRoundTrip(apps);
  }

  // ---- Serialising apps for editing ----

  /** The edit form's text for one app: "name version" for a record with a
   *  name and a version, the bare name without a version, the text itself
   *  for a string, and what `String` makes of a record without a name. */
  function SerializeApp(a: App): (r: string)
    ensures a.AppText? ==> r == a.text
    ensures a.AppRecord? && a.name != "" ==>
      r == (if DeviceList.VersionString(a.version) != "" then a.name + " " + DeviceList.VersionString(a.version) else a.name)
    ensures a.AppRecord? && a.name == "" ==> r == "[object Object]"
  {
    match a
    case AppRecord(name, version) =>
      if name == "" then "[object Object]"
      else if DeviceList.VersionString(version) != "" then name + " " + DeviceList.VersionString(version)
      else name
    case AppText(text) => text
  }

  /** The apps field when a device is edited. */
  function EditingApps(apps: seq<App>): string
  {
    Join(seq(|apps|, k requires 0 <= k < |apps| => SerializeApp(apps[k])), ", ")
  }

  /** Opening a device for editing and saving it unchanged submits each app
   *  as its serialised string, provided those strings are clean. */
  lemma EditSubmitsSerialised(apps: seq<App>)
    requires forall k :: 0 <= k < |apps| ==> Clean(SerializeApp(apps[k]))
    ensures |ParseApps(EditingApps(apps))| == |apps|
    ensures forall k :: 0 <= k < |apps| ==> ParseApps(EditingApps(apps))[k] == SerializeApp(apps[k])
  {
    ParseJoinRoundTrip(seq(|apps|, k requires 0 <= k < |apps| => SerializeApp(apps[k])));
  }

  /** And the device table reads such a submitted string back as the
   *  record's own name and version, when the name has no space. */
  lemma EditKeepsRecord(name: string, version: string)
    requires name != "" && ' ' !in name && version != ""
    ensures DeviceList.NormalizeApp(AppText(SerializeApp(AppRecord(name, VersionText(version)))))
      == DeviceList.AppRow(name, version)
  {
    DeviceList.NormalizeTextRoundTrip(name, version);
  }

  // ---- The submitted payload ----

  /** The manual-entry form's fields, all as typed. */
  datatype Form = Form(name: string, deviceType: string, ip: string, os: string, cpu: string, ramGb: string, installedApps: string)

  /** The body sent to create or update a device. */
  datatype Payload = Payload(name: string, deviceType: string, ip: string, os: string, hardware: Hardware, installedApps: seq<App>)

  /** `form.cpu ? { model: form.cpu, cores: null } : {}`. */
  function PayloadCpu(cpu: string): (c: Cpu)
    ensures c.model.Some? <==> |cpu| > 0
    ensures c.model.Some? ==> c.model.value == cpu
    ensures c.cores.None?
  {
    if |cpu| > 0 then Cpu(Some(cpu), None) else Cpu(None, None)
  }

  /** The payload of `handleManualSubmit`: the text fields as typed, a RAM
   *  size only when one was typed, and one string app per clean entry of
   *  the apps field. */
  function FormPayload(f: Form): (p: Payload)
    ensures p.hardware.cpu == Some(PayloadCpu(f.cpu)) && p.hardware.ramUsedGb.None?
    ensures p.hardware.ramTotalGb.Some? <==> |f.ramGb| > 0
    ensures var apps := ParseApps(f.installedApps);
      |p.installedApps| == |apps| && forall k :: 0 <= k < |apps| ==> p.installedApps[k] == AppText(apps[k])
  {
    var apps := ParseApps(f.installedApps);
    Payload(f.name, f.deviceType, f.ip, f.os,
      Hardware(Some(PayloadCpu(f.cpu)), if |f.ramGb| > 0 then Some(f.ramGb) else None, None),
      seq(|apps|, k requires 0 <= k < |apps| => AppText(apps[k])))
  }

  // ---- The initial tab ----

  datatype Tab = AgentTab | ManualTab

  /** `editing ? TAB_MANUAL : TAB_AGENT`. */
  function InitialTab(editing: bool): (t: Tab)
    ensures t == ManualTab <==> editing
  {
    if editing then ManualTab else AgentTab
  }
}
