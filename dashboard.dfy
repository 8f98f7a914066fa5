/**
 * The dashboard's aggregates over the device and scan listings: devices
 * counted by type, the findings total, findings counted by severity, and
 * the five most recent scans. A JavaScript counting object is a
 * `map<string, nat>`; `acc[k] = (acc[k] || 0) + 1` is `Bump`.
 */
module Dashboard {
  import opened Wrappers
  import opened Inventory
  import opened Strings
  import opened Seqs
  import ThreatsPage

  // ---- Counting dictionaries ----

  /** `acc[key] = (acc[key] || 0) + 1`. */
  function Bump(acc: map<string, nat>, key: string): (r: map<string, nat>)
    ensures r.Keys == acc.Keys + {key}
    ensures r[key] == (if key in acc then acc[key] else 0) + 1
    ensures forall x :: x in acc && x != key ==> r[x] == acc[x]
  {
    acc[key := (if key in acc then acc[key] else 0) + 1]
  }

  /** Bumping every key of `keys` in turn, starting from `acc`. */
  function TallyFrom(acc: map<string, nat>, keys: seq<string>): map<string, nat>
  {
    if keys == [] then acc
    else Bump(TallyFrom(acc, keys[..|keys| - 1]), keys[|keys| - 1])
  }

  function Tally(keys: seq<string>): map<string, nat>
  {
    TallyFrom(map[], keys)
  }

  /** What a tally holds: the keys of `acc` and of `keys`, each count grown
   *  by the number of times its key occurs. */
  lemma TallyFromMeaning(acc: map<string, nat>, keys: seq<string>)
    ensures TallyFrom(acc, keys).Keys == acc.Keys + (set x | x in keys)
    ensures forall x :: x in TallyFrom(acc, keys) ==>
      TallyFrom(acc, keys)[x] == (if x in acc then acc[x] else 0) + multiset(keys)[x]
  {
    TallyFromKeys(acc, keys);
    TallyFromCounts(acc, keys);
  }

  lemma {:induction false} TallyFromKeys(acc: map<string, nat>, keys: seq<string>)
    ensures TallyFrom(acc, keys).Keys == acc.Keys + (set x | x in keys)
  {
    if keys != [] {
      var n := |keys| - 1;
      TallyFromKeys(acc, keys[..n]);
      assert (set x | x in keys) == (set x | x in keys[..n]) + {keys[n]} by {
        assert keys == keys[..n] + [keys[n]];
      }
    }
  }

  lemma {:induction false} TallyFromCounts(acc: map<string, nat>, keys: seq<string>)
    ensures forall x :: x in TallyFrom(acc, keys) ==>
      TallyFrom(acc, keys)[x] == (if x in acc then acc[x] else 0) + multiset(keys)[x]
  {
    if keys != [] {
      var n := |keys| - 1;
      TallyFromCounts(acc, keys[..n]);
      TallyFromKeys(acc, keys[..n]);
      var prev := TallyFrom(acc, keys[..n]);
      assert multiset(keys) == multiset(keys[..n]) + multiset{keys[n]} by {
        assert keys == keys[..n] + [keys[n]];
      }
      forall x | x in TallyFrom(acc, keys)
        ensures TallyFrom(acc, keys)[x] == (if x in acc then acc[x] else 0) + multiset(keys)[x]
      {
        if x != keys[n] {
          assert x in prev;
        } else if x !in prev {
          assert x !in acc && x !in keys[..n];
        }
      }
    }
  }

  lemma TallyFromSnoc(acc: map<string, nat>, keys: seq<string>, key: string)
    ensures TallyFrom(acc, keys + [key]) == Bump(TallyFrom(acc, keys), key)
  {
    assert (keys + [key])[..|keys|] == keys;
  }

  /** One more key of a prefix is one more bump. */
  lemma TallyFromStep(acc: map<string, nat>, keys: seq<string>, k: nat)
    requires k < |keys|
    ensures TallyFrom(acc, keys[..k + 1]) == Bump(TallyFrom(acc, keys[..k]), keys[k])
  {
    assert keys[..k + 1][..k] == keys[..k];
  }

  /** Tallying a concatenation tallies its parts one after the other. */
  lemma {:induction false} TallyFromConcat(acc: map<string, nat>, a: seq<string>, b: seq<string>)
    ensures TallyFrom(acc, a + b) == TallyFrom(TallyFrom(acc, a), b)
    decreases |b|
  {
    if b == [] {
      assert a + b == a;
    } else {
      var n := |b| - 1;
      TallyFromConcat(acc, a, b[..n]);
      assert a + b == (a + b[..n]) + [b[n]];
      TallyFromSnoc(acc, a + b[..n], b[n]);
    }
  }

  /** A tally depends on the keys' multiset only, not on their order. */
  lemma TallyOrderFree(a: seq<string>, b: seq<string>)
    requires multiset(a) == multiset(b)
    ensures Tally(a) == Tally(b)
  {
    TallyFromMeaning(map[], a);
    TallyFromMeaning(map[], b);
    assert (set x | x in a) == (set x | x in b) by {
      forall x ensures x in a <==> x in b {
        assert x in a <==> x in multiset(a);
        assert x in b <==> x in multiset(b);
      }
    }
  }

  /** The sum of a counting dictionary's values. */
  ghost function MapSum(m: map<string, nat>): nat
    decreases |m.Keys|
  {
    if m == map[] then 0
    else
      var k :| k in m;
      m[k] + MapSum(m - {k})
  }

  /** The sum may start at any key. */
  lemma {:induction false} MapSumAt(m: map<string, nat>, y: string)
    requires y in m
    ensures MapSum(m) == m[y] + MapSum(m - {y})
    decreases |m.Keys|
  {
    var x :| x in m && MapSum(m) == m[x] + MapSum(m - {x});
    if x != y {
      MapSumAt(m - {x}, y);
      MapSumAt(m - {y}, x);
      assert m - {x} - {y} == m - {y} - {x};
    }
  }

  lemma MapSumBump(m: map<string, nat>, key: string)
    ensures MapSum(Bump(m, key)) == MapSum(m) + 1
  {
    var r := Bump(m, key);
    MapSumAt(r, key);
    if key in m {
      MapSumAt(m, key);
      assert r - {key} == m - {key};
    } else {
      assert r - {key} == m;
    }
  }

  /** Each tallied key adds exactly one to the sum of the counts. */
  lemma {:induction false} MapSumTally(acc: map<string, nat>, keys: seq<string>)
    ensures MapSum(TallyFrom(acc, keys)) == MapSum(acc) + |keys|
  {
    if keys != [] {
      var n := |keys| - 1;
      MapSumTally(acc, keys[..n]);
      MapSumBump(TallyFrom(acc, keys[..n]), keys[n]);
    }
  }

  // ---- Devices by type ----

  function Types(devices: seq<Device>): (r: seq<string>)
    ensures |r| == |devices| && forall k :: 0 <= k < |devices| ==> r[k] == devices[k].deviceType
  {
    seq(|devices|, k requires 0 <= k < |devices| => devices[k].deviceType)
  }

  /** `byType`: a count per device type, built by bumping one device at a
   *  time. */
  method ByType(devices: seq<Device>) returns (acc: map<string, nat>)
    ensures acc == Tally(Types(devices))
  {
    var types := Types(devices);
    acc := map[];
    var k := 0;
    while k < |devices|
      invariant 0 <= k <= |devices|
      invariant acc == Tally(types[..k])
    {
      TallyFromStep(map[], types, k);
      acc := Bump(acc, devices[k].deviceType);
      k := k + 1;
    }
    assert types[..k] == types;
  }

  /** The type counts: one key per type present, each counting the devices
   *  of that type, and all of them summing to the number of devices. */
  lemma ByTypeCounts(devices: seq<Device>)
    ensures forall t :: t in Tally(Types(devices)) <==> exists k :: 0 <= k < |devices| && devices[k].deviceType == t
    ensures forall t :: t in Tally(Types(devices)) ==> Tally(Types(devices))[t] == multiset(Types(devices))[t]
    ensures MapSum(Tally(Types(devices))) == |devices|
  {
    var types := Types(devices);
    TallyFromMeaning(map[], types);
    forall t ensures t in types <==> exists k :: 0 <= k < |devices| && devices[k].deviceType == t {
      if t in types {
        var k :| 0 <= k < |types| && types[k] == t;
        assert devices[k].deviceType == t;
      }
    }
    MapSumTally(map[], types);
    assert MapSum(map[]) == 0;
  }

  // ---- Total findings ----

  /** `scans.reduce((sum, s) => sum + (s.results?.length || 0), 0)`. */
  function TotalFindings(scans: seq<ScanView>): nat
  {
    if scans == [] then 0
    else TotalFindings(scans[..|scans| - 1]) + |scans[|scans| - 1].results.GetOr([])|
  }

  /** The total is additive over the scan list. */
  lemma {:induction false} TotalFindingsConcat(a: seq<ScanView>, b: seq<ScanView>)
    ensures TotalFindings(a + b) == TotalFindings(a) + TotalFindings(b)
    decreases |b|
  {
    if b == [] {
      assert a + b == a;
    } else {
      TotalFindingsConcat(a, b[..|b| - 1]);
      SnocParts(a, b);
    }
  }

  // ---- Severity counts ----

  /** `(t.severity || "low").toLowerCase()`: an absent or empty severity is
   *  "low". */
  function SevKey(severity: Option<string>): (r: string)
    ensures severity.None? || severity.value == "" ==> r == "low"
    ensures severity.Some? && severity.value != "" ==> r == Lower(severity.value)
  {
    Lower(if severity.Some? && severity.value != "" then severity.value else "low")
  }

  /** JavaScript truthiness of a `software`/`hardware` value: any array,
   *  but only a non-empty string. */
  predicate Truthy(f: Field)
  {
    f.Items? || (f.Text? && f.text != "")
  }

  /** The dashboard's own schema test,
   *  `results[0] && (results[0].software || results[0].hardware)`. */
  predicate SniffsStructured(results: seq<ResultEntry>)
  {
    |results| > 0 && (Truthy(results[0].software) || Truthy(results[0].hardware))
  }

  /** Every scan the history page renders as structured counts as
   *  structured here too, but not conversely: a first element whose
   *  `software` is a non-empty string passes the dashboard's test and not
   *  the page's. */
  lemma SniffIsLooser(results: seq<ResultEntry>)
    ensures ThreatsPage.IsNewReportFormat(Some(results)) ==> SniffsStructured(results)
    ensures var e := [ResultEntry("host", Text("x"), Missing, None)];
      SniffsStructured(e) && !ThreatsPage.IsNewReportFormat(Some(e))
  {
  }

  /** `[...(x || [])]`: an array's rows; a string spreads into characters,
   *  none of which has a `threat`, so it gives no rows. */
  function Spread(f: Field): seq<ItemView>
  {
    if f.Items? then f.items else []
  }

  /** The positions of the rows that carry a threat. */
  function Threatened(items: seq<ItemView>): set<int>
  {
    set k | 0 <= k < |items| && items[k].threat.Some?
  }

  lemma ThreatenedSnoc(items: seq<ItemView>)
    requires items != []
    ensures var n := |items| - 1;
      Threatened(items) == Threatened(items[..n]) + (if items[n].threat.Some? then {n} else {})
  {
  }

  /** The severity keys of the rows with a threat, in row order: one per
   *  such row. */
  function ThreatKeys(items: seq<ItemView>): (r: seq<string>)
    ensures |r| == |Threatened(items)|
  {
    if items == [] then []
    else
      var n := |items| - 1;
      var r := ThreatKeys(items[..n]);
      ThreatenedSnoc(items);
      if items[n].threat.Some? then r + [SevKey(items[n].threat.value.severity)] else r
  }

  /** One more row adds its key when it carries a threat. */
  lemma ThreatKeysSnoc(items: seq<ItemView>, k: nat)
    requires k < |items|
    ensures items[k].threat.Some? ==>
      ThreatKeys(items[..k + 1]) == ThreatKeys(items[..k]) + [SevKey(items[k].threat.value.severity)]
    ensures items[k].threat.None? ==> ThreatKeys(items[..k + 1]) == ThreatKeys(items[..k])
  {
    assert items[..k + 1][..k] == items[..k];
  }

  function DeviceRows(e: ResultEntry): seq<ItemView>
  {
    Spread(e.software) + Spread(e.hardware)
  }

  /** The number of threatened rows over a structured scan's devices. */
  function ThreatTotal(results: seq<ResultEntry>): nat
  {
    if results == [] then 0
    else ThreatTotal(results[..|results| - 1]) + |Threatened(DeviceRows(results[|results| - 1]))|
  }

  /** The keys a structured scan's device adds. */
  function DeviceKeys(e: ResultEntry): seq<string>
  {
    ThreatKeys(DeviceRows(e))
  }

  /** The keys a structured scan adds: its devices' threat keys in order. */
  function StructuredKeys(results: seq<ResultEntry>): seq<string>
  {
    FlatMap(DeviceKeys, results)
  }

  /** One key per threatened row. */
  lemma {:induction false} StructuredKeysCount(results: seq<ResultEntry>)
    ensures |StructuredKeys(results)| == ThreatTotal(results)
  {
    if results != [] {
      StructuredKeysCount(results[..|results| - 1]);
    }
  }

  /** The keys a legacy scan adds: one per result. */
  function LegacyKeys(results: seq<ResultEntry>): (r: seq<string>)
    ensures |r| == |results| && forall k :: 0 <= k < |results| ==> r[k] == SevKey(results[k].severity)
  {
    seq(|results|, k requires 0 <= k < |results| => SevKey(results[k].severity))
  }

  function ScanKeys(s: ScanView): seq<string>
  {
    var results := s.results.GetOr([]);
    if SniffsStructured(results) then StructuredKeys(results) else LegacyKeys(results)
  }

  function AllKeys(scans: seq<ScanView>): seq<string>
  {
    FlatMap(ScanKeys, scans)
  }

  /** `severityCounts`. */
  function SeverityCounts(scans: seq<ScanView>): map<string, nat>
  {
    Tally(AllKeys(scans))
  }

  /** The keys of each element in turn. */
  function FlatMap<T>(f: T -> seq<string>, xs: seq<T>): seq<string>
  {
    if xs == [] then [] else FlatMap(f, xs[..|xs| - 1]) + f(xs[|xs| - 1])
  }

  lemma {:induction false} FlatMapConcat<T>(f: T -> seq<string>, a: seq<T>, b: seq<T>)
    ensures FlatMap(f, a + b) == FlatMap(f, a) + FlatMap(f, b)
    decreases |b|
  {
    if b == [] {
      assert a + b == a;
    } else {
      var m := |b| - 1;
      FlatMapConcat(f, a, b[..m]);
      SnocParts(a, b);
      Associative(FlatMap(f, a), FlatMap(f, b[..m]), f(b[m]));
    }
  }

  /** The multiset of keys depends on the multiset of elements only. */
  lemma {:induction false} FlatMapOrderFree<T>(f: T -> seq<string>, a: seq<T>, b: seq<T>)
    requires multiset(a) == multiset(b)
    ensures multiset(FlatMap(f, a)) == multiset(FlatMap(f, b))
    decreases |a|
  {
    if a == [] {
      assert |multiset(b)| == 0;
      assert b == [];
    } else {
      var n := |a| - 1;
      var x := a[n];
      assert x in multiset(b) by {
        assert x in multiset(a);
      }
      var i :| 0 <= i < |b| && b[i] == x;
      assert b == b[..i] + [x] + b[i + 1..];
      PermRemove(a, b, i);
      FlatMapOrderFree(f, a[..n], b[..i] + b[i + 1..]);
      FlatMapConcat(f, b[..i] + [x], b[i + 1..]);
      FlatMapConcat(f, b[..i], [x]);
      FlatMapConcat(f, b[..i], b[i + 1..]);
      assert FlatMap(f, [x]) == f(x) by {
        assert [x][..0] == [];
      }
    }
  }

  /** The severity counts do not depend on the order of the scans. */
  lemma SeverityOrderFree(a: seq<ScanView>, b: seq<ScanView>)
    requires multiset(a) == multiset(b)
    ensures SeverityCounts(a) == SeverityCounts(b)
  {
    FlatMapOrderFree(ScanKeys, a, b);
    TallyOrderFree(AllKeys(a), AllKeys(b));
  }

  /** A structured scan adds one to the counts per row carrying a threat,
   *  and nothing for the others. */
  lemma StructuredScanAdds(acc: map<string, nat>, s: ScanView)
    requires SniffsStructured(s.results.GetOr([]))
    ensures MapSum(TallyFrom(acc, ScanKeys(s))) == MapSum(acc) + ThreatTotal(s.results.GetOr([]))
  {
    StructuredKeysCount(s.results.GetOr([]));
    MapSumTally(acc, ScanKeys(s));
  }

  /** A legacy scan adds one per result, to the bucket of its lower-cased
   *  severity ("low" when it has none): its contribution sums to the
   *  number of results. */
  lemma LegacyScanAdds(acc: map<string, nat>, s: ScanView)
    requires !SniffsStructured(s.results.GetOr([]))
    ensures ScanKeys(s) == LegacyKeys(s.results.GetOr([]))
    ensures MapSum(TallyFrom(acc, ScanKeys(s))) == MapSum(acc) + |s.results.GetOr([])|
  {
    MapSumTally(acc, ScanKeys(s));
  }

  /** With legacy scans only, the severity counts sum to the findings
   *  total. */
  lemma {:induction false} LegacyTotalsAgree(scans: seq<ScanView>)
    requires forall k :: 0 <= k < |scans| ==> !SniffsStructured(scans[k].results.GetOr([]))
    ensures MapSum(SeverityCounts(scans)) == TotalFindings(scans)
  {
    MapSumTally(map[], AllKeys(scans));
    assert MapSum(map[]) == 0;
    LegacyKeyCount(scans);
  }

  lemma {:induction false} LegacyKeyCount(scans: seq<ScanView>)
    requires forall k :: 0 <= k < |scans| ==> !SniffsStructured(scans[k].results.GetOr([]))
    ensures |AllKeys(scans)| == TotalFindings(scans)
  {
    if scans != [] {
      LegacyKeyCount(scans[..|scans| - 1]);
    }
  }

  /** The findings total counts result elements, so for a structured scan
   *  it counts device reports, not threats: one device without threats
   *  gives a total of one and no severity counts. */
  lemma TotalCountsDevices()
    ensures var s := ScanView("scan", Some([ResultEntry("host", Items([]), Items([]), None)]));
      TotalFindings([s]) == 1 && SeverityCounts([s]) == map[]
  {
    var s := ScanView("scan", Some([ResultEntry("host", Items([]), Items([]), None)]));
    assert [s][..0] == [];
    var results := s.results.GetOr([]);
    assert results[..0] == [];
    assert Threatened(DeviceRows(results[0])) == {};
    assert StructuredKeys(results) == [];
  }

  /** The severity fold, bumping one key at a time. */
  method CountSeverities(scans: seq<ScanView>) returns (acc: map<string, nat>)
    ensures acc == SeverityCounts(scans)
  {
    acc := map[];
    var k := 0;
    while k < |scans|
      invariant 0 <= k <= |scans|
      invariant acc == Tally(AllKeys(scans[..k]))
    {
      assert scans[..k + 1][..k] == scans[..k];
      assert AllKeys(scans[..k + 1]) == AllKeys(scans[..k]) + ScanKeys(scans[k]);
      TallyFromConcat(map[], AllKeys(scans[..k]), ScanKeys(scans[k]));
      acc := AddScan(acc, scans[k]);
      k := k + 1;
    }
    assert scans[..k] == scans;
  }

  /** One scan's contribution: every threatened row of a structured scan,
   *  or every result of a legacy one. */
  method AddScan(acc0: map<string, nat>, s: ScanView) returns (acc: map<string, nat>)
    ensures acc == TallyFrom(acc0, ScanKeys(s))
  {
    var results := s.results.GetOr([]);
    if SniffsStructured(results) {
      acc := AddStructured(acc0, results);
    } else {
      acc := AddLegacy(acc0, results);
    }
  }

  method AddStructured(acc0: map<string, nat>, results: seq<ResultEntry>) returns (acc: map<string, nat>)
    ensures acc == TallyFrom(acc0, StructuredKeys(results))
  {
    acc := acc0;
    var k := 0;
    while k < |results|
      invariant 0 <= k <= |results|
      invariant acc == TallyFrom(acc0, StructuredKeys(results[..k]))
    {
      assert results[..k + 1][..k] == results[..k];
      assert StructuredKeys(results[..k + 1]) == StructuredKeys(results[..k]) + DeviceKeys(results[k]);
      TallyFromConcat(acc0, StructuredKeys(results[..k]), ThreatKeys(DeviceRows(results[k])));
      acc := AddRows(acc, DeviceRows(results[k]));
      k := k + 1;
    }
    assert results[..k] == results;
  }

  method AddLegacy(acc0: map<string, nat>, results: seq<ResultEntry>) returns (acc: map<string, nat>)
    ensures acc == TallyFrom(acc0, LegacyKeys(results))
  {
    acc := acc0;
    var keys := LegacyKeys(results);
    var k := 0;
    while k < |results|
      invariant 0 <= k <= |results|
      invariant acc == TallyFrom(acc0, keys[..k])
    {
      TallyFromStep(acc0, keys, k);
      acc := Bump(acc, keys[k]);
      k := k + 1;
    }
    assert keys[..k] == keys;
  }

  /** One device's rows: a bump per row carrying a threat. */
  method AddRows(acc0: map<string, nat>, items: seq<ItemView>) returns (acc: map<string, nat>)
    ensures acc == TallyFrom(acc0, ThreatKeys(items))
  {
    acc := acc0;
    var k := 0;
    while k < |items|
      invariant 0 <= k <= |items|
      invariant acc == TallyFrom(acc0, ThreatKeys(items[..k]))
    {
      ThreatKeysSnoc(items, k);
      if items[k].threat.Some? {
        var sev := SevKey(items[k].threat.value.severity);
        TallyFromSnoc(acc0, ThreatKeys(items[..k]), sev);
        acc := Bump(acc, sev);
      }
      k := k + 1;
    }
    assert items[..k] == items;
  }

  /** Nothing listed, nothing counted. */
  lemma EmptyListings()
    ensures Tally(Types([])) == map[] && SeverityCounts([]) == map[] && TotalFindings([]) == 0
  {
  }

  // ---- Recent scans ----

  /** `scans.slice(0, 5)`: the first five scans, or all of them, in order. */
  function RecentScans(scans: seq<ScanView>): (r: seq<ScanView>)
    ensures |r| == (if |scans| < 5 then |scans| else 5)
    ensures forall k :: 0 <= k < |r| ==> r[k] == scans[k]
  {
    if |scans| < 5 then scans else scans[..5]
  }
}
