/**
 * The agent's installed-app enumeration, from the text its package commands
 * print: `dpkg -l` (the first five header lines skipped, 300 lines read),
 * `rpm -qa --queryformat "%{NAME}\t%{VERSION}\n"` (300 lines), the plain
 * `rpm -qa` fallback (50 lines) and `ls /Applications` on macOS (50 lines).
 * On Linux a name is kept only the first time it is seen; whatever the
 * platform, an empty list becomes a one-entry placeholder.
 */
module Agent {
  import opened Wrappers
  import opened Strings
  import opened Inventory
  import opened Seqs

  /** One `{name, version}` entry of the collected list. */
  datatype Package = Package(name: string, version: string)

  /** What running a command gave: its decoded output; a failure the
   *  enumeration catches right there (`CalledProcessError`, a missing
   *  executable); or any other exception, such as a timeout, which only the
   *  outermost handler catches. */
  datatype Outcome = Output(text: string) | Failed | Crashed

  /** The platform and what its commands gave. On Windows, the registry and
   *  `wmic` enumeration is not modelled: `found` is what it collected. */
  datatype Platform =
    | Linux(dpkg: Outcome, rpmQuery: Outcome, rpmQa: Outcome)
    | Darwin(ls: Outcome)
    | Windows(found: seq<Package>)
    | OtherSystem

  /** The three line formats read on Linux. */
  datatype Format = Dpkg | RpmTab | RpmQa

  // ---- Line windows ----

  /** Python's `lines[start:start + count]`, which clamps at the end. */
  function Window(lines: seq<string>, start: nat, count: nat): (r: seq<string>)
    ensures |r| <= count
    ensures |lines| >= start + count ==> |r| == count
    ensures forall i :: 0 <= i < |r| ==> start + i < |lines| && r[i] == lines[start + i]
  {
    var lo := if start < |lines| then start else |lines|;
    var hi := if start + count < |lines| then start + count else |lines|;
    lines[lo..hi]
  }

  /** `out.decode().split("\n")`. */
  function Lines(out: string): seq<string>
  {
    Split(out, '\n')
  }

  /** The lines a format's loop visits. */
  function StageLines(f: Format, out: string): (r: seq<string>)
    ensures f == Dpkg ==> |r| <= 300 && forall i :: 0 <= i < |r| ==> 5 + i < |Lines(out)| && r[i] == Lines(out)[5 + i]
    ensures f == RpmTab ==> |r| <= 300 && forall i :: 0 <= i < |r| ==> i < |Lines(out)| && r[i] == Lines(out)[i]
    ensures f == RpmQa ==> |r| <= 50 && forall i :: 0 <= i < |r| ==> i < |Lines(out)| && r[i] == Lines(out)[i]
  {
    match f
    case Dpkg => Window(Lines(out), 5, 300)
    case RpmTab => Window(Lines(out), 0, 300)
    case RpmQa => Window(Lines(out), 0, 50)
  }

  // ---- Line parsers ----

  /** `pkg.split(":")[0]`: a dpkg name without its `:arch` suffix. */
  function StripArch(pkg: string): (r: string)
    ensures ':' !in r && StartsWith(pkg, r)
    ensures ':' !in pkg ==> r == pkg
  {
    var i := IndexOf(pkg, ':');
    if i < 0 then pkg else pkg[..i]
  }

  /** A `dpkg -l` line: lines with fewer than three fields, and names that
   *  start with "lib" once the architecture is stripped, give nothing; the
   *  name is the second field, the version the third. */
  function DpkgEntry(line: string): (r: Option<Package>)
    ensures r.Some? <==> |Words(line)| >= 3 && !StartsWith(StripArch(Words(line)[1]), "lib")
    ensures r.Some? ==> r.value.name == StripArch(Words(line)[1]) && r.value.version == Words(line)[2]
    ensures r.Some? ==> ':' !in r.value.name && !StartsWith(r.value.name, "lib")
  {
    var parts := Words(line);
    if |parts| < 3 then None
    else
      var pkg := StripArch(parts[1]);
      if StartsWith(pkg, "lib") then None else Some(Package(pkg, parts[2]))
  }

  /** A tab-format rpm line: split at the first tab, both halves stripped;
   *  a line without a tab, or with an empty name, gives nothing. */
  function RpmTabEntry(line: string): Option<Package>
  {
    var i := IndexOf(line, '\t');
    if i < 0 then None
    else
      var pkg := PyStrip(line[..i]);
      if |pkg| == 0 then None else Some(Package(pkg, PyStrip(line[i + 1..])))
  }

  /** A tab-format name holds no tab and no surrounding blanks. */
  lemma RpmTabName(line: string)
    requires RpmTabEntry(line).Some?
    ensures var name := RpmTabEntry(line).value.name;
      |name| > 0 && '\t' !in name && !IsPySpace(name[0]) && !IsPySpace(name[|name| - 1])
  {
    var i := IndexOf(line, '\t');
    assert '\t' !in line[..i];
  }

  /** A stripped, tab-free name and a stripped version joined by a tab read
   *  back as that package. */
  lemma RpmTabRoundTrip(name: string, version: string)
    requires |name| > 0 && '\t' !in name && !IsPySpace(name[0]) && !IsPySpace(name[|name| - 1])
    requires version != [] ==> !IsPySpace(version[0]) && !IsPySpace(version[|version| - 1])
    ensures RpmTabEntry(name + "\t" + version) == Some(Package(name, version))
  {
    var line := name + "\t" + version;
    IndexOfAfter(name, '\t', version);
    assert line[..|name|] == name && line[|name| + 1..] == version;
    TrimOfTrimmed(name, IsPySpace);
    TrimOfTrimmed(version, IsPySpace);
  }

  /** The index of the last `c` in `s`, or -1. */
  function LastIndexOf(s: string, c: char): (i: int)
    ensures -1 <= i < |s|
    ensures i == -1 <==> c !in s
    ensures 0 <= i ==> s[i] == c && c !in s[i + 1..]
  {
    if s == [] then -1
    else if s[|s| - 1] == c then |s| - 1
    else
      var i := LastIndexOf(s[..|s| - 1], c);
      assert s[..|s| - 1][i + 1..] + [s[|s| - 1]] == s[i + 1..];
      i
  }

  /** At most one dash in `s`. */
  predicate AtMostOneDash(s: string)
  {
    forall a, b :: 0 <= a < b < |s| ==> !(s[a] == '-' && s[b] == '-')
  }

  /** A dash-free tail keeps what follows one more dash at one dash. */
  lemma OneDash(mid: string, tail: string)
    requires '-' !in mid && '-' !in tail
    ensures AtMostOneDash(mid + "-" + tail)
  {
    var s := mid + "-" + tail;
    forall a, b | 0 <= a < b < |s| && s[a] == '-'
      ensures s[b] != '-'
    {
      assert a == |mid|;
      assert s[b] == tail[b - |mid| - 1];
    }
  }

  /** `line.rsplit("-", 2)` rejoined as `(parts[0], "-".join(parts[1:]))`:
   *  the line is cut at its second-to-last dash, or at its only one. */
  function RsplitDash(line: string): (p: Package)
    requires '-' in line
    ensures p.name + "-" + p.version == line
  {
    var j := LastIndexOf(line, '-');
    var i := LastIndexOf(line[..j], '-');
    var cut := if i < 0 then j else i;
    assert line == line[..cut] + "-" + line[cut + 1..];
    Package(line[..cut], line[cut + 1..])
  }

  /** What follows the cut holds one dash when the name holds one, and at
   *  most one in any case: `rsplit` made at most two cuts. */
  lemma RsplitDashVersion(line: string)
    requires '-' in line
    ensures AtMostOneDash(RsplitDash(line).version)
    ensures '-' in RsplitDash(line).name ==> '-' in RsplitDash(line).version
  {
    var j := LastIndexOf(line, '-');
    var head := line[..j];
    var i := LastIndexOf(head, '-');
    if i < 0 {
      assert RsplitDash(line).name == head;
      assert RsplitDash(line).version == line[j + 1..];
    } else {
      assert line[i + 1..] == head[i + 1..] + "-" + line[j + 1..];
      OneDash(head[i + 1..], line[j + 1..]);
    }
  }

  /** A plain `rpm -qa` line: only lines with a dash give a package. */
  function RpmQaEntry(line: string): (r: Option<Package>)
    ensures r.Some? <==> '-' in line
    ensures r.Some? ==> r.value.name + "-" + r.value.version == line
  {
    if '-' in line then Some(RsplitDash(line)) else None
  }

  function Entry(f: Format, line: string): Option<Package>
  {
    match f
    case Dpkg => DpkgEntry(line)
    case RpmTab => RpmTabEntry(line)
    case RpmQa => RpmQaEntry(line)
  }

  /** The line parser of a format, as a value. */
  function EntryOf(f: Format): string -> Option<Package>
  {
    (line: string) => Entry(f, line)
  }

  // ---- Collecting with `seen` ----

  function NameSet(ps: seq<Package>): set<string>
  {
    set p | p in ps :: p.name
  }

  predicate DistinctNames(ps: seq<Package>)
  {
    forall i, j :: 0 <= i < j < |ps| ==> ps[i].name != ps[j].name
  }

  /** The names of a prefix are names of the whole list. */
  lemma NameSetPrefix(a: seq<Package>, r: seq<Package>)
    requires |a| <= |r| && r[..|a|] == a
    ensures NameSet(a) <= NameSet(r)
  {
    forall p | p in a ensures p in r {
      var i :| 0 <= i < |a| && a[i] == p;
      assert r[..|a|][i] == p;
    }
  }

  /** One line's effect: its package is appended unless its name was seen. */
  function Add(acc: seq<Package>, e: Option<Package>): (r: seq<Package>)
    ensures DistinctNames(acc) ==> DistinctNames(r)
    ensures e.Some? ==> e.value.name in NameSet(r)
  {
    if e.None? || e.value.name in NameSet(acc) then acc
    else
      var r := acc + [e.value];
      assert r[|acc|] in r;
      assert forall i :: 0 <= i < |acc| ==> r[i] == acc[i] && acc[i] in acc;
      r
  }

  /** The list after the loop over `lines`, starting from `acc`: `acc`
   *  followed by the first package of each name not yet present, in line
   *  order, and no name twice when `acc` had none twice. */
  function Gather(acc: seq<Package>, lines: seq<string>, entry: string -> Option<Package>): seq<Package>
    decreases |lines|
  {
    if lines == [] then acc else Gather(Add(acc, entry(lines[0])), lines[1..], entry)
  }

  /** The loop only appends, at most one package per line, keeps names
   *  distinct, and collects the name of every line that parses. */
  lemma {:induction false} GatherShape(acc: seq<Package>, lines: seq<string>, entry: string -> Option<Package>)
    ensures var r := Gather(acc, lines, entry);
      |acc| <= |r| <= |acc| + |lines| && r[..|acc|] == acc &&
      (DistinctNames(acc) ==> DistinctNames(r)) &&
      forall k :: 0 <= k < |lines| && entry(lines[k]).Some? ==> entry(lines[k]).value.name in NameSet(r)
    decreases |lines|
  {
    if lines != [] {
      var next := Add(acc, entry(lines[0]));
      GatherShape(next, lines[1..], entry);
      var r := Gather(next, lines[1..], entry);
      assert r[..|next|][..|acc|] == r[..|acc|];
      assert next[..|acc|] == acc;
      NameSetPrefix(next, r);
      assert forall k :: 1 <= k < |lines| ==> lines[k] == lines[1..][k - 1];
    }
  }

  /** Every package the loop collects was already there or comes from one of
   *  its lines. */
  lemma {:induction false} GatherFrom(acc: seq<Package>, lines: seq<string>, entry: string -> Option<Package>)
    ensures forall p :: p in Gather(acc, lines, entry) ==> p in acc || exists k :: 0 <= k < |lines| && entry(lines[k]) == Some(p)
    decreases |lines|
  {
    if lines != [] {
      var next := Add(acc, entry(lines[0]));
      GatherFrom(next, lines[1..], entry);
      forall p | p in Gather(acc, lines, entry) && p !in acc
        ensures exists k :: 0 <= k < |lines| && entry(lines[k]) == Some(p)
      {
        if p in next {
          assert entry(lines[0]) == Some(p);
        } else {
          var k :| 0 <= k < |lines[1..]| && entry(lines[1..][k]) == Some(p);
          assert lines[k + 1] == lines[1..][k];
        }
      }
    }
  }

  /** The loop over `lines[k..]` is one line's effect followed by the loop
   *  over `lines[k + 1..]`. */
  lemma GatherStep(acc: seq<Package>, lines: seq<string>, k: nat, entry: string -> Option<Package>)
    requires k < |lines|
    ensures Gather(acc, lines[k..], entry) == Gather(Add(acc, entry(lines[k])), lines[k + 1..], entry)
  {
    assert lines[k..][1..] == lines[k + 1..];
  }

  /** With `seen` holding the collected names, testing `seen` is testing the
   *  list, and adding to both keeps them in step. */
  lemma AddSeen(acc: seq<Package>, seen: set<string>, e: Option<Package>)
    requires seen == NameSet(acc)
    ensures e.Some? && e.value.name !in seen ==>
      Add(acc, e) == acc + [e.value] && NameSet(acc + [e.value]) == seen + {e.value.name}
    ensures !(e.Some? && e.value.name !in seen) ==> Add(acc, e) == acc
  {
    if e.Some? && e.value.name !in seen {
      var r := acc + [e.value];
      assert forall p :: p in r <==> p in acc || p == e.value;
    }
  }

  /** One format's loop from an empty list. */
  function Stage(f: Format, out: string): seq<Package>
  {
    Gather([], StageLines(f, out), EntryOf(f))
  }

  /** The Linux enumeration: dpkg, then the rpm query format when dpkg gave
   *  nothing (a failed command is skipped), then plain `rpm -qa` when both
   *  gave nothing. An uncaught exception ends the enumeration with nothing. */
  function LinuxPackages(dpkg: Outcome, rpmQuery: Outcome, rpmQa: Outcome): seq<Package>
  {
    var first := if dpkg.Output? then Stage(Dpkg, dpkg.text) else [];
    if dpkg.Crashed? || first != [] then first
    else
      var second := if rpmQuery.Output? then Stage(RpmTab, rpmQuery.text) else [];
      if rpmQuery.Crashed? || second != [] then second
      else if rpmQa.Output? then Stage(RpmQa, rpmQa.text)
      else []
  }

  /** The macOS listing: every line among the first 50 that ends in ".app"
   *  once stripped, with every ".app" removed and then stripped. Names are
   *  not checked against `seen`. */
  function DarwinPackages(lines: seq<string>): (r: seq<Package>)
    ensures |r| <= |lines|
    decreases |lines|
  {
    if lines == [] then [] else DarwinRow(lines[0]) + DarwinPackages(lines[1..])
  }

  /** Each macOS package comes from a listed line ending in ".app". */
  lemma {:induction false} DarwinPackagesFrom(lines: seq<string>)
    ensures forall p :: p in DarwinPackages(lines) ==>
      p.version == "" && exists k :: 0 <= k < |lines| && IsBundle(lines[k]) && p.name == BundleName(lines[k])
  {
    if lines != [] {
      DarwinPackagesFrom(lines[1..]);
      assert forall k :: 0 <= k < |lines[1..]| ==> lines[1..][k] == lines[k + 1];
    }
  }

  /** An `ls` line naming an application bundle. */
  predicate IsBundle(line: string)
  {
    EndsWith(PyStrip(line), ".app")
  }

  /** The application name of a bundle line. */
  function BundleName(line: string): string
  {
    PyStrip(Replace(line, ".app", ""))
  }

  /** A bundle listed as `name.app`, whose name has no dot, is recognised and
   *  gives its stripped name without a version. */
  lemma BundleLine(n: string)
    requires '.' !in n
    ensures IsBundle(n + ".app") && BundleName(n + ".app") == PyStrip(n)
    ensures DarwinRow(n + ".app") == [Package(PyStrip(n), "")]
  {
    assert !IsPySpace('.') && !IsPySpace('p');
    TrimKeepsSuffix(n, ".app", IsPySpace);
    ReplaceSuffix(n, ".app");
  }

  /** The package one `ls` line gives, if any. */
  function DarwinRow(line: string): seq<Package>
  {
    if IsBundle(line) then [Package(BundleName(line), "")] else []
  }

  /** The listing of `lines[k..]` is line `k`'s package, then the rest. */
  lemma DarwinStep(lines: seq<string>, k: nat)
    requires k < |lines|
    ensures DarwinPackages(lines[k..]) == DarwinRow(lines[k]) + DarwinPackages(lines[k + 1..])
  {
    assert lines[k..][1..] == lines[k + 1..];
  }

  /** What the enumeration collected, before the placeholder rule. */
  function Collected(p: Platform): seq<Package>
  {
    match p
    case Linux(dpkg, rpmQuery, rpmQa) => LinuxPackages(dpkg, rpmQuery, rpmQa)
    case Darwin(ls) => if ls.Output? then DarwinPackages(Window(Lines(ls.text), 0, 50)) else []
    case Windows(found) => found
    case OtherSystem => []
  }

  const Placeholder := Package("(Unable to enumerate)", "")

  /** `get_installed_apps`: never empty; the placeholder stands exactly for
   *  an enumeration that found nothing. */
  function InstalledApps(p: Platform): (r: seq<Package>)
    ensures r != []
    ensures Collected(p) == [] ==> r == [Placeholder]
    ensures Collected(p) != [] ==> r == Collected(p)
  {
    var found := Collected(p);
    if found == [] then [Placeholder] else found
  }

  // ---- Properties of the Linux enumeration ----

  /** Each Linux stage is one of the three stage lists. */
  lemma LinuxIsAStage(dpkg: Outcome, rpmQuery: Outcome, rpmQa: Outcome)
    ensures var r := LinuxPackages(dpkg, rpmQuery, rpmQa);
      r == [] || (dpkg.Output? && r == Stage(Dpkg, dpkg.text))
              || (rpmQuery.Output? && r == Stage(RpmTab, rpmQuery.text))
              || (rpmQa.Output? && r == Stage(RpmQa, rpmQa.text))
  {
    var first := if dpkg.Output? then Stage(Dpkg, dpkg.text) else [];
    var second := if rpmQuery.Output? then Stage(RpmTab, rpmQuery.text) else [];
    if dpkg.Crashed? || first != [] {
      assert LinuxPackages(dpkg, rpmQuery, rpmQa) == first;
    } else if rpmQuery.Crashed? || second != [] {
      assert LinuxPackages(dpkg, rpmQuery, rpmQa) == second;
    }
  }

  /** On Linux no name is collected twice. */
  lemma LinuxDistinct(dpkg: Outcome, rpmQuery: Outcome, rpmQa: Outcome)
    ensures DistinctNames(LinuxPackages(dpkg, rpmQuery, rpmQa))
  {
    LinuxIsAStage(dpkg, rpmQuery, rpmQa);
    assert DistinctNames([]);
    if dpkg.Output? {
      GatherShape([], StageLines(Dpkg, dpkg.text), EntryOf(Dpkg));
    }
    if rpmQuery.Output? {
      GatherShape([], StageLines(RpmTab, rpmQuery.text), EntryOf(RpmTab));
    }
    if rpmQa.Output? {
      GatherShape([], StageLines(RpmQa, rpmQa.text), EntryOf(RpmQa));
    }
  }

  /** The dpkg stage reads lines 5 to 304 only, and keeps no "lib" package
   *  and no architecture suffix. */
  lemma DpkgStage(out: string)
    ensures |Stage(Dpkg, out)| <= 300
    ensures forall p :: p in Stage(Dpkg, out) ==>
      exists k :: 5 <= k < 305 && k < |Lines(out)| && DpkgEntry(Lines(out)[k]) == Some(p)
                  && ':' !in p.name && !StartsWith(p.name, "lib")
  {
    var ls := StageLines(Dpkg, out);
    GatherFrom([], ls, EntryOf(Dpkg));
    GatherShape([], ls, EntryOf(Dpkg));
    forall p | p in Stage(Dpkg, out)
      ensures exists k :: 5 <= k < 305 && k < |Lines(out)| && DpkgEntry(Lines(out)[k]) == Some(p)
                          && ':' !in p.name && !StartsWith(p.name, "lib")
    {
      var i :| 0 <= i < |ls| && EntryOf(Dpkg)(ls[i]) == Some(p);
      assert ls[i] == Lines(out)[5 + i];
    }
  }

  /** The tab-format stage keeps only named, stripped packages from the
   *  first 300 lines. */
  lemma RpmTabStage(out: string)
    ensures |Stage(RpmTab, out)| <= 300
    ensures forall p :: p in Stage(RpmTab, out) ==>
      exists k :: 0 <= k < 300 && k < |Lines(out)| && RpmTabEntry(Lines(out)[k]) == Some(p)
                  && |p.name| > 0 && '\t' !in p.name
  {
    var ls := StageLines(RpmTab, out);
    GatherFrom([], ls, EntryOf(RpmTab));
    GatherShape([], ls, EntryOf(RpmTab));
    forall p | p in Stage(RpmTab, out)
      ensures exists k :: 0 <= k < 300 && k < |Lines(out)| && RpmTabEntry(Lines(out)[k]) == Some(p)
                          && |p.name| > 0 && '\t' !in p.name
    {
      var i :| 0 <= i < |ls| && EntryOf(RpmTab)(ls[i]) == Some(p);
      assert ls[i] == Lines(out)[i];
      RpmTabName(ls[i]);
    }
  }

  /** The `rpm -qa` stage reads at most 50 lines, and each package rebuilds
   *  one of them as name, dash, version. */
  lemma RpmQaStage(out: string)
    ensures |Stage(RpmQa, out)| <= 50
    ensures forall p :: p in Stage(RpmQa, out) ==>
      exists k :: 0 <= k < 50 && k < |Lines(out)| && p.name + "-" + p.version == Lines(out)[k]
  {
    var ls := StageLines(RpmQa, out);
    GatherFrom([], ls, EntryOf(RpmQa));
    GatherShape([], ls, EntryOf(RpmQa));
    forall p | p in Stage(RpmQa, out)
      ensures exists k :: 0 <= k < 50 && k < |Lines(out)| && p.name + "-" + p.version == Lines(out)[k]
    {
      var i :| 0 <= i < |ls| && EntryOf(RpmQa)(ls[i]) == Some(p);
      assert ls[i] == Lines(out)[i];
    }
  }

  /** Unlike the Linux stages, the macOS listing keeps a repeated name. */
  lemma DarwinKeepsRepeats(line: string)
    requires EndsWith(PyStrip(line), ".app")
    ensures var r := DarwinPackages([line, line]); |r| == 2 && r[0] == r[1]
  {
    assert [line, line][1..] == [line];
    assert [line][1..] == [];
  }

  // ---- The loops ----

  /** One format's loop over `lines`, with `seen` holding the collected names. */
  method ParseLines(f: Format, lines: seq<string>, apps0: seq<Package>, seen0: set<string>)
    returns (apps: seq<Package>, seen: set<string>)
    requires seen0 == NameSet(apps0)
    ensures apps == Gather(apps0, lines, EntryOf(f)) && seen == NameSet(apps)
  {
    apps, seen := apps0, seen0;
    var k := 0;
    while k < |lines|
      invariant 0 <= k <= |lines|
      invariant seen == NameSet(apps)
      invariant Gather(apps, lines[k..], EntryOf(f)) == Gather(apps0, lines, EntryOf(f))
    {
      var e := Entry(f, lines[k]);
      GatherStep(apps, lines, k, EntryOf(f));
      AddSeen(apps, seen, e);
      if e.Some? && e.value.name !in seen {
        seen := seen + {e.value.name};
        apps := apps + [e.value];
      }
      k := k + 1;
    }
  }

  /** One command of the Linux loop: a failed command leaves everything as
   *  it was; a crash stops the whole enumeration. */
  method RunListing(f: Format, outcome: Outcome, apps0: seq<Package>, seen0: set<string>)
    returns (apps: seq<Package>, seen: set<string>, crashed: bool)
    requires seen0 == NameSet(apps0)
    ensures crashed <==> outcome.Crashed?
    ensures apps == (if outcome.Output? then Gather(apps0, StageLines(f, outcome.text), EntryOf(f)) else apps0)
    ensures seen == NameSet(apps)
  {
    apps, seen, crashed := apps0, seen0, false;
    match outcome {
      case Output(text) =>
        apps, seen := ParseLines(f, StageLines(f, text), apps0, seen0);
      case Failed =>
      case Crashed =>
        crashed := true;
    }
  }

  /** The macOS loop over the first 50 lines of `ls /Applications`. */
  method ListApplications(out: string) returns (apps: seq<Package>)
    ensures apps == DarwinPackages(Window(Lines(out), 0, 50))
  {
    var lines := Window(Lines(out), 0, 50);
    apps := [];
    var k := 0;
    while k < |lines|
      invariant 0 <= k <= |lines|
      invariant apps + DarwinPackages(lines[k..]) == DarwinPackages(lines)
    {
      var n := lines[k];
      DarwinStep(lines, k);
      Associative(apps, DarwinRow(n), DarwinPackages(lines[k + 1..]));
      if IsBundle(n) {
        apps := apps + [Package(BundleName(n), "")];
      } else {
        assert DarwinRow(n) == [] && apps + [] == apps;
      }
      k := k + 1;
    }
  }

  /** The Linux branch: the dpkg and rpm-query commands in turn until one
   *  gives packages, then the `rpm -qa` fallback with the same `seen`. */
  method ListLinuxPackages(dpkg: Outcome, rpmQuery: Outcome, rpmQa: Outcome) returns (apps: seq<Package>)
    ensures apps == LinuxPackages(dpkg, rpmQuery, rpmQa)
  {
    var seen: set<string> := {};
    var crashed;
    apps, seen, crashed := RunListing(Dpkg, dpkg, [], seen);
    ghost var first := if dpkg.Output? then Stage(Dpkg, dpkg.text) else [];
    assert apps == first;
    if crashed || apps != [] {
      return;
    }
    apps, seen, crashed := RunListing(RpmTab, rpmQuery, apps, seen);
    ghost var second := if rpmQuery.Output? then Stage(RpmTab, rpmQuery.text) else [];
    assert apps == second;
    if crashed || apps != [] {
      return;
    }
    if rpmQa.Output? {
      apps, seen := ParseLines(RpmQa, StageLines(RpmQa, rpmQa.text), apps, seen);
    }
  }

  /** `get_installed_apps`. */
  method GetInstalledApps(p: Platform) returns (apps: seq<Package>)
    ensures apps == InstalledApps(p)
  {
    apps := [];
    match p {
      case Linux(dpkg, rpmQuery, rpmQa) =>
        apps := ListLinuxPackages(dpkg, rpmQuery, rpmQa);
      case Darwin(ls) =>
        if ls.Output? {
          apps := ListApplications(ls.text);
        }
      case Windows(found) =>
        apps := found;
      case OtherSystem =>
    }
    if apps == [] {
      apps := [Placeholder];
    }
  }
}
