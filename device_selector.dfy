/**
 * The device picker: one checkbox per device toggles its id in the
 * selection, and a select-all box that compares lengths only.
 */
module DeviceSelector {
  import opened Inventory

  /** `devices.map((d) => d.id)`. */
  function Ids(devices: seq<Device>): (ids: seq<string>)
    ensures |ids| == |devices| && forall k :: 0 <= k < |devices| ==> ids[k] == devices[k].id
  {
    seq(|devices|, k requires 0 <= k < |devices| => devices[k].id)
  }

  predicate NoDup(s: seq<string>)
  {
    forall i, j :: 0 <= i < j < |s| ==> s[i] != s[j]
  }

  /** `selected.filter((s) => s !== id)`: every occurrence of `id` goes,
   *  every other id stays. */
  function Remove(selected: seq<string>, id: string): (r: seq<string>)
    ensures forall x :: x in r <==> x in selected && x != id
    ensures NoDup(selected) ==> NoDup(r)
  {
    if selected == [] then []
    else
      var last := selected[|selected| - 1];
      var init := selected[..|selected| - 1];
      var r := Remove(init, id);
      assert selected == init + [last];
      assert NoDup(selected) ==> NoDup(init) && last !in init;
      if last == id then r else r + [last]
  }

  /** The ids that stay keep their number of occurrences. */
  lemma {:induction false} RemoveCounts(selected: seq<string>, id: string)
    ensures multiset(Remove(selected, id)) == multiset(selected)[id := 0]
  {
    if selected != [] {
      var init := selected[..|selected| - 1];
      var last := selected[|selected| - 1];
      RemoveCounts(init, id);
      assert selected == init + [last];
      assert multiset(selected) == multiset(init) + multiset{last};
    }
  }

  /** Removing from a concatenation removes from each part: the ids that
   *  stay keep their order. */
  lemma {:induction false} RemoveConcat(a: seq<string>, b: seq<string>, id: string)
    ensures Remove(a + b, id) == Remove(a, id) + Remove(b, id)
    decreases |b|
  {
    if b == [] {
      assert a + b == a;
    } else {
      var b' := b[..|b| - 1];
      RemoveConcat(a, b', id);
      assert (a + b)[..|a + b| - 1] == a + b';
    }
  }

  /** Removing an absent id changes nothing. */
  lemma {:induction false} RemoveAbsent(selected: seq<string>, id: string)
    requires id !in selected
    ensures Remove(selected, id) == selected
  {
    if selected != [] {
      RemoveAbsent(selected[..|selected| - 1], id);
      assert selected == selected[..|selected| - 1] + [selected[|selected| - 1]];
    }
  }

  /** `toggle`: a selected id is removed everywhere, any other id is
   *  appended at the end. */
  function Toggle(selected: seq<string>, id: string): (r: seq<string>)
    ensures id in selected ==> id !in r && forall x :: x != id ==> (x in r <==> x in selected)
    ensures id !in selected ==> r == selected + [id]
    ensures NoDup(selected) ==> NoDup(r)
  {
    if id in selected then Remove(selected, id) else selected + [id]
  }

  /** Toggling an unselected id twice restores the selection exactly. */
  lemma ToggleTwiceAbsent(selected: seq<string>, id: string)
    requires id !in selected
    ensures Toggle(Toggle(selected, id), id) == selected
  {
    RemoveConcat(selected, [id], id);
    RemoveAbsent(selected, id);
    assert Remove([id], id) == [] by {
      assert [id][..0] == [];
    }
  }

  /** In a duplicate-free sequence a present id occurs once. */
  lemma {:induction false} NoDupOnce(s: seq<string>, id: string)
    requires NoDup(s) && id in s
    ensures multiset(s)[id] == 1
  {
    var init := s[..|s| - 1];
    var last := s[|s| - 1];
    assert s == init + [last];
    assert NoDup(init);
    if last == id {
      assert id !in init by {
        forall j | 0 <= j < |init| ensures init[j] != id {
          assert s[j] != s[|s| - 1];
        }
      }
    } else {
      NoDupOnce(init, id);
    }
  }

  /** Toggling a selected id twice moves it to the end: on a duplicate-free
   *  selection the same ids are selected, once each. */
  lemma ToggleTwicePresent(selected: seq<string>, id: string)
    requires id in selected && NoDup(selected)
    ensures Toggle(Toggle(selected, id), id) == Remove(selected, id) + [id]
    ensures multiset(Toggle(Toggle(selected, id), id)) == multiset(selected)
  {
    NoDupOnce(selected, id);
    RemoveCounts(selected, id);
    var r := Remove(selected, id);
    assert multiset(r + [id]) == multiset(r) + multiset{id};
  }

  /** So toggling twice is not the identity on sequences. */
  lemma ToggleTwiceReorders()
    ensures Toggle(Toggle(["a", "b"], "a"), "a") == ["b", "a"]
  {
    var s: seq<string> := ["a", "b"];
    assert "a" != "b" by {
      assert "a"[0] != "b"[0];
    }
    assert s[..1] == ["a"] && ["a"][..0] == [];
    assert Remove(["a"], "a") == Remove([], "a");
    assert Remove(s, "a") == ["b"];
    assert "a" !in ["b"];
  }

  /** `toggleAll`: clears a selection as long as the device list, otherwise
   *  selects every device id in device order. */
  function ToggleAll(selected: seq<string>, devices: seq<Device>): seq<string>
  {
    if |selected| == |devices| then [] else Ids(devices)
  }

  /** The select-all box: at least one device, and as many ids as devices. */
  predicate AllChecked(selected: seq<string>, devices: seq<Device>)
  {
    |devices| > 0 && |selected| == |devices|
  }

  /** After `toggleAll` the box is checked exactly when there are devices
   *  and the selection was not as long as the list; then every device is
   *  selected, in device order, and a second click clears the selection. */
  lemma ToggleAllFlips(selected: seq<string>, devices: seq<Device>)
    ensures AllChecked(ToggleAll(selected, devices), devices) <==> devices != [] && |selected| != |devices|
    ensures |selected| != |devices| ==>
      (forall k :: 0 <= k < |devices| ==> devices[k].id in ToggleAll(selected, devices)) &&
      ToggleAll(ToggleAll(selected, devices), devices) == []
    ensures |selected| == |devices| ==> ToggleAll(selected, devices) == []
  {
    if |selected| != |devices| {
      var ids := Ids(devices);
      forall k | 0 <= k < |devices| ensures devices[k].id in ids {
        assert ids[k] == devices[k].id;
      }
    }
  }

  /** The ids of a duplicate-free sequence are as many as its elements. */
  lemma {:induction false} NoDupCard(s: seq<string>)
    requires NoDup(s)
    ensures |set x | x in s| == |s|
  {
    if s != [] {
      var init := s[..|s| - 1];
      var last := s[|s| - 1];
      NoDupCard(init);
      assert last !in init by {
        forall j | 0 <= j < |init| ensures init[j] != last {
          assert s[j] != s[|s| - 1];
        }
      }
      assert (set x | x in s) == (set x | x in init) + {last} by {
        assert s == init + [last];
      }
    }
  }

  /** Equal-size sets one inside the other are equal. */
  lemma SubsetCard(a: set<string>, b: set<string>)
    requires a <= b && |a| == |b|
    ensures a == b
  {
    if a != b {
      var y :| y in b && y !in a;
      assert a <= b - {y};
      SubsetCardLe(a, b - {y});
    }
  }

  lemma {:induction false} SubsetCardLe(a: set<string>, b: set<string>)
    requires a <= b
    ensures |a| <= |b|
    decreases |b|
  {
    if a != {} {
      var x :| x in a;
      SubsetCardLe(a - {x}, b - {x});
    }
  }

  /** For a duplicate-free selection drawn from distinct device ids, the
   *  length test means what the box promises: every device is selected. */
  lemma AllCheckedMeansEvery(selected: seq<string>, devices: seq<Device>)
    requires NoDup(selected) && NoDup(Ids(devices))
    requires forall x :: x in selected ==> x in Ids(devices)
    ensures AllChecked(selected, devices) <==> devices != [] && forall k :: 0 <= k < |devices| ==> devices[k].id in selected
  {
    var ids := Ids(devices);
    var sel := set x | x in selected;
    var all := set x | x in ids;
    NoDupCard(selected);
    NoDupCard(ids);
    assert sel <= all;
    if |selected| == |devices| {
      SubsetCard(sel, all);
      forall k | 0 <= k < |devices| ensures devices[k].id in selected {
        assert ids[k] in all;
      }
    }
    if forall k :: 0 <= k < |devices| ==> devices[k].id in selected {
      assert all <= sel;
      SubsetCardLe(all, sel);
      SubsetCardLe(sel, all);
    }
  }
}
