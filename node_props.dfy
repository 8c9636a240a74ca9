/** What the device loop guarantees: every node is the node of a requested
    device placed in its own slot, with `hide_unconnected` no slot is added,
    and without it every requested device gets a slot. Also the contents of
    one node: its tooltip rows, its tooltip layout, its "name" key. */
module NodeProps {
  import opened Records
  import opened Html
  import opened Description
  import opened Slots
  import opened TopologyModel

  /** Keys strictly ascending in the order the view adds device rows. */
  predicate InKeyOrder(r: seq<Entry>) {
    forall i, j :: 0 <= i < j < |r| ==> DeviceKeyRank(r[i].key) < DeviceKeyRank(r[j].key)
  }

  /** Appending an optional row whose key comes after every key so far keeps
      the rows in order. */
  lemma AppendRowInOrder(r: seq<Entry>, present: bool, key: string, value: string)
    requires InKeyOrder(r)
    requires forall i :: 0 <= i < |r| ==> DeviceKeyRank(r[i].key) < DeviceKeyRank(key)
    ensures InKeyOrder(r + OptionalRow(present, key, value))
    ensures forall i :: 0 <= i < |r + OptionalRow(present, key, value)| ==>
              DeviceKeyRank((r + OptionalRow(present, key, value))[i].key) <= DeviceKeyRank(key)
  {
  }

  /** The device tooltip rows keep the order in which the view adds them,
      each key at most once. */
  lemma DeviceEntriesInOrder(d: Device)
    ensures InKeyOrder(DeviceEntries(d))
  {
    var r0 := [Entry("Status", d.status)];
    assert DeviceKeyRank("Status") == 0 && DeviceKeyRank("Type") == 1 && DeviceKeyRank("Role") == 2;
    assert DeviceKeyRank("Serial") == 3 && DeviceKeyRank("Primary IP") == 4;
    AppendRowInOrder(r0, d.deviceType.Some?, "Type", if d.deviceType.Some? then d.deviceType.value else "");
    var r1 := r0 + OptionalRow(d.deviceType.Some?, "Type", if d.deviceType.Some? then d.deviceType.value else "");
    AppendRowInOrder(r1, d.role.name != "", "Role", d.role.name);
    var r2 := r1 + OptionalRow(d.role.name != "", "Role", d.role.name);
    AppendRowInOrder(r2, d.serial != "", "Serial", d.serial);
    var r3 := r2 + OptionalRow(d.serial != "", "Serial", d.serial);
    AppendRowInOrder(r3, d.primaryIp.Some?, "Primary IP", if d.primaryIp.Some? then d.primaryIp.value else "");
  }

  /** Each optional device row is present exactly when its field is set,
      and then holds that field. */
  lemma DeviceEntriesRows(d: Device)
    ensures forall v :: Entry("Type", v) in DeviceEntries(d) <==> d.deviceType == Some(v)
    ensures forall v :: Entry("Role", v) in DeviceEntries(d) <==> d.role.name != "" && v == d.role.name
    ensures forall v :: Entry("Serial", v) in DeviceEntries(d) <==> d.serial != "" && v == d.serial
    ensures forall v :: Entry("Primary IP", v) in DeviceEntries(d) <==> d.primaryIp == Some(v)
  {
    var t := OptionalRow(d.deviceType.Some?, "Type", if d.deviceType.Some? then d.deviceType.value else "");
    var ro := OptionalRow(d.role.name != "", "Role", d.role.name);
    var se := OptionalRow(d.serial != "", "Serial", d.serial);
    var ip := OptionalRow(d.primaryIp.Some?, "Primary IP", if d.primaryIp.Some? then d.primaryIp.value else "");
    var r := DeviceEntries(d);
    assert r == [Entry("Status", d.status)] + t + ro + se + ip;
    forall e | e in r ensures e.key == "Status" || e in t || e in ro || e in se || e in ip {
    }
  }

  /** The "name" key as written: the guard is inverted, so a device without
      a name is called "None" and a named device "untitled-<identifier>". */
  lemma NodeNameAsWritten(d: Device)
    ensures d.name.None? ==> NodeName(d) == "None"
    ensures d.name.Some? ==> NodeName(d) == "untitled-" + Escape(d.identifier)
  {
    if d.name.Some? {
      EscapePlainPrefix("untitled-", d.identifier);
    }
  }

  /** The node tooltip is the escaped device text above one table row per
      device row. */
  lemma NodeTitleLayout(d: Device, slot: nat, images: set<string>)
    ensures NodeFor(d, slot, images).title == TitleSpan(d.text) + TableTag + Rows(DeviceEntries(d)) + "</table>"
  {
    DescribeLayout(d.text, DeviceEntries(d));
  }

  /** The node picture is the role's image when the role has one enabled,
      else the generic one. */
  lemma NodeImage(d: Device, slot: nat, images: set<string>)
    ensures d.role.slug in images ==> NodeFor(d, slot, images).image == ImageDir + d.role.slug + ".png"
    ensures d.role.slug !in images ==> NodeFor(d, slot, images).image == ImageDir + "role-unknown" + ".png"
  {
  }

  /** How the device loop changes the slot table: existing slots keep their
      device; with `hide_unconnected` no slot is added; without it every
      visited device ends up with a slot; only visited devices are added. */
  lemma {:induction false} NodePassSlots(ds: seq<Device>, hideUnconnected: bool, build: (Device, nat) -> Node, s: SlotTable)
    requires Dense(s)
    ensures var r := NodePass(ds, hideUnconnected, build, s);
            && |s.owners| <= |r.owners|
            && (forall k :: 0 <= k < |s.owners| ==> r.owners[k] == s.owners[k])
            && (forall d :: d in s.ids ==> d in r.ids && r.ids[d] == s.ids[d])
            && (forall d :: d in r.ids ==> d in s.ids || d in DeviceIds(ds))
            && (hideUnconnected ==> r.ids == s.ids && r.owners == s.owners)
            && (!hideUnconnected ==> forall j :: 0 <= j < |ds| ==> ds[j].id in r.ids)
    decreases |ds|
  {
    if ds != [] {
      var d := ds[0];
      var s1 := NodeStep(d, hideUnconnected, build, s);
      if d.id !in s.ids && !hideUnconnected {
        ReserveKeepsDense(s, d.id);
      }
      NodePassSlots(ds[1..], hideUnconnected, build, s1);
      var r := NodePass(ds, hideUnconnected, build, s);
      assert r == NodePass(ds[1..], hideUnconnected, build, s1);
      if !hideUnconnected {
        forall j | 0 <= j < |ds| ensures ds[j].id in r.ids {
          if j > 0 {
            assert ds[j] == ds[1..][j - 1];
          }
        }
      }
    }
  }

  /** The device loop leaves a slot alone when its device is not visited. */
  lemma {:induction false} NodePassUntouched(ds: seq<Device>, hideUnconnected: bool, build: (Device, nat) -> Node, s: SlotTable)
    requires Dense(s)
    ensures forall k :: 0 <= k < |s.nodes| && k < |s.owners| && s.owners[k] !in DeviceIds(ds) ==>
              NodePass(ds, hideUnconnected, build, s).nodes[k] == s.nodes[k]
    decreases |ds|
  {
    if ds != [] {
      var d := ds[0];
      var s1 := NodeStep(d, hideUnconnected, build, s);
      if d.id !in s.ids && !hideUnconnected {
        ReserveKeepsDense(s, d.id);
      }
      NodePassUntouched(ds[1..], hideUnconnected, build, s1);
      forall k | 0 <= k < |s.nodes| && k < |s.owners| && s.owners[k] !in DeviceIds(ds)
        ensures NodePass(ds, hideUnconnected, build, s).nodes[k] == s.nodes[k]
      {
        assert s.owners[k] != d.id;
        assert s1.nodes[k] == s.nodes[k] && s1.owners[k] == s.owners[k];
      }
    }
  }

  /** One iteration of the device loop changes at most the slot of the
      visited device, and fills it with that device's node. */
  lemma NodeStepNodes(d: Device, hideUnconnected: bool, build: (Device, nat) -> Node, s: SlotTable)
    requires Dense(s)
    ensures var r := NodeStep(d, hideUnconnected, build, s);
            forall k :: 0 <= k < |r.nodes| ==>
              (k < |s.nodes| && r.nodes[k] == s.nodes[k]) || (r.owners[k] == d.id && r.nodes[k] == Some(build(d, k)))
  {
    if d.id !in s.ids && !hideUnconnected {
      ReserveKeepsDense(s, d.id);
    }
  }

  /** Every slot after the device loop holds what it held before, or the
      node of a visited device that owns the slot. */
  lemma {:induction false} NodePassNodes(ds: seq<Device>, hideUnconnected: bool, build: (Device, nat) -> Node, s: SlotTable)
    requires Dense(s)
    ensures var r := NodePass(ds, hideUnconnected, build, s);
            forall k :: 0 <= k < |r.nodes| ==>
              (k < |s.nodes| && r.nodes[k] == s.nodes[k])
              || (exists j :: 0 <= j < |ds| && ds[j].id == r.owners[k] && r.nodes[k] == Some(build(ds[j], k)))
    decreases |ds|
  {
    if ds != [] {
      var s1 := NodeStep(ds[0], hideUnconnected, build, s);
      NodeStepNodes(ds[0], hideUnconnected, build, s);
      NodePassNodes(ds[1..], hideUnconnected, build, s1);
      NodePassSlots(ds[1..], hideUnconnected, build, s1);
      var r := NodePass(ds[1..], hideUnconnected, build, s1);
      forall k | 0 <= k < |r.nodes|
        ensures (k < |s.nodes| && r.nodes[k] == s.nodes[k])
                || (exists j :: 0 <= j < |ds| && ds[j].id == r.owners[k] && r.nodes[k] == Some(build(ds[j], k)))
      {
        if k < |s1.nodes| && r.nodes[k] == s1.nodes[k] {
          assert r.owners[k] == s1.owners[k];
          assert (k < |s.nodes| && s1.nodes[k] == s.nodes[k]) || (ds[0].id == r.owners[k] && r.nodes[k] == Some(build(ds[0], k)));
        } else {
          var j :| 0 <= j < |ds[1..]| && ds[1..][j].id == r.owners[k] && r.nodes[k] == Some(build(ds[1..][j], k));
          assert ds[j + 1] == ds[1..][j];
        }
      }
    }
  }

  predicate DistinctIds(ds: seq<Device>) {
    forall i, j :: 0 <= i < j < |ds| ==> ds[i].id != ds[j].id
  }

  /** With distinct device ids, a visited device that ends up with a slot
      has its own node there. */
  lemma {:induction false} NodePassPlacesEach(ds: seq<Device>, hideUnconnected: bool, build: (Device, nat) -> Node, s: SlotTable)
    requires Dense(s) && DistinctIds(ds)
    ensures var r := NodePass(ds, hideUnconnected, build, s);
            forall j :: 0 <= j < |ds| && ds[j].id in r.ids ==>
              r.ids[ds[j].id] < |r.nodes| && r.nodes[r.ids[ds[j].id]] == Some(build(ds[j], r.ids[ds[j].id]))
    decreases |ds|
  {
    if ds != [] {
      var d := ds[0];
      var s1 := NodeStep(d, hideUnconnected, build, s);
      if d.id !in s.ids && !hideUnconnected {
        ReserveKeepsDense(s, d.id);
      }
      assert DistinctIds(ds[1..]) by {
        forall i, j | 0 <= i < j < |ds[1..]| ensures ds[1..][i].id != ds[1..][j].id {
          assert ds[1..][i] == ds[i + 1] && ds[1..][j] == ds[j + 1];
        }
      }
      NodePassPlacesEach(ds[1..], hideUnconnected, build, s1);
      NodePassSlots(ds[1..], hideUnconnected, build, s1);
      NodePassUntouched(ds[1..], hideUnconnected, build, s1);
      var r := NodePass(ds[1..], hideUnconnected, build, s1);
      DenseIsBijection(r);
      forall j | 0 <= j < |ds| && ds[j].id in r.ids
        ensures r.ids[ds[j].id] < |r.nodes| && r.nodes[r.ids[ds[j].id]] == Some(build(ds[j], r.ids[ds[j].id]))
      {
        if j == 0 {
          assert d.id in s1.ids;
          var k := s1.ids[d.id];
          assert r.ids[d.id] == k && s1.nodes[k] == Some(build(d, k));
          assert d.id !in DeviceIds(ds[1..]);
          assert s1.owners[k] == d.id;
        } else {
          assert ds[j] == ds[1..][j - 1];
        }
      }
    }
  }
}
