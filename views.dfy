/** `get_topology_data` as the view runs it: the option fallbacks, the cable
    loop that appends edges and reserves node slots, and the device loop
    that fills the slots. The slot state (`device_node_ids` and `nodes`)
    lives in a `NodeSlots` object that both loops update, as the closure
    `_reserve_device_node` does in the view.

    `GetTopologyData` is proved to return exactly `TopologyOf` of its
    inputs, so every lemma of TopologyProps and Quirks holds of what it
    returns. */
module Views {
  import opened Records
  import opened Description
  import opened Slots
  import opened TopologyModel

  /** `device_data`, built row by row as the view builds it. */
  method DeviceData(d: Device) returns (data: seq<Entry>)
    ensures data == DeviceEntries(d)
  {
    data := [Entry("Status", d.status)];
    if d.deviceType.Some? {
      data := data + [Entry("Type", d.deviceType.value)];
    }
    ghost var typeRow := OptionalRow(d.deviceType.Some?, "Type", if d.deviceType.Some? then d.deviceType.value else "");
    assert data == [Entry("Status", d.status)] + typeRow;
    if d.role.name != "" {
      data := data + [Entry("Role", d.role.name)];
    }
    assert data == [Entry("Status", d.status)] + typeRow + OptionalRow(d.role.name != "", "Role", d.role.name);
    if d.serial != "" {
      data := data + [Entry("Serial", d.serial)];
    }
    ghost var upToSerial := [Entry("Status", d.status)] + typeRow + OptionalRow(d.role.name != "", "Role", d.role.name)
                            + OptionalRow(d.serial != "", "Serial", d.serial);
    assert data == upToSerial;
    if d.primaryIp.Some? {
      data := data + [Entry("Primary IP", d.primaryIp.value)];
    }
    assert data == upToSerial + OptionalRow(d.primaryIp.Some?, "Primary IP", if d.primaryIp.Some? then d.primaryIp.value else "");
  }

  /** The node dictionary of a device placed in `slot`. */
  method MakeNode(d: Device, slot: nat, images: set<string>) returns (node: Node)
    ensures node == NodeFor(d, slot, images)
    ensures node.id == slot && node.shape == "image"
  {
    var slug := ImageSlug(d.role, images);
    var data := DeviceData(d);
    var border := if d.role.color != "" then Some("#" + d.role.color) else None;
    node := Node(slot, NodeName(d), Html.Escape(d.text), "image", ImageDir + slug + ".png",
                 Describe(d.text, data), border);
  }

  /** One iteration of the cable loop. It either raises (on `t.device` of an
      end that has no device) or leaves the loop variables at the state
      `EdgeStep` gives. */
  method CableStep(c: Cable, q: Query, slots: NodeSlots, edges: seq<Edge>, processed: set<CircuitId>,
                   ghost via: seq<Ends>)
    returns (raised: bool, edges': seq<Edge>, processed': set<CircuitId>, ghost via': seq<Ends>)
    requires slots.Valid()
    modifies slots
    ensures slots.Valid()
    ensures raised ==> EdgeStep(c, q, EdgeState(old(slots.Value()), edges, processed, via)) == Raise(c.id)
    ensures !raised ==> EdgeStep(c, q, EdgeState(old(slots.Value()), edges, processed, via))
                        == Next(EdgeState(slots.Value(), edges', processed', via'))
  {
    raised, edges', processed', via' := false, edges, processed, via;
    if IgnoredType(c, q.ignore) {
      return;
    }
    var ta, taCable, tb, tbCable := c.a, c, c.b, c;
    var circuit: Option<CircuitRef> := None;
    if q.enableCircuits {
      if c.a.owner.OnCircuit? {
        circuit := Some(c.a.owner.circuit);
        if circuit.value.id in processed {
          return;
        }
        var peer := DeviceBoundPeer(c.a, q.store);
        if peer.None? {
          return;
        }
        ta, taCable := peer.value.0, peer.value.1;
      } else if c.b.owner.OnCircuit? {
        circuit := Some(c.b.owner.circuit);
        if circuit.value.id in processed {
          return;
        }
        var peer := DeviceBoundPeer(c.b, q.store);
        if peer.None? {
          return;
        }
        tb, tbCable := peer.value.0, peer.value.1;
      }
      if circuit.Some? {
        processed' := processed + {circuit.value.id};
      }
    }
    var e := Ends(c, ta, taCable, tb, tbCable, circuit);
    assert ResolveEnds(c, q.enableCircuits, processed, q.store) == Resolved(e);
    if !ta.owner.OnDevice? {
      raised := true;
      return;
    }
    if ta.owner.device.id !in q.deviceIds {
      return;
    }
    if !tb.owner.OnDevice? {
      raised := true;
      return;
    }
    if tb.owner.device.id !in q.deviceIds {
      return;
    }
    var from := slots.ReserveDeviceNode(ta.owner.device.id);
    var to := slots.ReserveDeviceNode(tb.owner.device.id);
    edges' := edges + [MakeEdge(|edges|, from, to, e, q.enableCircuits)];
    via' := via + [e];
  }

  /** One iteration of the device loop: fill the device's slot, reserving
      one first unless unconnected devices are hidden. */
  method PlaceDevice(d: Device, hideUnconnected: bool, images: set<string>, slots: NodeSlots)
    requires slots.Valid()
    modifies slots
    ensures slots.Valid()
    ensures slots.Value() == NodeStep(d, hideUnconnected, Builder(images), old(slots.Value()))
  {
    var slot: nat;
    if d.id in slots.ids {
      slot := slots.ids[d.id];
    } else {
      if hideUnconnected {
        return;
      }
      slot := slots.ReserveDeviceNode(d.id);
    }
    var node := MakeNode(d, slot, images);
    slots.Put(slot, node);
  }

  /** The cable loop over the selected cables, from empty slots and no
      edges: it stops at the first cable that raises, and otherwise ends in
      the state the edge pass gives. */
  method AddEdges(selected: seq<Cable>, q: Query, slots: NodeSlots)
    returns (fault: Option<CableId>, edges: seq<Edge>, processed: set<CircuitId>, ghost via: seq<Ends>)
    requires slots.Valid() && slots.Value() == NoSlots
    modifies slots
    ensures slots.Valid()
    ensures fault.Some? ==> EdgePass(selected, q, NoEdges) == Raised(fault.value)
    ensures fault.None? ==> EdgePass(selected, q, NoEdges) == Done(EdgeState(slots.Value(), edges, processed, via))
  {
    edges, processed, via := [], {}, [];
    var i := 0;
    while i < |selected|
      invariant 0 <= i <= |selected|
      invariant slots.Valid()
      invariant EdgePass(selected, q, NoEdges) == EdgePass(selected[i..], q, EdgeState(slots.Value(), edges, processed, via))
    {
      assert selected[i..][0] == selected[i] && selected[i..][1..] == selected[i + 1..];
      var raised;
      raised, edges, processed, via := CableStep(selected[i], q, slots, edges, processed, via);
      if raised {
        return Some(selected[i].id), edges, processed, via;
      }
      i := i + 1;
    }
    assert selected[i..] == [];
    fault := None;
  }

  /** The device loop: every requested device, in order. */
  method AddNodes(devices: seq<Device>, hideUnconnected: bool, images: set<string>, slots: NodeSlots)
    requires slots.Valid()
    modifies slots
    ensures slots.Valid()
    ensures slots.Value() == NodePass(devices, hideUnconnected, Builder(images), old(slots.Value()))
  {
    var j := 0;
    while j < |devices|
      invariant 0 <= j <= |devices|
      invariant slots.Valid()
      invariant NodePass(devices, hideUnconnected, Builder(images), old(slots.Value()))
                == NodePass(devices[j..], hideUnconnected, Builder(images), slots.Value())
    {
      assert devices[j..][0] == devices[j] && devices[j..][1..] == devices[j + 1..];
      PlaceDevice(devices[j], hideUnconnected, images, slots);
      j := j + 1;
    }
    assert devices[j..] == [];
  }

  /** `TopologyOf` once the cable loop has raised. */
  lemma TopologyAfterFault(devices: seq<Device>, hideUnconnected: bool, opts: Options, cables: seq<Cable>,
                           store: Store, id: CableId)
    requires devices != []
    requires EdgePass(SelectCables(cables, QueryFor(devices, opts, store)), QueryFor(devices, opts, store), NoEdges) == Raised(id)
    ensures TopologyOf(devices, hideUnconnected, opts, cables, store) == AttributeFault(id)
  {
    assert RunOf(devices, hideUnconnected, opts, cables, store) == Failed(id);
  }

  /** `TopologyOf` once the cable loop has finished in state `st`: the
      payload of the slots after the device loop, all of them filled. */
  lemma TopologyAfterEdges(devices: seq<Device>, hideUnconnected: bool, opts: Options, cables: seq<Cable>,
                           store: Store, st: EdgeState)
    requires devices != []
    requires EdgePass(SelectCables(cables, QueryFor(devices, opts, store)), QueryFor(devices, opts, store), NoEdges) == Done(st)
    ensures Dense(st.slots)
    ensures var s := NodePass(devices, hideUnconnected, Builder(opts.enabledDeviceImages), st.slots);
            && (forall k :: 0 <= k < |s.nodes| ==> s.nodes[k].Some?)
            && TopologyOf(devices, hideUnconnected, opts, cables, store) == Graph(Unwrap(s.nodes), st.edges)
  {
    EdgePassKeepsSlots(SelectCables(cables, QueryFor(devices, opts, store)), QueryFor(devices, opts, store), NoEdges);
    var s := NodePass(devices, hideUnconnected, Builder(opts.enabledDeviceImages), st.slots);
    assert RunOf(devices, hideUnconnected, opts, cables, store) == Finished(st, s);
    RunFillsEverySlot(devices, hideUnconnected, opts, cables, store);
  }

  /** The option fallbacks: an option the caller leaves unset (None) is
      read from the plugin settings. */
  method LoadOptions(ignore: Option<seq<string>>, enable: Option<bool>, images: Option<set<string>>,
                     cfg: PluginConfig)
    returns (ignoreTypes: seq<string>, enableCircuits: bool, enabledImages: set<string>)
    ensures Options(ignoreTypes, enableCircuits, enabledImages) == ResolveOptions(ignore, enable, images, cfg)
  {
    if ignore.None? {
      ignoreTypes := cfg.ignoreCableType;
    } else {
      ignoreTypes := ignore.value;
    }
    if enable.None? {
      enableCircuits := cfg.enableCircuitTerminations;
    } else {
      enableCircuits := enable.value;
    }
    if images.None? {
      enabledImages := cfg.deviceImg;
    } else {
      enabledImages := images.value;
    }
  }

  /** `get_topology_data(queryset, hide_unconnected, ignore_cable_types,
      enable_circuit_terminations, enabled_device_images)`, with the plugin
      settings `cfg`, the cables of the database in `cables` and the circuit
      traversal data in `store`. */
  method GetTopologyData(devices: seq<Device>, hideUnconnected: bool, ignore: Option<seq<string>>,
                         enable: Option<bool>, images: Option<set<string>>, cfg: PluginConfig,
                         cables: seq<Cable>, store: Store)
    returns (r: Topology)
    ensures r == TopologyOf(devices, hideUnconnected, ResolveOptions(ignore, enable, images, cfg), cables, store)
  {
    if devices == [] {
      return NoQuery;
    }
    var ignoreTypes, enableCircuits, enabledImages := LoadOptions(ignore, enable, images, cfg);
    r := BuildTopology(devices, hideUnconnected, Options(ignoreTypes, enableCircuits, enabledImages), cables, store);
  }

  /** `get_topology_data(queryset, hide_unconnected)` with the default
      arguments, as the topology page calls it: no cable type is ignored and
      circuits are followed whatever the plugin settings say; only the
      device images come from the settings. */
  method GetTopologyDataWithDefaults(devices: seq<Device>, hideUnconnected: bool, cfg: PluginConfig,
                                     cables: seq<Cable>, store: Store)
    returns (r: Topology)
    ensures r == TopologyOf(devices, hideUnconnected, Options([], true, cfg.deviceImg), cables, store)
  {
    r := GetTopologyData(devices, hideUnconnected, Some([]), Some(true), None, cfg, cables, store);
  }

  /** The body of `get_topology_data` after the options are settled. */
  method BuildTopology(devices: seq<Device>, hideUnconnected: bool, opts: Options, cables: seq<Cable>, store: Store)
    returns (r: Topology)
    requires devices != []
    ensures r == TopologyOf(devices, hideUnconnected, opts, cables, store)
  {
    var slots := new NodeSlots();
    var q := Query(DeviceIds(devices), opts.enableCircuitTerminations, opts.ignoreCableTypes, store);
    var selected := SelectCables(cables, q);
    assert q == QueryFor(devices, opts, store);
    var fault, edges, processed, via := AddEdges(selected, q, slots);
    if fault.Some? {
      TopologyAfterFault(devices, hideUnconnected, opts, cables, store, fault.value);
      return AttributeFault(fault.value);
    }
    TopologyAfterEdges(devices, hideUnconnected, opts, cables, store, EdgeState(slots.Value(), edges, processed, via));
    AddNodes(devices, hideUnconnected, opts.enabledDeviceImages, slots);
    return Graph(Unwrap(slots.nodes), edges);
  }
}
