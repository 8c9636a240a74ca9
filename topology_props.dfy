/** Properties of the payload of `get_topology_data` as a whole. */
module TopologyProps {
  import opened Records
  import opened Slots
  import opened TopologyModel
  import opened EdgeProps
  import opened NodeProps

  /** A finished build: the query, the state after the cable loop (which
      satisfies the cable loop's invariant), and the slots after the device
      loop, all filled. */
  lemma FinishedRun(devices: seq<Device>, hideUnconnected: bool, opts: Options, cables: seq<Cable>, store: Store)
    returns (q: Query, st: EdgeState, s: SlotTable)
    requires RunOf(devices, hideUnconnected, opts, cables, store).Finished?
    ensures q == QueryFor(devices, opts, store)
    ensures EdgeInv(st, q, cables) && Dense(st.slots)
    ensures s == NodePass(devices, hideUnconnected, Builder(opts.enabledDeviceImages), st.slots)
    ensures RunOf(devices, hideUnconnected, opts, cables, store) == Finished(st, s)
    ensures forall k :: 0 <= k < |s.nodes| ==> s.nodes[k].Some?
    ensures TopologyOf(devices, hideUnconnected, opts, cables, store) == Graph(Unwrap(s.nodes), st.edges)
  {
    q := QueryFor(devices, opts, store);
    var cs := SelectCables(cables, q);
    NoEdgesInv(q, cables);
    EdgePassKeepsInv(cs, q, cables, NoEdges);
    st := EdgePass(cs, q, NoEdges).st;
    s := NodePass(devices, hideUnconnected, Builder(opts.enabledDeviceImages), st.slots);
    RunFillsEverySlot(devices, hideUnconnected, opts, cables, store);
  }

  /** After the device loop over placeholders only, every slot holds the
      node built for a visited device that owns it, and the slots of the
      cable loop keep their devices. */
  lemma FilledSlots(ds: seq<Device>, hideUnconnected: bool, build: (Device, nat) -> Node, t: SlotTable, s: SlotTable)
    requires Dense(t) && forall k :: 0 <= k < |t.nodes| ==> t.nodes[k].None?
    requires s == NodePass(ds, hideUnconnected, build, t) && forall k :: 0 <= k < |s.nodes| ==> s.nodes[k].Some?
    ensures Dense(s)
    ensures |t.owners| <= |s.owners| && forall k :: 0 <= k < |t.owners| ==> s.owners[k] == t.owners[k]
    ensures hideUnconnected ==> s.owners == t.owners
    ensures forall n :: 0 <= n < |s.nodes| ==>
              s.nodes[n].Some? && exists j :: 0 <= j < |ds| && ds[j].id == s.owners[n] && s.nodes[n] == Some(build(ds[j], n))
  {
    NodePassSlots(ds, hideUnconnected, build, t);
    NodePassNodes(ds, hideUnconnected, build, t);
    forall n | 0 <= n < |s.nodes|
      ensures s.nodes[n].Some? && exists j :: 0 <= j < |ds| && ds[j].id == s.owners[n] && s.nodes[n] == Some(build(ds[j], n))
    {
      assert (n < |t.nodes| && s.nodes[n] == t.nodes[n])
             || exists j :: 0 <= j < |ds| && ds[j].id == s.owners[n] && s.nodes[n] == Some(build(ds[j], n));
      assert !(n < |t.nodes| && s.nodes[n] == t.nodes[n]);
    }
  }

  /** `node` is the node built, for slot n, from a requested device with
      id `id`. */
  ghost predicate NodeOfDevice(node: Node, devices: seq<Device>, id: DeviceId, n: nat, images: set<string>) {
    exists i :: 0 <= i < |devices| && devices[i].id == id && node == NodeFor(devices[i], n, images)
  }

  /** The node in a filled slot, as a payload node: the one built for a
      requested device that owns the slot. */
  lemma NodeInSlot(ds: seq<Device>, images: set<string>, s: SlotTable, n: nat)
    requires |s.owners| == |s.nodes| && forall k :: 0 <= k < |s.nodes| ==> s.nodes[k].Some?
    requires forall k :: 0 <= k < |s.nodes| ==>
               s.nodes[k].Some? && exists j :: 0 <= j < |ds| && ds[j].id == s.owners[k] && s.nodes[k] == Some(Builder(images)(ds[j], k))
    requires n < |s.nodes|
    ensures NodeOfDevice(Unwrap(s.nodes)[n], ds, s.owners[n], n, images)
  {
    assert s.nodes[n].Some?;
    var j :| 0 <= j < |ds| && ds[j].id == s.owners[n] && s.nodes[n] == Some(Builder(images)(ds[j], n));
    assert Unwrap(s.nodes)[n] == NodeFor(ds[j], n, images);
  }

  /** Every node is numbered by its position and is the node of one of the
      requested devices. */
  lemma NodesAreRequestedDevices(devices: seq<Device>, hideUnconnected: bool, opts: Options, cables: seq<Cable>, store: Store)
    ensures var g := TopologyOf(devices, hideUnconnected, opts, cables, store);
            g.Graph? ==> forall n :: 0 <= n < |g.nodes| ==>
              g.nodes[n].id == n
              && exists j :: 0 <= j < |devices| && g.nodes[n] == NodeFor(devices[j], n, opts.enabledDeviceImages)
  {
    var g := TopologyOf(devices, hideUnconnected, opts, cables, store);
    if g.Graph? {
      var q, st, s := FinishedRun(devices, hideUnconnected, opts, cables, store);
      var build := Builder(opts.enabledDeviceImages);
      FilledSlots(devices, hideUnconnected, build, st.slots, s);
      forall n | 0 <= n < |g.nodes|
        ensures g.nodes[n].id == n
        ensures exists j :: 0 <= j < |devices| && g.nodes[n] == NodeFor(devices[j], n, opts.enabledDeviceImages)
      {
        var j :| 0 <= j < |devices| && devices[j].id == s.owners[n] && s.nodes[n] == Some(build(devices[j], n));
        assert g.nodes[n] == NodeFor(devices[j], n, opts.enabledDeviceImages);
      }
    }
  }

  /** Every edge of `g` is numbered by its position and joins two existing
      nodes: the nodes of the requested devices at its two ends `via[k]`. */
  ghost predicate EdgesJoinNodes(g: Topology, via: seq<Ends>, devices: seq<Device>, images: set<string>)
    requires g.Graph?
  {
    && |via| == |g.edges|
    && forall k :: 0 <= k < |g.edges| ==>
         && g.edges[k].id == k && g.edges[k].from < |g.nodes| && g.edges[k].to < |g.nodes|
         && via[k].a.owner.OnDevice? && via[k].b.owner.OnDevice?
         && NodeOfDevice(g.nodes[g.edges[k].from], devices, via[k].a.owner.device.id, g.edges[k].from, images)
         && NodeOfDevice(g.nodes[g.edges[k].to], devices, via[k].b.owner.device.id, g.edges[k].to, images)
  }

  /** A slot the cable loop reserved for device `id` holds, once the device
      loop has filled the slots, the node of that device. */
  lemma ReservedSlotNode(devices: seq<Device>, images: set<string>, t: SlotTable, s: SlotTable, slot: nat, id: DeviceId)
    requires slot < |t.owners| && t.owners[slot] == id
    requires |t.owners| <= |s.owners| && forall n :: 0 <= n < |t.owners| ==> s.owners[n] == t.owners[n]
    requires |s.owners| == |s.nodes| && forall n :: 0 <= n < |s.nodes| ==> s.nodes[n].Some?
    requires forall n :: 0 <= n < |s.nodes| ==>
               s.nodes[n].Some? && exists j :: 0 <= j < |devices| && devices[j].id == s.owners[n] && s.nodes[n] == Some(Builder(images)(devices[j], n))
    ensures slot < |s.nodes| && NodeOfDevice(Unwrap(s.nodes)[slot], devices, id, slot, images)
  {
    NodeInSlot(devices, images, s, slot);
  }

  /** An edge between the slots the cable loop reserved for the devices at
      its ends `e` joins, once the device loop has filled the slots, the
      nodes of those devices. */
  lemma EdgeJoinsItsNodes(devices: seq<Device>, images: set<string>, t: SlotTable, s: SlotTable, edge: Edge, e: Ends)
    requires e.a.owner.OnDevice? && e.b.owner.OnDevice?
    requires edge.from < |t.owners| && t.owners[edge.from] == e.a.owner.device.id
    requires edge.to < |t.owners| && t.owners[edge.to] == e.b.owner.device.id
    requires |t.owners| <= |s.owners| && forall n :: 0 <= n < |t.owners| ==> s.owners[n] == t.owners[n]
    requires |s.owners| == |s.nodes| && forall n :: 0 <= n < |s.nodes| ==> s.nodes[n].Some?
    requires forall n :: 0 <= n < |s.nodes| ==>
               s.nodes[n].Some? && exists j :: 0 <= j < |devices| && devices[j].id == s.owners[n] && s.nodes[n] == Some(Builder(images)(devices[j], n))
    ensures edge.from < |s.nodes| && edge.to < |s.nodes|
    ensures NodeOfDevice(Unwrap(s.nodes)[edge.from], devices, e.a.owner.device.id, edge.from, images)
    ensures NodeOfDevice(Unwrap(s.nodes)[edge.to], devices, e.b.owner.device.id, edge.to, images)
  {
    ReservedSlotNode(devices, images, t, s, edge.from, e.a.owner.device.id);
    ReservedSlotNode(devices, images, t, s, edge.to, e.b.owner.device.id);
  }

  lemma EdgesJoinTheirDevices(devices: seq<Device>, hideUnconnected: bool, opts: Options, cables: seq<Cable>, store: Store)
    ensures var run := RunOf(devices, hideUnconnected, opts, cables, store);
            var g := TopologyOf(devices, hideUnconnected, opts, cables, store);
            run.Finished? ==> g.Graph? && EdgesJoinNodes(g, run.edgePass.via, devices, opts.enabledDeviceImages)
  {
    if RunOf(devices, hideUnconnected, opts, cables, store).Finished? {
      var q, st, s := FinishedRun(devices, hideUnconnected, opts, cables, store);
      var build := Builder(opts.enabledDeviceImages);
      FilledSlots(devices, hideUnconnected, build, st.slots, s);
      var g := TopologyOf(devices, hideUnconnected, opts, cables, store);
      forall k | 0 <= k < |g.edges|
        ensures g.edges[k].id == k && g.edges[k].from < |g.nodes| && g.edges[k].to < |g.nodes|
        ensures st.via[k].a.owner.OnDevice? && st.via[k].b.owner.OnDevice?
        ensures NodeOfDevice(g.nodes[g.edges[k].from], devices, st.via[k].a.owner.device.id, g.edges[k].from, opts.enabledDeviceImages)
        ensures NodeOfDevice(g.nodes[g.edges[k].to], devices, st.via[k].b.owner.device.id, g.edges[k].to, opts.enabledDeviceImages)
      {
        assert EdgeFrom(st, k, q, cables);
        EdgeJoinsItsNodes(devices, opts.enabledDeviceImages, st.slots, s, st.edges[k], st.via[k]);
      }
    }
  }

  /** A cable between two requested devices with no circuit termination is
      always drawn, as an edge of its own. */
  lemma DirectCablesBecomeEdges(devices: seq<Device>, hideUnconnected: bool, opts: Options, cables: seq<Cable>,
                                store: Store, c: Cable)
    requires c in cables && Selected(c, QueryFor(devices, opts, store)) && !HasCircuitEnd(c)
    requires EndOnRequested(c.a, DeviceIds(devices)) && EndOnRequested(c.b, DeviceIds(devices))
    ensures var run := RunOf(devices, hideUnconnected, opts, cables, store);
            var g := TopologyOf(devices, hideUnconnected, opts, cables, store);
            run.Finished? ==>
              exists k :: 0 <= k < |g.edges| && k < |run.edgePass.via| && run.edgePass.via[k] == Ends(c, c.a, c, c.b, c, None)
                          && g.edges[k] == MakeEdge(k, g.edges[k].from, g.edges[k].to, Ends(c, c.a, c, c.b, c, None),
                                                    opts.enableCircuitTerminations)
  {
    if RunOf(devices, hideUnconnected, opts, cables, store).Finished? {
      var q, st, s := FinishedRun(devices, hideUnconnected, opts, cables, store);
      var cs := SelectCables(cables, q);
      NoEdgesInv(q, cables);
      DirectCableDrawn(cs, q, cables, NoEdges, c);
      var k :| 0 <= k < |st.via| && st.via[k] == Ends(c, c.a, c, c.b, c, None);
      assert EdgeFrom(st, k, q, cables);
    }
  }

  /** With circuits enabled, a selected cable through a circuit is drawn
      when every selected cable through that circuit leads to two requested
      devices: some edge goes through the circuit, is dashed, and is titled
      "Circuit: " and the circuit. */
  lemma CircuitCablesBecomeEdges(devices: seq<Device>, hideUnconnected: bool, opts: Options, cables: seq<Cable>,
                                 store: Store, c: Cable, id: CircuitId)
    requires opts.enableCircuitTerminations
    requires c in cables && Selected(c, QueryFor(devices, opts, store)) && ThroughCircuit(c, id)
    requires forall x :: x in cables && Selected(x, QueryFor(devices, opts, store)) && ThroughCircuit(x, id) ==>
               ResolvesInScope(x, QueryFor(devices, opts, store))
    ensures var run := RunOf(devices, hideUnconnected, opts, cables, store);
            var g := TopologyOf(devices, hideUnconnected, opts, cables, store);
            run.Finished? ==>
              exists k :: 0 <= k < |g.edges| && k < |run.edgePass.via|
                          && run.edgePass.via[k].circuit.Some? && run.edgePass.via[k].circuit.value.id == id
                          && g.edges[k].dashes
                          && EdgeTitle(run.edgePass.via[k]) == "Circuit: " + run.edgePass.via[k].circuit.value.text
  {
    if RunOf(devices, hideUnconnected, opts, cables, store).Finished? {
      var q, st, s := FinishedRun(devices, hideUnconnected, opts, cables, store);
      var cs := SelectCables(cables, q);
      NoEdgesInv(q, cables);
      CircuitDrawn(cs, q, cables, NoEdges, c, id);
      var k :| 0 <= k < |st.via| && st.via[k].circuit.Some? && st.via[k].circuit.value.id == id;
      assert EdgeFrom(st, k, q, cables);
    }
  }

  /** A circuit is drawn at most once: an edge is dashed exactly when it
      passes through a circuit, and no two dashed edges pass through the same
      circuit. */
  lemma CircuitsDrawnOnce(devices: seq<Device>, hideUnconnected: bool, opts: Options, cables: seq<Cable>, store: Store)
    ensures var run := RunOf(devices, hideUnconnected, opts, cables, store);
            var g := TopologyOf(devices, hideUnconnected, opts, cables, store);
            run.Finished? ==>
              && g.Graph? && |run.edgePass.via| == |g.edges|
              && (forall k :: 0 <= k < |g.edges| ==> (g.edges[k].dashes <==> run.edgePass.via[k].circuit.Some?))
              && (forall j, k :: 0 <= j < k < |g.edges| && g.edges[j].dashes && g.edges[k].dashes ==>
                    run.edgePass.via[j].circuit.value.id != run.edgePass.via[k].circuit.value.id)
  {
    if RunOf(devices, hideUnconnected, opts, cables, store).Finished? {
      var q, st, s := FinishedRun(devices, hideUnconnected, opts, cables, store);
      forall k | 0 <= k < |st.edges|
        ensures st.edges[k].dashes <==> st.via[k].circuit.Some?
      {
        assert EdgeFrom(st, k, q, cables);
      }
    }
  }

  /** What each edge carries: the cable's colour with a leading "#", or no
      colour when the cable has none; dashes exactly for a circuit; and, as a
      whole, the edge dictionary built from its own ends (its tooltip from
      their title and rows). */
  lemma EdgePayloads(devices: seq<Device>, hideUnconnected: bool, opts: Options, cables: seq<Cable>, store: Store)
    ensures var run := RunOf(devices, hideUnconnected, opts, cables, store);
            var g := TopologyOf(devices, hideUnconnected, opts, cables, store);
            run.Finished? ==>
              && g.Graph? && |run.edgePass.via| == |g.edges|
              && forall k :: 0 <= k < |g.edges| ==>
                   var e := run.edgePass.via[k];
                   && g.edges[k].color == (if e.cable.color != "" then Some("#" + e.cable.color) else None)
                   && g.edges[k].dashes == e.circuit.Some?
                   && e.a.owner.OnDevice? && e.b.owner.OnDevice?
                   && g.edges[k] == MakeEdge(k, g.edges[k].from, g.edges[k].to, e, opts.enableCircuitTerminations)
  {
    if RunOf(devices, hideUnconnected, opts, cables, store).Finished? {
      var q, st, s := FinishedRun(devices, hideUnconnected, opts, cables, store);
      forall k | 0 <= k < |st.edges|
        ensures st.edges[k].color == (if st.via[k].cable.color != "" then Some("#" + st.via[k].cable.color) else None)
        ensures st.edges[k].dashes == st.via[k].circuit.Some?
        ensures st.via[k].a.owner.OnDevice? && st.via[k].b.owner.OnDevice?
        ensures st.edges[k] == MakeEdge(k, st.edges[k].from, st.edges[k].to, st.via[k], opts.enableCircuitTerminations)
      {
        assert EdgeFrom(st, k, q, cables);
      }
    }
  }

  /** With `hide_unconnected`, every node is an end of some edge. */
  lemma HiddenLeavesOnlyConnected(devices: seq<Device>, opts: Options, cables: seq<Cable>, store: Store)
    ensures var g := TopologyOf(devices, true, opts, cables, store);
            g.Graph? ==> forall n :: 0 <= n < |g.nodes| ==> Touches(g.edges, n)
  {
    var g := TopologyOf(devices, true, opts, cables, store);
    if g.Graph? {
      var q, st, s := FinishedRun(devices, true, opts, cables, store);
      FilledSlots(devices, true, Builder(opts.enabledDeviceImages), st.slots, s);
      forall n | 0 <= n < |g.nodes|
        ensures Touches(g.edges, n)
      {
        assert IsEndpoint(st, n);
      }
    }
  }

  /** Some node of `nodes` is the node of device `d`, in its own slot. */
  ghost predicate Shows(nodes: seq<Node>, d: Device, images: set<string>) {
    exists n :: 0 <= n < |nodes| && nodes[n] == NodeFor(d, n, images)
  }

  /** A device whose slot holds its node is shown in the payload. */
  lemma SlotShows(d: Device, images: set<string>, s: SlotTable)
    requires forall k :: 0 <= k < |s.nodes| ==> s.nodes[k].Some?
    requires d.id in s.ids && s.ids[d.id] < |s.nodes| && s.nodes[s.ids[d.id]] == Some(Builder(images)(d, s.ids[d.id]))
    ensures Shows(Unwrap(s.nodes), d, images)
  {
    var n := s.ids[d.id];
    assert Unwrap(s.nodes)[n] == NodeFor(d, n, images);
  }

  /** Without `hide_unconnected`, every requested device has its node (the
      requested devices being distinct records). */
  lemma EveryDeviceShown(devices: seq<Device>, opts: Options, cables: seq<Cable>, store: Store)
    requires DistinctIds(devices)
    ensures var g := TopologyOf(devices, false, opts, cables, store);
            g.Graph? ==> forall j :: 0 <= j < |devices| ==> Shows(g.nodes, devices[j], opts.enabledDeviceImages)
  {
    if TopologyOf(devices, false, opts, cables, store).Graph? {
      var q, st, s := FinishedRun(devices, false, opts, cables, store);
      var build := Builder(opts.enabledDeviceImages);
      NodePassSlots(devices, false, build, st.slots);
      NodePassPlacesEach(devices, false, build, st.slots);
      forall j | 0 <= j < |devices|
        ensures Shows(Unwrap(s.nodes), devices[j], opts.enabledDeviceImages)
      {
        SlotShows(devices[j], opts.enabledDeviceImages, s);
      }
    }
  }

  /** The build fails only on a selected cable whose A end has no device or
      whose B end is left on no device. */
  lemma FaultNamesCable(devices: seq<Device>, hideUnconnected: bool, opts: Options, cables: seq<Cable>, store: Store)
    ensures var t := TopologyOf(devices, hideUnconnected, opts, cables, store);
            t.AttributeFault? ==>
              exists c :: c in cables && Selected(c, QueryFor(devices, opts, store)) && c.id == t.cable
                          && (c.a.owner.Unbound? || !c.b.owner.OnDevice?)
  {
    if devices != [] {
      var q := QueryFor(devices, opts, store);
      RaisedOnDevicelessEnd(SelectCables(cables, q), q, NoEdges);
    }
  }

  /** Without circuits, the build fails exactly when a selected cable has an
      end that belongs to no device. */
  lemma FaultIffUnboundEnd(devices: seq<Device>, hideUnconnected: bool, opts: Options, cables: seq<Cable>, store: Store)
    requires devices != [] && !opts.enableCircuitTerminations
    ensures TopologyOf(devices, hideUnconnected, opts, cables, store).AttributeFault? <==>
              exists c :: c in cables && Selected(c, QueryFor(devices, opts, store)) && HasUnboundEnd(c)
  {
    var q := QueryFor(devices, opts, store);
    var cs := SelectCables(cables, q);
    RaisesIffUnbound(cs, q, NoEdges);
    assert (exists c :: c in cs && HasUnboundEnd(c)) <==> (exists c :: c in cables && Selected(c, q) && HasUnboundEnd(c));
  }
}
