/** The reference semantics of `get_topology_data`: the cable query, the
    classification of each cable (direct or through a circuit), the edge
    pass, the node pass and the payload, as functions of the inputs.

    The imperative model in module Views is proved to compute exactly
    `TopologyOf`; the properties of the payload are lemmas about these
    functions (module TopologyProps). */
module TopologyModel {
  import opened Records
  import opened Html
  import opened Description
  import opened Slots

  // ---------------------------------------------------------------------
  // Options

  /** The plugin settings consulted for an option the caller leaves unset. */
  datatype PluginConfig = PluginConfig(ignoreCableType: seq<string>, enableCircuitTerminations: bool,
                                       deviceImg: set<string>)

  datatype Options = Options(ignoreCableTypes: seq<string>, enableCircuitTerminations: bool,
                             enabledDeviceImages: set<string>)

  /** An option passed by the caller is used as given; only an unset (None)
      option falls back to the plugin setting. */
  function ResolveOptions(ignore: Option<seq<string>>, enable: Option<bool>, images: Option<set<string>>,
                          cfg: PluginConfig): (o: Options)
    ensures ignore.Some? ==> o.ignoreCableTypes == ignore.value
    ensures ignore.None? ==> o.ignoreCableTypes == cfg.ignoreCableType
    ensures enable.Some? ==> o.enableCircuitTerminations == enable.value
    ensures enable.None? ==> o.enableCircuitTerminations == cfg.enableCircuitTerminations
    ensures images.Some? ==> o.enabledDeviceImages == images.value
    ensures images.None? ==> o.enabledDeviceImages == cfg.deviceImg
  {
    Options(if ignore.Some? then ignore.value else cfg.ignoreCableType,
            if enable.Some? then enable.value else cfg.enableCircuitTerminations,
            if images.Some? then images.value else cfg.deviceImg)
  }

  // ---------------------------------------------------------------------
  // The cable query

  /** `frozenset(d.id for d in queryset)`. */
  function DeviceIds(devices: seq<Device>): (ids: set<DeviceId>)
    ensures forall j :: 0 <= j < |devices| ==> devices[j].id in ids
    ensures forall id :: id in ids ==> exists j :: 0 <= j < |devices| && devices[j].id == id
  {
    if devices == [] then {}
    else
      var rest := DeviceIds(devices[1..]);
      assert forall id :: id in rest ==> exists j :: 0 <= j < |devices| && devices[j].id == id by {
        forall id | id in rest ensures exists j :: 0 <= j < |devices| && devices[j].id == id {
          var j :| 0 <= j < |devices[1..]| && devices[1..][j].id == id;
          assert devices[j + 1].id == id;
        }
      }
      {devices[0].id} + rest
  }

  /** Everything one build needs to classify a cable. */
  datatype Query = Query(deviceIds: set<DeviceId>, enableCircuits: bool, ignore: seq<string>, store: Store)

  function QueryFor(devices: seq<Device>, opts: Options, store: Store): Query {
    Query(DeviceIds(devices), opts.enableCircuitTerminations, opts.ignoreCableTypes, store)
  }

  /** `_termination_x_device_id__in=device_ids`: the device id a cable caches
      for an end is set only when that end belongs to a device. */
  predicate EndOnRequested(t: Termination, ids: set<DeviceId>) {
    t.owner.OnDevice? && t.owner.device.id in ids
  }

  predicate HasCircuitEnd(c: Cable) {
    c.a.owner.OnCircuit? || c.b.owner.OnCircuit?
  }

  predicate IgnoredType(c: Cable, ignore: seq<string>) {
    c.a.typeName in ignore || c.b.typeName in ignore
  }

  /** The filter of the cable query: some end on a requested device; no
      circuit-termination end unless circuits are enabled; no end whose type
      name is ignored, when the ignore list is not empty. */
  predicate Selected(c: Cable, q: Query) {
    && (EndOnRequested(c.a, q.deviceIds) || EndOnRequested(c.b, q.deviceIds))
    && (q.enableCircuits || !HasCircuitEnd(c))
    && (|q.ignore| == 0 || !IgnoredType(c, q.ignore))
  }

  /** `Cable.objects.filter(*cables_query)` over the cables of the store, in
      their order. */
  function SelectCables(cables: seq<Cable>, q: Query): (r: seq<Cable>)
    ensures forall c :: c in r <==> c in cables && Selected(c, q)
    ensures forall c :: c in r ==> !IgnoredType(c, q.ignore)
    ensures |r| <= |cables|
  {
    if cables == [] then []
    else (if Selected(cables[0], q) then [cables[0]] else []) + SelectCables(cables[1..], q)
  }

  // ---------------------------------------------------------------------
  // Classifying one cable

  /** The end of `c` that is not `near` (the B end when `near` is the A end,
      the A end otherwise). */
  function FarEnd(c: Cable, near: Termination): (r: Termination)
    ensures r == c.a || r == c.b
  {
    if c.a.key == near.key then c.b else c.a
  }

  /** `_get_device_bound_peer_termination`: from a circuit termination, go to
      the other end of its circuit, then along that end's cable to the far
      termination, which must belong to a device. Also returns that cable,
      the far termination's own cable. */
  function DeviceBoundPeer(source: Termination, store: Store): (r: Option<(Termination, Cable)>)
    ensures source.key !in store.peers ==> r.None?
    ensures source.key in store.peers && store.peers[source.key].key !in store.cableOf ==> r.None?
    ensures r.Some? <==> source.key in store.peers && store.peers[source.key].key in store.cableOf
                         && FarEnd(store.cableOf[store.peers[source.key].key], store.peers[source.key]).owner.OnDevice?
    ensures r.Some? ==> r.value.1 == store.cableOf[store.peers[source.key].key]
                        && r.value.0 == FarEnd(r.value.1, store.peers[source.key])
                        && r.value.0.owner.OnDevice?
  {
    if source.key !in store.peers then None
    else
      var peer := store.peers[source.key];
      if peer.key !in store.cableOf then None
      else
        var peerCable := store.cableOf[peer.key];
        var far := FarEnd(peerCable, peer);
        if !far.owner.OnDevice? then None else Some((far, peerCable))
  }

  /** The two ends an edge is drawn between, with the cable each end hangs
      on, and the circuit the edge passes through, if any. */
  datatype Ends = Ends(cable: Cable, a: Termination, aCable: Cable, b: Termination, bCable: Cable,
                       circuit: Option<CircuitRef>)

  datatype Resolution = Skip | Resolved(ends: Ends)

  /** Lines 119-191 up to the scope check: with circuits enabled, a circuit
      termination on the A side (else on the B side) is replaced by the
      device-bound far end of its circuit, unless its circuit was processed
      already or the far end cannot be reached; every other cable keeps its
      own two ends. */
  function ResolveEnds(c: Cable, enable: bool, processed: set<CircuitId>, store: Store): (r: Resolution)
    ensures r.Resolved? ==> r.ends.cable == c
    ensures r.Resolved? && r.ends.circuit.Some? ==> enable && r.ends.circuit.value.id !in processed
  {
    if !enable then Resolved(Ends(c, c.a, c, c.b, c, None))
    else if c.a.owner.OnCircuit? then
      var circuit := c.a.owner.circuit;
      if circuit.id in processed then Skip
      else
        (match DeviceBoundPeer(c.a, store)
         case None => Skip
         case Some(peer) => Resolved(Ends(c, peer.0, peer.1, c.b, c, Some(circuit))))
    else if c.b.owner.OnCircuit? then
      var circuit := c.b.owner.circuit;
      if circuit.id in processed then Skip
      else
        (match DeviceBoundPeer(c.b, store)
         case None => Skip
         case Some(peer) => Resolved(Ends(c, c.a, c, peer.0, peer.1, Some(circuit))))
    else Resolved(Ends(c, c.a, c, c.b, c, None))
  }

  /** With circuits enabled and a circuit termination at the A end: the
      cable is skipped exactly when that circuit is processed or the device
      end beyond it cannot be reached; otherwise the A end is replaced by
      that device end, with its cable, and the B end is kept. */
  lemma ResolveCircuitA(c: Cable, processed: set<CircuitId>, store: Store)
    requires c.a.owner.OnCircuit?
    ensures ResolveEnds(c, true, processed, store).Skip? <==>
              c.a.owner.circuit.id in processed || DeviceBoundPeer(c.a, store).None?
    ensures ResolveEnds(c, true, processed, store).Resolved? ==>
              var peer := DeviceBoundPeer(c.a, store).value;
              ResolveEnds(c, true, processed, store).ends == Ends(c, peer.0, peer.1, c.b, c, Some(c.a.owner.circuit))
  {
  }

  /** With circuits enabled, a circuit termination at the B end is only
      looked at when the A end is not one: the cable is skipped exactly when
      that circuit is processed or the device end beyond it cannot be
      reached; otherwise the B end is replaced by that device end, with its
      cable, and the A end is kept. */
  lemma ResolveCircuitB(c: Cable, processed: set<CircuitId>, store: Store)
    requires !c.a.owner.OnCircuit? && c.b.owner.OnCircuit?
    ensures ResolveEnds(c, true, processed, store).Skip? <==>
              c.b.owner.circuit.id in processed || DeviceBoundPeer(c.b, store).None?
    ensures ResolveEnds(c, true, processed, store).Resolved? ==>
              var peer := DeviceBoundPeer(c.b, store).value;
              ResolveEnds(c, true, processed, store).ends == Ends(c, c.a, c, peer.0, peer.1, Some(c.b.owner.circuit))
  {
  }

  /** Without circuits every cable keeps its own two ends. */
  lemma ResolveWithoutCircuits(c: Cable, processed: set<CircuitId>, store: Store)
    ensures ResolveEnds(c, false, processed, store) == Resolved(Ends(c, c.a, c, c.b, c, None))
  {
  }

  // ---------------------------------------------------------------------
  // Building one edge

  /** `f"{t.device} [{t}]"`. */
  function EndText(t: Termination): string
    requires t.owner.OnDevice?
  {
    t.owner.device.text + " [" + t.text + "]"
  }

  /** The rows a circuit-mediated edge adds to its tooltip. */
  function CircuitData(fromCable: Cable, toCable: Cable, circuit: CircuitRef): seq<Entry> {
    [Entry("Cable (From)", fromCable.text)]
    + (if fromCable.cableType != "" then [Entry("Type (From)", fromCable.cableType)] else [])
    + [Entry("Cable (To)", toCable.text)]
    + (if toCable.cableType != "" then [Entry("Type (To)", toCable.cableType)] else [])
    + [Entry("Circuit", circuit.text), Entry("Provider", circuit.provider)]
  }

  /** `cable_data`: the circuit rows for a circuit-mediated edge; the cable
      type row only when circuits are disabled; nothing for a direct cable
      while circuits are enabled. */
  function CableData(e: Ends, enable: bool): seq<Entry> {
    if !enable then (if e.cable.cableType != "" then [Entry("Type", e.cable.cableType)] else [])
    else if e.circuit.Some? then CircuitData(e.aCable, e.bCable, e.circuit.value)
    else []
  }

  function EdgeTitle(e: Ends): string {
    if e.circuit.Some? then "Circuit: " + e.circuit.value.text else "Cable: " + e.cable.text
  }

  /** The keys the cable data may use; "To" and "From" are not among them, so
      prepending those two keeps every key once and in order. */
  predicate CableDataKey(key: string) {
    key in ["Type", "Cable (From)", "Type (From)", "Cable (To)", "Type (To)", "Circuit", "Provider"]
  }

  /** The edge tooltip rows: "To", then "From", then the cable data. */
  function EdgeEntries(e: Ends, enable: bool): (r: seq<Entry>)
    requires e.a.owner.OnDevice? && e.b.owner.OnDevice?
    ensures |r| >= 2 && r[0] == Entry("To", EndText(e.b)) && r[1] == Entry("From", EndText(e.a))
    ensures forall k :: 2 <= k < |r| ==> CableDataKey(r[k].key)
  {
    [Entry("To", EndText(e.b)), Entry("From", EndText(e.a))] + CableData(e, enable)
  }

  function MakeEdge(id: nat, from: nat, to: nat, e: Ends, enable: bool): Edge
    requires e.a.owner.OnDevice? && e.b.owner.OnDevice?
  {
    Edge(id, from, to, Describe(EdgeTitle(e), EdgeEntries(e, enable)),
         if e.cable.color != "" then Some("#" + e.cable.color) else None,
         e.circuit.Some?)
  }

  // ---------------------------------------------------------------------
  // The edge pass

  /** The variables of the cable loop; `via` records, per edge, the ends it
      was built from (bookkeeping of the model). */
  datatype EdgeState = EdgeState(slots: SlotTable, edges: seq<Edge>, processed: set<CircuitId>, via: seq<Ends>)

  const NoEdges := EdgeState(NoSlots, [], {}, [])

  /** One iteration of the cable loop: go on with a new state, or raise the
      AttributeError of `t.device` on an end without a device. */
  datatype Step = Next(st: EdgeState) | Raise(cable: CableId)

  function EdgeStep(c: Cable, q: Query, st: EdgeState): Step {
    if IgnoredType(c, q.ignore) then Next(st)
    else
      match ResolveEnds(c, q.enableCircuits, st.processed, q.store)
      case Skip => Next(st)
      case Resolved(e) =>
        // the circuit is marked processed before the scope check
        var st1 := if e.circuit.Some? then st.(processed := st.processed + {e.circuit.value.id}) else st;
        if !e.a.owner.OnDevice? then Raise(c.id)
        else if e.a.owner.device.id !in q.deviceIds then Next(st1)
        else if !e.b.owner.OnDevice? then Raise(c.id)
        else if e.b.owner.device.id !in q.deviceIds then Next(st1)
        else
          var pa := Reserve(st1.slots, e.a.owner.device.id);
          var pb := Reserve(pa.1, e.b.owner.device.id);
          var edge := MakeEdge(|st1.edges|, pa.0, pb.0, e, q.enableCircuits);
          Next(EdgeState(pb.1, st1.edges + [edge], st1.processed, st1.via + [e]))
  }

  datatype EdgeOutcome = Done(st: EdgeState) | Raised(cable: CableId)

  /** The cable loop over `cs`, from state `st`. */
  function EdgePass(cs: seq<Cable>, q: Query, st: EdgeState): EdgeOutcome
    decreases |cs|
  {
    if cs == [] then Done(st)
    else
      match EdgeStep(cs[0], q, st)
      case Raise(id) => Raised(id)
      case Next(st') => EdgePass(cs[1..], q, st')
  }

  // ---------------------------------------------------------------------
  // The node pass

  const ImageDir := "../../static/netbox_topology_views/img/"

  function ImageSlug(role: Role, images: set<string>): string {
    if role.slug in images then role.slug else "role-unknown"
  }

  /** The "name" key as written: a device without a name gets
      `escape(None)`, the text "None", and a named device gets
      "untitled-<identifier>". */
  function NodeName(d: Device): string {
    Escape(if d.name.None? then "None" else "untitled-" + d.identifier)
  }

  /** Position of a device tooltip key in the order the rows are added. */
  function DeviceKeyRank(key: string): nat {
    if key == "Status" then 0
    else if key == "Type" then 1
    else if key == "Role" then 2
    else if key == "Serial" then 3
    else if key == "Primary IP" then 4
    else 5
  }

  /** A row that is present only when its field is set. */
  function OptionalRow(present: bool, key: string, value: string): (r: seq<Entry>)
    ensures |r| <= 1 && (present <==> |r| == 1)
    ensures forall k :: 0 <= k < |r| ==> r[k] == Entry(key, value)
  {
    if present then [Entry(key, value)] else []
  }

  /** `device_data`: "Status" first, then each optional row whose field is
      set, in the order Type, Role, Serial, Primary IP. */
  function DeviceEntries(d: Device): (r: seq<Entry>)
    ensures 1 <= |r| <= 5 && r[0] == Entry("Status", d.status)
  {
    [Entry("Status", d.status)]
    + OptionalRow(d.deviceType.Some?, "Type", if d.deviceType.Some? then d.deviceType.value else "")
    + OptionalRow(d.role.name != "", "Role", d.role.name)
    + OptionalRow(d.serial != "", "Serial", d.serial)
    + OptionalRow(d.primaryIp.Some?, "Primary IP", if d.primaryIp.Some? then d.primaryIp.value else "")
  }

  /** The node dictionary of a device placed in `slot`. */
  function NodeFor(d: Device, slot: nat, images: set<string>): Node {
    Node(slot, NodeName(d), Escape(d.text), "image", ImageDir + ImageSlug(d.role, images) + ".png",
         Describe(d.text, DeviceEntries(d)),
         if d.role.color != "" then Some("#" + d.role.color) else None)
  }

  /** The node builder of one build: `NodeFor` with the enabled images. */
  function Builder(images: set<string>): (Device, nat) -> Node {
    (d: Device, slot: nat) => NodeFor(d, slot, images)
  }

  /** One iteration of the device loop; `build` makes the node of a device
      for a given slot. */
  function NodeStep(d: Device, hideUnconnected: bool, build: (Device, nat) -> Node, s: SlotTable): (r: SlotTable)
    requires Dense(s)
    ensures Dense(r) && |s.nodes| <= |r.nodes|
  {
    if d.id in s.ids then Fill(s, s.ids[d.id], build(d, s.ids[d.id]))
    else if hideUnconnected then s
    else
      var p := Reserve(s, d.id);
      ReserveKeepsDense(s, d.id);
      Fill(p.1, p.0, build(d, p.0))
  }

  /** The device loop over `ds`, from slot state `s`. */
  function NodePass(ds: seq<Device>, hideUnconnected: bool, build: (Device, nat) -> Node, s: SlotTable): (r: SlotTable)
    requires Dense(s)
    ensures Dense(r) && |s.nodes| <= |r.nodes|
    decreases |ds|
  {
    if ds == [] then s else NodePass(ds[1..], hideUnconnected, build, NodeStep(ds[0], hideUnconnected, build, s))
  }

  // ---------------------------------------------------------------------
  // The whole build

  datatype Run = NoRun | Failed(cable: CableId) | Finished(edgePass: EdgeState, slots: SlotTable)

  /** Every state of the build: no run for an empty request, the raised
      error, or the state after the edge pass and the slots after the node
      pass. */
  function RunOf(devices: seq<Device>, hideUnconnected: bool, opts: Options, cables: seq<Cable>, store: Store): Run {
    if devices == [] then NoRun
    else
      var q := QueryFor(devices, opts, store);
      var cs := SelectCables(cables, q);
      match EdgePass(cs, q, NoEdges)
      case Raised(id) => Failed(id)
      case Done(st) =>
        EdgePassKeepsSlots(cs, q, NoEdges);
        Finished(st, NodePass(devices, hideUnconnected, Builder(opts.enabledDeviceImages), st.slots))
  }

  /** A list of filled slots, placeholders gone. */
  function Unwrap(nodes: seq<Option<Node>>): (r: seq<Node>)
    requires forall k :: 0 <= k < |nodes| ==> nodes[k].Some?
    ensures |r| == |nodes| && forall k :: 0 <= k < |nodes| ==> nodes[k] == Some(r[k])
  {
    seq(|nodes|, k requires 0 <= k < |nodes| => nodes[k].value)
  }

  /** `get_topology_data`. */
  function TopologyOf(devices: seq<Device>, hideUnconnected: bool, opts: Options, cables: seq<Cable>, store: Store): (r: Topology)
    ensures r.NoQuery? <==> devices == []
  {
    match RunOf(devices, hideUnconnected, opts, cables, store)
    case NoRun => NoQuery
    case Failed(id) => AttributeFault(id)
    case Finished(st, s) =>
      RunFillsEverySlot(devices, hideUnconnected, opts, cables, store);
      Graph(Unwrap(s.nodes), st.edges)
  }

  // ---------------------------------------------------------------------
  // What the definitions above rely on

  /** Slot state of the edge pass: dense, and every slot owned by a
      requested device. */
  ghost predicate SlotsInScope(s: SlotTable, ids: set<DeviceId>) {
    Dense(s) && forall k :: 0 <= k < |s.owners| ==> s.owners[k] in ids
  }

  /** Reserving a slot for a requested device keeps the slots in scope. */
  lemma ReserveKeepsScope(s: SlotTable, d: DeviceId, ids: set<DeviceId>)
    requires SlotsInScope(s, ids) && d in ids
    ensures SlotsInScope(Reserve(s, d).1, ids)
  {
    ReserveKeepsDense(s, d);
  }

  lemma EdgeStepKeepsSlots(c: Cable, q: Query, st: EdgeState)
    requires SlotsInScope(st.slots, q.deviceIds)
    ensures EdgeStep(c, q, st).Next? ==> SlotsInScope(EdgeStep(c, q, st).st.slots, q.deviceIds)
  {
    if !IgnoredType(c, q.ignore) && ResolveEnds(c, q.enableCircuits, st.processed, q.store).Resolved? {
      var e := ResolveEnds(c, q.enableCircuits, st.processed, q.store).ends;
      if EndOnRequested(e.a, q.deviceIds) && EndOnRequested(e.b, q.deviceIds) {
        var pa := Reserve(st.slots, e.a.owner.device.id);
        ReserveKeepsScope(st.slots, e.a.owner.device.id, q.deviceIds);
        ReserveKeepsScope(pa.1, e.b.owner.device.id, q.deviceIds);
      }
    }
  }

  lemma {:induction false} EdgePassKeepsSlots(cs: seq<Cable>, q: Query, st: EdgeState)
    requires SlotsInScope(st.slots, q.deviceIds)
    ensures EdgePass(cs, q, st).Done? ==> SlotsInScope(EdgePass(cs, q, st).st.slots, q.deviceIds)
    decreases |cs|
  {
    if cs != [] {
      EdgeStepKeepsSlots(cs[0], q, st);
      if EdgeStep(cs[0], q, st).Next? {
        EdgePassKeepsSlots(cs[1..], q, EdgeStep(cs[0], q, st).st);
      }
    }
  }

  /** Placeholders of the node pass: every empty slot belongs to a device
      still to be visited. */
  ghost predicate PendingOwners(s: SlotTable, ds: seq<Device>) {
    && |s.owners| == |s.nodes|
    && forall k :: 0 <= k < |s.nodes| && s.nodes[k].None? ==> s.owners[k] in DeviceIds(ds)
  }

  lemma NodeStepFills(d: Device, rest: seq<Device>, hideUnconnected: bool, build: (Device, nat) -> Node, s: SlotTable)
    requires Dense(s) && PendingOwners(s, [d] + rest)
    ensures PendingOwners(NodeStep(d, hideUnconnected, build, s), rest)
  {
    var ds := [d] + rest;
    assert ds[1..] == rest;
    var r := NodeStep(d, hideUnconnected, build, s);
    forall k | 0 <= k < |r.nodes| && r.nodes[k].None? ensures r.owners[k] in DeviceIds(rest) {
      if d.id in s.ids {
        assert k != s.ids[d.id];
      } else if !hideUnconnected {
        ReserveKeepsDense(s, d.id);
      }
      assert k < |s.nodes| && s.nodes[k].None? && r.owners[k] == s.owners[k];
      assert s.owners[k] != d.id;
    }
  }

  lemma {:induction false} NodePassFills(ds: seq<Device>, hideUnconnected: bool, build: (Device, nat) -> Node, s: SlotTable)
    requires Dense(s) && PendingOwners(s, ds)
    ensures forall k :: 0 <= k < |NodePass(ds, hideUnconnected, build, s).nodes| ==> NodePass(ds, hideUnconnected, build, s).nodes[k].Some?
    decreases |ds|
  {
    if ds == [] {
      assert DeviceIds(ds) == {};
    } else {
      assert ds == [ds[0]] + ds[1..];
      NodeStepFills(ds[0], ds[1..], hideUnconnected, build, s);
      NodePassFills(ds[1..], hideUnconnected, build, NodeStep(ds[0], hideUnconnected, build, s));
    }
  }

  /** No placeholder survives the node pass: every slot was reserved for a
      requested device, and the node pass visits every requested device. */
  lemma RunFillsEverySlot(devices: seq<Device>, hideUnconnected: bool, opts: Options, cables: seq<Cable>, store: Store)
    ensures RunOf(devices, hideUnconnected, opts, cables, store).Finished? ==>
              forall k :: 0 <= k < |RunOf(devices, hideUnconnected, opts, cables, store).slots.nodes| ==>
                RunOf(devices, hideUnconnected, opts, cables, store).slots.nodes[k].Some?
  {
    if devices != [] {
      var q := QueryFor(devices, opts, store);
      var cs := SelectCables(cables, q);
      EdgePassKeepsSlots(cs, q, NoEdges);
      if EdgePass(cs, q, NoEdges).Done? {
        var st := EdgePass(cs, q, NoEdges).st;
        NodePassFills(devices, hideUnconnected, Builder(opts.enabledDeviceImages), st.slots);
      }
    }
  }
}
