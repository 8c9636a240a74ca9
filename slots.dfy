/** Node slots: the `device_node_ids` dictionary and the growable `nodes`
    list of one topology build, and `_reserve_device_node`, which hands out
    the next slot to a device seen for the first time and leaves a
    placeholder (None) in `nodes` until the node pass fills it. */
module Slots {
  import opened Records

  /** The value of the slot state. `owners` is the inverse of `ids` (the
      device of each slot); it is bookkeeping of the model, not a variable of
      the view. */
  datatype SlotTable = SlotTable(ids: map<DeviceId, nat>, owners: seq<DeviceId>, nodes: seq<Option<Node>>)

  const NoSlots := SlotTable(map[], [], [])

  /** Slots are dense and assigned one per device: slot k belongs to exactly
      one device and every device's slot is below the length of `nodes`. */
  ghost predicate Dense(s: SlotTable) {
    && |s.owners| == |s.nodes|
    && (forall k :: 0 <= k < |s.owners| ==> s.owners[k] in s.ids && s.ids[s.owners[k]] == k)
    && (forall d :: d in s.ids ==> s.ids[d] < |s.owners| && s.owners[s.ids[d]] == d)
  }

  /** `_reserve_device_node`: a known device keeps its slot and nothing
      changes; an unknown device gets slot `len(nodes)`, the map gains exactly
      that entry and `nodes` grows by one placeholder. */
  function Reserve(s: SlotTable, d: DeviceId): (r: (nat, SlotTable))
    ensures r.1.ids.Keys == s.ids.Keys + {d} && d in r.1.ids && r.1.ids[d] == r.0
    ensures forall e :: e in s.ids ==> r.1.ids[e] == s.ids[e]
    ensures d in s.ids ==> r.1 == s
    ensures d !in s.ids ==> r.0 == |s.nodes| && r.1.nodes == s.nodes + [None]
                            && r.1.owners == s.owners + [d]
  {
    if d in s.ids then (s.ids[d], s)
    else (|s.nodes|, SlotTable(s.ids[d := |s.nodes|], s.owners + [d], s.nodes + [None]))
  }

  /** `nodes[k] = node`: overwrite the placeholder of slot k. */
  function Fill(s: SlotTable, k: nat, node: Node): (r: SlotTable)
    requires k < |s.nodes|
    ensures r.ids == s.ids && r.owners == s.owners && |r.nodes| == |s.nodes|
    ensures r.nodes[k] == Some(node)
    ensures forall j :: 0 <= j < |s.nodes| && j != k ==> r.nodes[j] == s.nodes[j]
  {
    SlotTable(s.ids, s.owners, s.nodes[k := Some(node)])
  }

  /** Reserving keeps the slots dense. */
  lemma ReserveKeepsDense(s: SlotTable, d: DeviceId)
    requires Dense(s)
    ensures Dense(Reserve(s, d).1)
    ensures Reserve(s, d).0 < |Reserve(s, d).1.nodes|
    ensures Reserve(s, d).1.owners[Reserve(s, d).0] == d
  {
    var r := Reserve(s, d);
    if d !in s.ids {
      forall k | 0 <= k < |r.1.owners|
        ensures r.1.owners[k] in r.1.ids && r.1.ids[r.1.owners[k]] == k
      {
        if k < |s.owners| {
          assert r.1.owners[k] == s.owners[k];
          assert s.owners[k] != d;
        }
      }
    }
  }

  /** Reserving twice is reserving once. */
  lemma ReserveIdempotent(s: SlotTable, d: DeviceId)
    ensures Reserve(Reserve(s, d).1, d) == Reserve(s, d)
  {
  }

  /** A dense table maps devices injectively into 0..|nodes|-1, and every
      slot in that range is the slot of its owner. */
  lemma DenseIsBijection(s: SlotTable)
    requires Dense(s)
    ensures forall d :: d in s.ids ==> s.ids[d] < |s.nodes|
    ensures forall k :: 0 <= k < |s.nodes| ==> s.owners[k] in s.ids && s.ids[s.owners[k]] == k
    ensures forall d, e :: d in s.ids && e in s.ids && s.ids[d] == s.ids[e] ==> d == e
  {
  }

  /** The mutable slot state of one build. */
  class NodeSlots {
    var ids: map<DeviceId, nat>
    var nodes: seq<Option<Node>>
    ghost var owners: seq<DeviceId>

    ghost function Value(): SlotTable
      reads this
    {
      SlotTable(ids, owners, nodes)
    }

    ghost predicate Valid()
      reads this
    {
      Dense(Value())
    }

    constructor ()
      ensures Valid() && Value() == NoSlots
    {
      ids, nodes, owners := map[], [], [];
    }

    /** `_reserve_device_node(device_id)`. */
    method ReserveDeviceNode(d: DeviceId) returns (slot: nat)
      requires Valid()
      modifies this
      ensures Valid()
      ensures (slot, Value()) == Reserve(old(Value()), d)
    {
      if d in ids {
        slot := ids[d];
      } else {
        slot := |nodes|;
        ids := ids[d := slot];
        nodes := nodes + [None];
        owners := owners + [d];
      }
      ReserveKeepsDense(old(Value()), d);
    }

    /** `nodes[device_node_id] = node`. */
    method Put(slot: nat, node: Node)
      requires Valid() && slot < |nodes|
      modifies this
      ensures Valid()
      ensures Value() == Fill(old(Value()), slot, node)
    {
      nodes := nodes[slot := Some(node)];
    }
  }
}
