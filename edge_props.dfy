/** What the cable loop guarantees about the edges it emits: each edge is
    numbered by its position, joins the slots of two requested devices, and
    is built from a selected cable's resolved ends; a circuit gives at most
    one edge; every reserved slot is the end of some edge; and, without
    circuits, the loop fails exactly on a cable with an end on no device. */
module EdgeProps {
  import opened Records
  import opened Slots
  import opened TopologyModel

  /** Edge k was built from the ends `via[k]` of a selected cable, between
      the slots of the two requested devices at those ends. */
  ghost predicate EdgeFrom(st: EdgeState, k: int, q: Query, cables: seq<Cable>)
    requires 0 <= k < |st.edges| && |st.via| == |st.edges|
  {
    var e := st.via[k];
    var edge := st.edges[k];
    && e.cable in cables && Selected(e.cable, q)
    && ResolveEnds(e.cable, q.enableCircuits, {}, q.store) == Resolved(e)
    && EndOnRequested(e.a, q.deviceIds) && EndOnRequested(e.b, q.deviceIds)
    && edge.from < |st.slots.owners| && st.slots.owners[edge.from] == e.a.owner.device.id
    && edge.to < |st.slots.owners| && st.slots.owners[edge.to] == e.b.owner.device.id
    && edge == MakeEdge(k, edge.from, edge.to, e, q.enableCircuits)
  }

  /** Slot n is the "from" or the "to" of some edge. */
  ghost predicate Touches(edges: seq<Edge>, n: int) {
    exists k :: 0 <= k < |edges| && (edges[k].from == n || edges[k].to == n)
  }

  /** Slot `slot` of the cable loop's state is an edge end. The name keeps the
      existential of `Touches` folded inside the loop invariant, where only
      the lemmas about edge ends need it. */
  ghost predicate IsEndpoint(st: EdgeState, slot: int) {
    Touches(st.edges, slot)
  }

  /** The invariant of the cable loop. */
  ghost predicate EdgeInv(st: EdgeState, q: Query, cables: seq<Cable>) {
    && SlotsInScope(st.slots, q.deviceIds)
    && (forall k :: 0 <= k < |st.slots.nodes| ==> st.slots.nodes[k].None?)
    && |st.via| == |st.edges|
    && (forall k :: 0 <= k < |st.edges| ==> EdgeFrom(st, k, q, cables))
    && (forall k :: 0 <= k < |st.via| && st.via[k].circuit.Some? ==> st.via[k].circuit.value.id in st.processed)
    && (forall j, k :: 0 <= j < k < |st.via| && st.via[j].circuit.Some? && st.via[k].circuit.Some? ==>
          st.via[j].circuit.value.id != st.via[k].circuit.value.id)
    && (forall slot :: 0 <= slot < |st.slots.owners| ==> IsEndpoint(st, slot))
  }

  lemma NoEdgesInv(q: Query, cables: seq<Cable>)
    ensures EdgeInv(NoEdges, q, cables)
  {
  }

  /** The set of processed circuits only decides whether a circuit cable is
      skipped; a cable that is resolved resolves the same way against no
      processed circuits at all. */
  lemma ResolveIgnoresProcessed(c: Cable, enable: bool, processed: set<CircuitId>, store: Store)
    requires ResolveEnds(c, enable, processed, store).Resolved?
    ensures ResolveEnds(c, enable, {}, store) == ResolveEnds(c, enable, processed, store)
  {
  }

  /** Marking more circuits as processed keeps the invariant. */
  lemma MoreProcessedKeepsInv(st: EdgeState, processed: set<CircuitId>, q: Query, cables: seq<Cable>)
    requires EdgeInv(st, q, cables) && st.processed <= processed
    ensures EdgeInv(st.(processed := processed), q, cables)
  {
    var st' := st.(processed := processed);
    forall k | 0 <= k < |st'.edges|
      ensures EdgeFrom(st', k, q, cables)
    {
      assert EdgeFrom(st, k, q, cables);
    }
    forall slot | 0 <= slot < |st'.slots.owners|
      ensures IsEndpoint(st', slot)
    {
      assert IsEndpoint(st, slot);
      var k :| 0 <= k < |st.edges| && (st.edges[k].from == slot || st.edges[k].to == slot);
      assert st'.edges[k] == st.edges[k];
    }
  }

  /** State st2 extends st1 by one edge built from e, a resolution of a
      selected cable between two requested devices. */
  ghost predicate AppendsEdge(st1: EdgeState, st2: EdgeState, e: Ends, q: Query, cables: seq<Cable>)
  {
    && e.cable in cables && Selected(e.cable, q)
    && ResolveEnds(e.cable, q.enableCircuits, {}, q.store) == Resolved(e)
    && EndOnRequested(e.a, q.deviceIds) && EndOnRequested(e.b, q.deviceIds)
    && var pa := Reserve(st1.slots, e.a.owner.device.id);
       var pb := Reserve(pa.1, e.b.owner.device.id);
       st2 == EdgeState(pb.1, st1.edges + [MakeEdge(|st1.edges|, pa.0, pb.0, e, q.enableCircuits)],
                        st1.processed, st1.via + [e])
  }

  /** Reserving slots for two requested devices, one after the other,
      extends the slots by at most two placeholders, owned by those devices. */
  lemma ReservePair(s: SlotTable, a: DeviceId, b: DeviceId, ids: set<DeviceId>)
    requires SlotsInScope(s, ids) && a in ids && b in ids
    ensures var pa := Reserve(s, a);
            var pb := Reserve(pa.1, b);
            && SlotsInScope(pb.1, ids)
            && |s.owners| <= |pb.1.owners| <= |s.owners| + 2
            && (forall k :: 0 <= k < |s.owners| ==> pb.1.owners[k] == s.owners[k])
            && (|s.owners| < |pb.1.owners| ==> pa.0 == |s.owners| || pb.0 == |s.owners|)
            && (|s.owners| + 1 < |pb.1.owners| ==> pb.0 == |s.owners| + 1)
            && (forall k :: 0 <= k < |pb.1.nodes| ==> pb.1.nodes[k] == if k < |s.nodes| then s.nodes[k] else None)
            && pa.0 < |pb.1.owners| && pb.1.owners[pa.0] == a
            && pb.0 < |pb.1.owners| && pb.1.owners[pb.0] == b
  {
    var pa := Reserve(s, a);
    ReserveKeepsDense(s, a);
    ReserveKeepsDense(pa.1, b);
  }

  /** The slots after an appended edge extend the slots before it, and the
      new slots are the two ends of the new edge. */
  lemma AppendSlots(st1: EdgeState, st2: EdgeState, e: Ends, q: Query, cables: seq<Cable>)
    requires SlotsInScope(st1.slots, q.deviceIds) && AppendsEdge(st1, st2, e, q, cables)
    ensures SlotsInScope(st2.slots, q.deviceIds)
    ensures |st1.slots.owners| <= |st2.slots.owners|
    ensures forall k :: 0 <= k < |st1.slots.owners| ==> st2.slots.owners[k] == st1.slots.owners[k]
    ensures |st2.slots.owners| <= |st1.slots.owners| + 2
    ensures |st1.slots.owners| < |st2.slots.owners| ==>
              st2.edges[|st1.edges|].from == |st1.slots.owners| || st2.edges[|st1.edges|].to == |st1.slots.owners|
    ensures |st1.slots.owners| + 1 < |st2.slots.owners| ==> st2.edges[|st1.edges|].to == |st1.slots.owners| + 1
    ensures forall k :: 0 <= k < |st2.slots.nodes| ==> st2.slots.nodes[k] == if k < |st1.slots.nodes| then st1.slots.nodes[k] else None
    ensures st2.edges[|st1.edges|].from < |st2.slots.owners|
            && st2.slots.owners[st2.edges[|st1.edges|].from] == e.a.owner.device.id
    ensures st2.edges[|st1.edges|].to < |st2.slots.owners|
            && st2.slots.owners[st2.edges[|st1.edges|].to] == e.b.owner.device.id
  {
    var pa := Reserve(st1.slots, e.a.owner.device.id);
    var pb := Reserve(pa.1, e.b.owner.device.id);
    ReservePair(st1.slots, e.a.owner.device.id, e.b.owner.device.id, q.deviceIds);
    assert st2.slots == pb.1;
    assert st2.edges[|st1.edges|].from == pa.0 && st2.edges[|st1.edges|].to == pb.0;
  }

  lemma AppendKeepsEdgeFrom(st1: EdgeState, st2: EdgeState, e: Ends, q: Query, cables: seq<Cable>)
    requires EdgeInv(st1, q, cables) && AppendsEdge(st1, st2, e, q, cables)
    ensures |st2.via| == |st2.edges|
    ensures forall k :: 0 <= k < |st2.edges| ==> EdgeFrom(st2, k, q, cables)
  {
    AppendSlots(st1, st2, e, q, cables);
    var n := |st1.edges|;
    forall k | 0 <= k < |st2.edges|
      ensures EdgeFrom(st2, k, q, cables)
    {
      if k < n {
        assert EdgeFrom(st1, k, q, cables);
        assert st2.edges[k] == st1.edges[k] && st2.via[k] == st1.via[k];
      } else {
        assert st2.via[k] == e;
      }
    }
  }

  lemma AppendKeepsEndpoints(st1: EdgeState, st2: EdgeState, e: Ends, q: Query, cables: seq<Cable>)
    requires EdgeInv(st1, q, cables) && AppendsEdge(st1, st2, e, q, cables)
    ensures forall slot :: 0 <= slot < |st2.slots.owners| ==> IsEndpoint(st2, slot)
  {
    AppendSlots(st1, st2, e, q, cables);
    var n := |st1.edges|;
    forall slot | 0 <= slot < |st2.slots.owners|
      ensures IsEndpoint(st2, slot)
    {
      if slot < |st1.slots.owners| {
        assert IsEndpoint(st1, slot);
        var k :| 0 <= k < |st1.edges| && (st1.edges[k].from == slot || st1.edges[k].to == slot);
        assert st2.edges[k] == st1.edges[k];
      } else {
        assert st2.edges[n].from == slot || st2.edges[n].to == slot;
      }
    }
  }

  /** Appending the ends of an edge through a fresh, processed circuit keeps
      every circuit processed and drawn once. */
  lemma AppendKeepsCircuits(via: seq<Ends>, processed: set<CircuitId>, e: Ends)
    requires forall k :: 0 <= k < |via| && via[k].circuit.Some? ==> via[k].circuit.value.id in processed
    requires forall j, k :: 0 <= j < k < |via| && via[j].circuit.Some? && via[k].circuit.Some? ==>
               via[j].circuit.value.id != via[k].circuit.value.id
    requires e.circuit.Some? ==> e.circuit.value.id in processed
    requires forall k :: 0 <= k < |via| && via[k].circuit.Some? && e.circuit.Some? ==>
               via[k].circuit.value.id != e.circuit.value.id
    ensures var via' := via + [e];
            && (forall k :: 0 <= k < |via'| && via'[k].circuit.Some? ==> via'[k].circuit.value.id in processed)
            && (forall j, k :: 0 <= j < k < |via'| && via'[j].circuit.Some? && via'[k].circuit.Some? ==>
                  via'[j].circuit.value.id != via'[k].circuit.value.id)
  {
  }

  lemma AppendKeepsInv(st1: EdgeState, st2: EdgeState, e: Ends, q: Query, cables: seq<Cable>)
    requires EdgeInv(st1, q, cables) && AppendsEdge(st1, st2, e, q, cables)
    requires e.circuit.Some? ==> e.circuit.value.id in st1.processed
    requires forall k :: 0 <= k < |st1.via| && st1.via[k].circuit.Some? && e.circuit.Some? ==>
               st1.via[k].circuit.value.id != e.circuit.value.id
    ensures EdgeInv(st2, q, cables)
  {
    AppendSlots(st1, st2, e, q, cables);
    AppendKeepsEdgeFrom(st1, st2, e, q, cables);
    AppendKeepsEndpoints(st1, st2, e, q, cables);
    assert st2.via == st1.via + [e] && st2.processed == st1.processed;
    AppendKeepsCircuits(st1.via, st1.processed, e);
  }

  /** One iteration of the cable loop keeps the invariant and only extends
      the edges. */
  lemma EdgeStepKeepsInv(c: Cable, q: Query, cables: seq<Cable>, st: EdgeState)
    requires EdgeInv(st, q, cables) && c in cables && Selected(c, q)
    ensures EdgeStep(c, q, st).Next? ==> EdgeInv(EdgeStep(c, q, st).st, q, cables)
    ensures EdgeStep(c, q, st).Next? ==> st.edges <= EdgeStep(c, q, st).st.edges
                                         && st.via <= EdgeStep(c, q, st).st.via
  {
    if !IgnoredType(c, q.ignore) && ResolveEnds(c, q.enableCircuits, st.processed, q.store).Resolved? {
      var e := ResolveEnds(c, q.enableCircuits, st.processed, q.store).ends;
      var st1 := if e.circuit.Some? then st.(processed := st.processed + {e.circuit.value.id}) else st;
      MoreProcessedKeepsInv(st, st1.processed, q, cables);
      if EndOnRequested(e.a, q.deviceIds) && EndOnRequested(e.b, q.deviceIds) {
        ResolveIgnoresProcessed(c, q.enableCircuits, st.processed, q.store);
        assert forall k :: 0 <= k < |st1.via| && st1.via[k].circuit.Some? && e.circuit.Some? ==>
                 st1.via[k].circuit.value.id != e.circuit.value.id;
        AppendKeepsInv(st1, EdgeStep(c, q, st).st, e, q, cables);
      }
    }
  }

  /** The cable loop keeps the invariant, and what it produced before is
      still there at the end. */
  lemma {:induction false} EdgePassKeepsInv(cs: seq<Cable>, q: Query, cables: seq<Cable>, st: EdgeState)
    requires EdgeInv(st, q, cables)
    requires forall c :: c in cs ==> c in cables && Selected(c, q)
    ensures EdgePass(cs, q, st).Done? ==> EdgeInv(EdgePass(cs, q, st).st, q, cables)
    ensures EdgePass(cs, q, st).Done? ==> st.edges <= EdgePass(cs, q, st).st.edges
                                          && st.via <= EdgePass(cs, q, st).st.via
    decreases |cs|
  {
    if cs != [] {
      EdgeStepKeepsInv(cs[0], q, cables, st);
      if EdgeStep(cs[0], q, st).Next? {
        EdgePassKeepsInv(cs[1..], q, cables, EdgeStep(cs[0], q, st).st);
      }
    }
  }

  /** A cable between two requested devices, with no circuit termination,
      always becomes an edge of its own. */
  lemma {:induction false} DirectCableDrawn(cs: seq<Cable>, q: Query, cables: seq<Cable>, st: EdgeState, c: Cable)
    requires EdgeInv(st, q, cables)
    requires forall x :: x in cs ==> x in cables && Selected(x, q)
    requires c in cs && !HasCircuitEnd(c) && EndOnRequested(c.a, q.deviceIds) && EndOnRequested(c.b, q.deviceIds)
    ensures EdgePass(cs, q, st).Done? ==>
              exists k :: 0 <= k < |EdgePass(cs, q, st).st.via| && EdgePass(cs, q, st).st.via[k] == Ends(c, c.a, c, c.b, c, None)
    decreases |cs|
  {
    EdgeStepKeepsInv(cs[0], q, cables, st);
    if EdgeStep(cs[0], q, st).Next? {
      var st' := EdgeStep(cs[0], q, st).st;
      if c == cs[0] {
        assert st'.via[|st.via|] == Ends(c, c.a, c, c.b, c, None);
        EdgePassKeepsInv(cs[1..], q, cables, st');
      } else {
        DirectCableDrawn(cs[1..], q, cables, st', c);
      }
    }
  }

  /** The circuit the cable loop resolves `c` through: the circuit of its A
      end when that is a circuit termination, otherwise that of its B end. */
  predicate ThroughCircuit(c: Cable, id: CircuitId) {
    if c.a.owner.OnCircuit? then c.a.owner.circuit.id == id
    else c.b.owner.OnCircuit? && c.b.owner.circuit.id == id
  }

  /** `c` resolves, before any circuit is processed, to two requested devices. */
  predicate ResolvesInScope(c: Cable, q: Query) {
    var r := ResolveEnds(c, q.enableCircuits, {}, q.store);
    r.Resolved? && EndOnRequested(r.ends.a, q.deviceIds) && EndOnRequested(r.ends.b, q.deviceIds)
  }

  /** Some edge recorded in `via` goes through circuit `id`. */
  ghost predicate CircuitShown(via: seq<Ends>, id: CircuitId) {
    exists k :: 0 <= k < |via| && via[k].circuit.Some? && via[k].circuit.value.id == id
  }

  /** A longer record of edges still shows every circuit the shorter one does. */
  lemma ShownInLonger(via: seq<Ends>, via': seq<Ends>, id: CircuitId)
    requires CircuitShown(via, id) && via <= via'
    ensures CircuitShown(via', id)
  {
    var k :| 0 <= k < |via| && via[k].circuit.Some? && via[k].circuit.value.id == id;
    assert via'[k] == via[k];
  }

  /** With circuits enabled, a resolved cable passes through the circuit it
      is resolved through, and a cable through a circuit that resolves
      before any circuit is processed is skipped only once its circuit is. */
  lemma ResolveThroughCircuit(x: Cable, processed: set<CircuitId>, store: Store, id: CircuitId)
    ensures var r := ResolveEnds(x, true, processed, store);
            r.Resolved? && r.ends.circuit.Some? ==> ThroughCircuit(x, r.ends.circuit.value.id)
    ensures (ThroughCircuit(x, id) && ResolveEnds(x, true, {}, store).Resolved?
             && ResolveEnds(x, true, processed, store).Skip?) ==> id in processed
  {
    if x.a.owner.OnCircuit? {
      ResolveCircuitA(x, processed, store);
      ResolveCircuitA(x, {}, store);
    } else if x.b.owner.OnCircuit? {
      ResolveCircuitB(x, processed, store);
      ResolveCircuitB(x, {}, store);
    }
  }

  /** One cable iteration, when every cable through circuit `id` resolves
      to two requested devices: the circuit is only marked processed
      together with an edge through it, and a cable through it leaves the
      iteration with such an edge drawn. */
  lemma CircuitStep(x: Cable, q: Query, cables: seq<Cable>, st: EdgeState, id: CircuitId)
    requires EdgeInv(st, q, cables) && x in cables && Selected(x, q) && q.enableCircuits
    requires ThroughCircuit(x, id) ==> ResolvesInScope(x, q)
    requires id in st.processed ==> CircuitShown(st.via, id)
    ensures EdgeStep(x, q, st).Next? ==>
              var st' := EdgeStep(x, q, st).st;
              && (id in st'.processed ==> CircuitShown(st'.via, id))
              && (ThroughCircuit(x, id) ==> CircuitShown(st'.via, id))
  {
    EdgeStepKeepsInv(x, q, cables, st);
    if EdgeStep(x, q, st).Next? {
      var st' := EdgeStep(x, q, st).st;
      var r := ResolveEnds(x, true, st.processed, q.store);
      ResolveThroughCircuit(x, st.processed, q.store, id);
      if r.Resolved? && ThroughCircuit(x, id) {
        ResolveIgnoresProcessed(x, true, st.processed, q.store);
        assert st'.via[|st.via|] == r.ends;
      } else if id in st.processed {
        ShownInLonger(st.via, st'.via, id);
      }
    }
  }

  /** With circuits enabled, a selected cable through a circuit whose cables
      all resolve to requested devices is drawn: some edge goes through that
      circuit (unless the loop raises). */
  lemma {:induction false} CircuitDrawn(cs: seq<Cable>, q: Query, cables: seq<Cable>, st: EdgeState, c: Cable, id: CircuitId)
    requires EdgeInv(st, q, cables) && q.enableCircuits
    requires forall x :: x in cs ==> x in cables && Selected(x, q)
    requires c in cs && ThroughCircuit(c, id)
    requires forall x :: x in cs && ThroughCircuit(x, id) ==> ResolvesInScope(x, q)
    requires id in st.processed ==> CircuitShown(st.via, id)
    ensures EdgePass(cs, q, st).Done? ==> CircuitShown(EdgePass(cs, q, st).st.via, id)
    decreases |cs|
  {
    CircuitStep(cs[0], q, cables, st, id);
    EdgeStepKeepsInv(cs[0], q, cables, st);
    if EdgeStep(cs[0], q, st).Next? {
      var st' := EdgeStep(cs[0], q, st).st;
      if c == cs[0] {
        EdgePassKeepsInv(cs[1..], q, cables, st');
        if EdgePass(cs[1..], q, st').Done? {
          ShownInLonger(st'.via, EdgePass(cs[1..], q, st').st.via, id);
        }
      } else {
        assert forall x :: x in cs[1..] ==> x in cs;
        CircuitDrawn(cs[1..], q, cables, st', c, id);
      }
    }
  }

  /** After resolution of a selected cable, an end not on a device is the
      cable's own end, and on the A side it has no owner at all. */
  lemma ResolvedEndsOfSelected(c: Cable, q: Query, processed: set<CircuitId>, e: Ends)
    requires Selected(c, q) && ResolveEnds(c, q.enableCircuits, processed, q.store) == Resolved(e)
    ensures e.a.owner.OnDevice? || (e.a == c.a && c.a.owner.Unbound?)
    ensures e.b.owner.OnDevice? || e.b == c.b
    ensures !q.enableCircuits ==> e == Ends(c, c.a, c, c.b, c, None)
  {
  }

  predicate HasUnboundEnd(c: Cable) {
    c.a.owner.Unbound? || c.b.owner.Unbound?
  }

  /** The cable loop raises only on a cable whose A end has no device at
      all, or whose B end (after resolution) is not on a device. */
  lemma {:induction false} RaisedOnDevicelessEnd(cs: seq<Cable>, q: Query, st: EdgeState)
    requires forall c :: c in cs ==> Selected(c, q)
    ensures EdgePass(cs, q, st).Raised? ==>
              exists c :: c in cs && c.id == EdgePass(cs, q, st).cable && (c.a.owner.Unbound? || !c.b.owner.OnDevice?)
    decreases |cs|
  {
    if cs != [] {
      match EdgeStep(cs[0], q, st)
      case Raise(id) =>
        var e := ResolveEnds(cs[0], q.enableCircuits, st.processed, q.store).ends;
        ResolvedEndsOfSelected(cs[0], q, st.processed, e);
      case Next(st') =>
        assert forall c :: c in cs[1..] ==> c in cs;
        RaisedOnDevicelessEnd(cs[1..], q, st');
    }
  }

  /** Without circuits, the cable loop over selected cables raises exactly
      when one of them has an end on no device. */
  lemma {:induction false} RaisesIffUnbound(cs: seq<Cable>, q: Query, st: EdgeState)
    requires !q.enableCircuits
    requires forall c :: c in cs ==> Selected(c, q)
    ensures EdgePass(cs, q, st).Raised? <==> exists c :: c in cs && HasUnboundEnd(c)
    decreases |cs|
  {
    RaisedOnDevicelessEnd(cs, q, st);
    if cs != [] {
      var c := cs[0];
      assert c in cs && Selected(c, q);
      assert !IgnoredType(c, q.ignore);
      assert ResolveEnds(c, false, st.processed, q.store) == Resolved(Ends(c, c.a, c, c.b, c, None));
      if HasUnboundEnd(c) {
        assert c.a.owner.Unbound? || EndOnRequested(c.a, q.deviceIds);
      } else {
        assert EdgeStep(cs[0], q, st).Next?;
        RaisesIffUnbound(cs[1..], q, EdgeStep(cs[0], q, st).st);
        assert forall c :: c in cs[1..] ==> c in cs;
        assert forall c :: c in cs && c != cs[0] ==> c in cs[1..];
      }
    }
  }
}
