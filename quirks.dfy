/** Behaviour of the cable loop that follows from the order of its tests:
    which tooltip rows a direct cable gets, what happens to a cable with a
    circuit termination at both ends, and when a circuit is used up without
    being drawn. */
module Quirks {
  import opened Records
  import opened Html
  import opened Description
  import opened TopologyModel

  /** With circuits enabled, a cable without circuit terminations keeps its
      own two ends and passes through no circuit. */
  lemma DirectCableResolves(c: Cable, enable: bool, processed: set<CircuitId>, store: Store)
    requires !HasCircuitEnd(c)
    ensures ResolveEnds(c, enable, processed, store) == Resolved(Ends(c, c.a, c, c.b, c, None))
  {
  }

  /** The cable "Type" row is written only in the branch where circuits are
      disabled: a direct cable drawn with circuits enabled has just the "To"
      and "From" rows, and with circuits disabled it has the "Type" row
      exactly when the cable has a type. */
  lemma DirectCableRows(e: Ends, enable: bool)
    requires e.a.owner.OnDevice? && e.b.owner.OnDevice? && e.circuit.None?
    ensures enable ==> EdgeEntries(e, enable) == [Entry("To", EndText(e.b)), Entry("From", EndText(e.a))]
    ensures forall v :: Entry("Type", v) in EdgeEntries(e, enable) <==>
              !enable && e.cable.cableType != "" && v == e.cable.cableType
  {
    var r := EdgeEntries(e, enable);
    forall v ensures Entry("Type", v) in r <==> !enable && e.cable.cableType != "" && v == e.cable.cableType {
      if Entry("Type", v) in r {
        var k :| 0 <= k < |r| && r[k] == Entry("Type", v);
        assert k >= 2;
      }
    }
  }

  /** A circuit-mediated edge lists, after "To" and "From", the cable of
      each end, its type when it has one, the circuit and its provider. */
  lemma CircuitRows(e: Ends)
    requires e.a.owner.OnDevice? && e.b.owner.OnDevice? && e.circuit.Some?
    ensures EdgeEntries(e, true) ==
              [Entry("To", EndText(e.b)), Entry("From", EndText(e.a)), Entry("Cable (From)", e.aCable.text)]
              + (if e.aCable.cableType != "" then [Entry("Type (From)", e.aCable.cableType)] else [])
              + [Entry("Cable (To)", e.bCable.text)]
              + (if e.bCable.cableType != "" then [Entry("Type (To)", e.bCable.cableType)] else [])
              + [Entry("Circuit", e.circuit.value.text), Entry("Provider", e.circuit.value.provider)]
  {
  }

  /** No key repeats among the edge tooltip rows, so every row of the
      dictionary the source builds survives into the tooltip. */
  lemma EdgeEntriesKeysDistinct(e: Ends, enable: bool)
    requires e.a.owner.OnDevice? && e.b.owner.OnDevice?
    ensures var r := EdgeEntries(e, enable);
            forall i, j :: 0 <= i < j < |r| ==> r[i].key != r[j].key
  {
    var r := EdgeEntries(e, enable);
    if enable && e.circuit.Some? {
      CircuitKeysRise(e.aCable, e.bCable, e.circuit.value);
    }
    forall i, j | 0 <= i < j < |r| ensures r[i].key != r[j].key {
      assert EdgeKeyRank(r[i].key) < EdgeKeyRank(r[j].key);
    }
  }

  /** The position a key takes in the edge tooltip. */
  function EdgeKeyRank(key: string): nat {
    if key == "To" then 0
    else if key == "From" then 1
    else if key == "Type" then 2
    else if key == "Cable (From)" then 3
    else if key == "Type (From)" then 4
    else if key == "Cable (To)" then 5
    else if key == "Type (To)" then 6
    else if key == "Circuit" then 7
    else 8
  }

  /** The circuit rows come in strictly increasing key rank, all after
      "From". */
  lemma CircuitKeysRise(fromCable: Cable, toCable: Cable, circuit: CircuitRef)
    ensures var r := CircuitData(fromCable, toCable, circuit);
            && (forall i :: 0 <= i < |r| ==> 1 < EdgeKeyRank(r[i].key))
            && forall i, j :: 0 <= i < j < |r| ==> EdgeKeyRank(r[i].key) < EdgeKeyRank(r[j].key)
  {
  }

  /** Only the A end is looked at when both ends are circuit terminations:
      once the A end's circuit is processed, the cable is skipped whatever
      circuit the B end belongs to. */
  lemma ProcessedACircuitSkips(c: Cable, processed: set<CircuitId>, store: Store)
    requires c.a.owner.OnCircuit? && c.a.owner.circuit.id in processed
    ensures ResolveEnds(c, true, processed, store) == Skip
  {
  }

  /** A cable with a circuit termination at both ends, whose A circuit leads
      to a requested device, reaches `t_b.device` on the B end, a circuit
      termination, and raises. */
  lemma BothCircuitEndsRaise(c: Cable, q: Query, st: EdgeState)
    requires q.enableCircuits && !IgnoredType(c, q.ignore)
    requires c.a.owner.OnCircuit? && c.b.owner.OnCircuit?
    requires c.a.owner.circuit.id !in st.processed
    requires DeviceBoundPeer(c.a, q.store).Some?
    requires DeviceBoundPeer(c.a, q.store).value.0.owner.device.id in q.deviceIds
    ensures EdgeStep(c, q, st) == Raise(c.id)
  {
    var e := ResolveEnds(c, q.enableCircuits, st.processed, q.store);
    assert e.Resolved? && e.ends.b == c.b && e.ends.a == DeviceBoundPeer(c.a, q.store).value.0;
  }

  /** An end that belongs to nothing (no device, no circuit) on a selected
      cable always raises, whatever circuits were processed: the query only
      selects such a cable when its other end is on a requested device, so
      the scope test reaches `t.device` on the deviceless end. */
  lemma UnboundEndRaises(c: Cable, q: Query, st: EdgeState)
    requires Selected(c, q) && (c.a.owner.Unbound? || c.b.owner.Unbound?)
    ensures c.a.owner.Unbound? ==> EndOnRequested(c.b, q.deviceIds)
    ensures c.b.owner.Unbound? ==> EndOnRequested(c.a, q.deviceIds)
    ensures EdgeStep(c, q, st) == Raise(c.id)
  {
    assert !IgnoredType(c, q.ignore);
    assert ResolveEnds(c, q.enableCircuits, st.processed, q.store) == Resolved(Ends(c, c.a, c, c.b, c, None));
  }

  /** The circuit of a cable is marked processed before the scope check: a
      circuit whose far end is on a device outside the request is used up,
      and no later cable through that circuit is drawn, whether the circuit
      termination is its A end or (the A end being none) its B end, not even
      one whose far end would be in scope. */
  lemma CircuitSpentOutOfScope(c: Cable, later: Cable, q: Query, st: EdgeState)
    requires q.enableCircuits && !IgnoredType(c, q.ignore)
    requires c.a.owner.OnCircuit? && c.a.owner.circuit.id !in st.processed
    requires DeviceBoundPeer(c.a, q.store).Some?
    requires DeviceBoundPeer(c.a, q.store).value.0.owner.device.id !in q.deviceIds
    ensures EdgeStep(c, q, st) == Next(st.(processed := st.processed + {c.a.owner.circuit.id}))
    ensures later.a.owner == c.a.owner ==> EdgeStep(later, q, EdgeStep(c, q, st).st) == Next(EdgeStep(c, q, st).st)
    ensures !later.a.owner.OnCircuit? && later.b.owner == c.a.owner ==>
              EdgeStep(later, q, EdgeStep(c, q, st).st) == Next(EdgeStep(c, q, st).st)
  {
    var e := ResolveEnds(c, q.enableCircuits, st.processed, q.store);
    assert e.Resolved? && e.ends.a == DeviceBoundPeer(c.a, q.store).value.0;
    assert e.ends.circuit == Some(c.a.owner.circuit);
  }

  /** The edge tooltip starts with "Circuit: " for a circuit-mediated edge
      and with "Cable: " for a direct one, inside the title span. */
  lemma EdgeTitleMarksCircuit(id: nat, from: nat, to: nat, e: Ends, enable: bool)
    requires e.a.owner.OnDevice? && e.b.owner.OnDevice?
    ensures var t := MakeEdge(id, from, to, e, enable).title;
            var p := if e.circuit.Some? then TitleOpen + "Circuit: " else TitleOpen + "Cable: ";
            |p| <= |t| && t[..|p|] == p
  {
    var entries := EdgeEntries(e, enable);
    var prefix := if e.circuit.Some? then "Circuit: " else "Cable: ";
    var rest := if e.circuit.Some? then e.circuit.value.text else e.cable.text;
    assert EdgeTitle(e) == prefix + rest;
    DescribeTitlePrefix(prefix, rest, entries);
    var t := MakeEdge(id, from, to, e, enable).title;
    assert t == (TitleOpen + prefix) + (Escape(rest) + TitleClose + (TableOpen + JoinCells(entries) + TableClose));
  }
}
