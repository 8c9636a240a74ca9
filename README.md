# netbox-topology-views: the topology builder, in Dafny

This project models `get_topology_data` in `netbox_topology_views/views.py`, which builds the vis.js payload of the
topology view. The payload is a list of nodes (one per device) and a list of edges (one per cable, or one per
circuit when circuit terminations are followed). The model also covers the two helpers nested in that function,
`_reserve_device_node` and `_get_device_bound_peer_termination`, and the tooltip generator `_generate_description`.

The model has two layers:

- **Reference semantics.** Modules `Html`, `Description`, `Slots` and `TopologyModel` define the build as
  functions of its inputs: the options, the cable query, the classification of each cable, the cable loop
  (`EdgeStep`/`EdgePass`), the device loop (`NodeStep`/`NodePass`), and the result (`TopologyOf`).
- **The view as it runs.** Module `Views` does the same work imperatively.
  - The mutable `device_node_ids`/`nodes` state of the closure is the class `Slots.NodeSlots`.
  - The two `for` loops are `while` loops with invariants.
  - `Views.GetTopologyData` is proved to return exactly `TopologyOf` of its inputs, so every property proved
    about `TopologyOf` holds of the method's result.

The properties are proved in four modules:

- `EdgeProps`: the invariant of the cable loop, and when it raises.
- `NodeProps`: what the device loop does to the slots, and the contents of one node.
- `TopologyProps`: the payload as a whole.
- `Quirks`: consequences of the order in which the cable loop tests things.

How inputs are represented:

- The `str()` of every ORM object (device, cable, termination, circuit) is a `text` field of the input record.
- Cable selection is the filter of the ORM query, applied to the list `cables`.
- Circuit traversal reads a `Store`: the peer termination of each circuit termination, and the cable attached
  to each termination.
- Plugin settings are a `PluginConfig` value.

Source behaviour the model keeps as written:

- "name" key (views.py:231-233): the guard is inverted. A device without a name gets `escape(None)`, the text
  "None". A named device gets "untitled-<identifier>".
- Cable "Type" row (views.py:189-191): it is written only when circuit terminations are disabled. With them
  enabled, a direct cable gets only the "To" and "From" rows.
- Which circuit end is used (views.py:151-167): when circuits are enabled, only the A end is looked at if it is
  a circuit termination, because of the `elif`. If both ends are circuit terminations, the B end stays a circuit
  termination. Its `t_b.device` then raises once the A side resolves to a requested device.
- When a circuit is marked processed (views.py:187 and 193-194): before the scope check. A circuit whose far end
  is outside the request is used up without being drawn.
- Ends that belong to no device (views.py:193). An end that belongs to nothing, neither a device nor a circuit,
  always raises `AttributeError` (`AttributeFault` in the model) on a selected cable, because the query only selects
  that cable when its other end is on a requested device. A circuit termination left at the B end raises only when
  the resolved A end is on a requested device; otherwise the scope test drops the cable before reading it.
  Without circuits, the build fails exactly when a selected cable has an end with no device.

## Model

| member | source | states |
|---|---|---|
| Html.EscapeChar | netbox_topology_views/views.py:28-34 | one character escapes to a non-empty text free of markup characters, and to itself when it is neither markup nor an ampersand |
| Html.Escape | netbox_topology_views/views.py:28-34 | escaped text contains no markup character, is no shorter than the input, and equals the input when the input has no markup or ampersand |
| Html.EscapeAppend | netbox_topology_views/views.py:231-233 | escaping a concatenation escapes each piece |
| Html.EscapePlainPrefix | netbox_topology_views/views.py:231-233 | a prefix free of markup and ampersands, such as "untitled-", passes through escaping unchanged |
| Html.UnescapeReference | netbox_topology_views/views.py:28-34 | each of the five character references decodes back to its character |
| Html.UnescapeEscapeChar | netbox_topology_views/views.py:28-34 | decoding one escaped character followed by any text gives that character first |
| Html.UnescapeEscape | netbox_topology_views/views.py:28-34 | round trip: unescaping escaped text gives the original text back |
| Html.EscapeInjective | netbox_topology_views/views.py:28-34 | two different texts never escape to the same markup |
| Description.JoinedCellsAreRows | netbox_topology_views/views.py:29-36 | joining cells with "</tr><tr>" inside one outer row gives every entry its own row, in order |
| Description.DescribeLayout | netbox_topology_views/views.py:21-38 | a tooltip with entries is the escaped title span, then a table with exactly one row per entry, in entry order |
| Description.DescribeNoEntries | netbox_topology_views/views.py:29-36 | with no entries the table still holds one empty row |
| Description.Describe | netbox_topology_views/views.py:21-38 | definition of `_generate_description`; `DescribeLayout`, `DescribeNoEntries` and `DescribeTitlePrefix` state its layout |
| Description.DescribeTitlePrefix | netbox_topology_views/views.py:28 | a title beginning with a plain prefix puts that prefix right after the span opening |
| Slots.Reserve | netbox_topology_views/views.py:69-81 | a known device keeps its slot and nothing changes; an unknown device gets slot len(nodes), the map gains exactly that entry, and nodes grows by one placeholder |
| Slots.Fill | netbox_topology_views/views.py:258 | the assignment fills exactly slot k and leaves the map and every other slot alone |
| Slots.ReserveKeepsDense | netbox_topology_views/views.py:69-81 | reserving keeps the slot map a bijection onto 0..len(nodes)-1, and the returned slot belongs to the device |
| Slots.ReserveIdempotent | netbox_topology_views/views.py:69-81 | reserving the same device twice is reserving it once |
| Slots.DenseIsBijection | netbox_topology_views/views.py:69-81 | in dense slots, different devices never share a slot and every slot belongs to its owner |
| Slots.NodeSlots.constructor | netbox_topology_views/views.py:65-66 | a build starts with no slots and no nodes |
| Slots.NodeSlots.ReserveDeviceNode | netbox_topology_views/views.py:69-81 | the in-place reservation returns the slot `Reserve` gives, leaves the state `Reserve` gives, and keeps the slots dense |
| Slots.NodeSlots.Put | netbox_topology_views/views.py:258 | `nodes[slot] = node` changes exactly that slot and keeps the slots dense |
| TopologyModel.ResolveOptions | netbox_topology_views/views.py:54-61 | an option the caller passes is used as given; only an unset (None) option is read from the plugin settings |
| TopologyModel.DeviceIds | netbox_topology_views/views.py:84 | the id set holds exactly the ids of the requested devices |
| TopologyModel.SelectCables | netbox_topology_views/views.py:85-108 | a cable is selected exactly when it is a cable of the database and passes the query filter; no selected cable has an ignored termination type |
| TopologyModel.DeviceBoundPeer | netbox_topology_views/views.py:122-148 | the peer exists exactly when the circuit termination has a peer, the peer has a cable, and the far end of that cable is on a device; it is then that far end, with its cable |
| TopologyModel.ResolveEnds | netbox_topology_views/views.py:150-167 | a resolved cable keeps its own identity; a circuit is only passed through when circuits are enabled and it was not processed before; the full case analysis is in `ResolveCircuitA`, `ResolveCircuitB` and `ResolveWithoutCircuits` |
| TopologyModel.ResolveCircuitA | netbox_topology_views/views.py:151-158 | with circuits enabled and a circuit termination at the A end, the cable is skipped exactly when that circuit is processed or no device-bound peer exists; otherwise the A end becomes the peer's far end with the peer's cable, the B end and the cable are kept, and the edge goes through that circuit |
| TopologyModel.ResolveCircuitB | netbox_topology_views/views.py:160-167 | with circuits enabled, the A end not a circuit termination and the B end one, the cable is skipped exactly when that circuit is processed or no device-bound peer exists; otherwise the B end becomes the peer's far end with the peer's cable, the A end and the cable are kept, and the edge goes through that circuit |
| TopologyModel.ResolveWithoutCircuits | netbox_topology_views/views.py:119-120 | with circuits disabled, every cable keeps its own two ends, with itself as the cable of both, and passes through no circuit |
| TopologyModel.FarEnd | netbox_topology_views/views.py:136-140 | definition of the device-side end of the peer's cable; its contract states that it is one of that cable's two ends, and `DeviceBoundPeer` states when it is used |
| TopologyModel.OptionalRow | netbox_topology_views/views.py:241-248 | an optional row is present exactly when its field is set, and then holds that key and value |
| TopologyModel.EdgeEntries | netbox_topology_views/views.py:205-206 | the edge rows start with "To" (B end) and "From" (A end), and every later key is a cable-data key; `Quirks.EdgeEntriesKeysDistinct` proves that no key repeats |
| TopologyModel.Selected | netbox_topology_views/views.py:85-105 | definition of the cable query filter; `SelectCables` states that the selected cables are exactly the database cables it accepts, with no ignored type |
| TopologyModel.CableData | netbox_topology_views/views.py:169-191 | definition of `cable_data`; its contents are stated by `Quirks.DirectCableRows` (no circuit) and `Quirks.CircuitRows` (circuit) |
| TopologyModel.EdgeTitle | netbox_topology_views/views.py:184-197 | definition of the edge title (line 184 for a circuit, 196-197 otherwise); `Quirks.EdgeTitleMarksCircuit` states the "Circuit: " or "Cable: " start of the tooltip |
| TopologyModel.MakeEdge | netbox_topology_views/views.py:199-210 | definition of one edge dictionary, numbered as at line 115; `TopologyProps.EdgePayloads`, `EdgesJoinTheirDevices` and `CircuitsDrawnOnce` state its fields in the payload |
| TopologyModel.EdgeStep | netbox_topology_views/views.py:108-210 | definition of one iteration of the cable loop; `EdgeProps.EdgeStepKeepsInv` and `TopologyModel.EdgeStepKeepsSlots` state what it keeps |
| TopologyModel.EdgePass | netbox_topology_views/views.py:108-210 | definition of the cable loop; `EdgeProps.EdgePassKeepsInv` states its invariant and `Views.AddEdges` is proved to compute it |
| TopologyModel.NodeName | netbox_topology_views/views.py:231-233 | definition of the node "name"; `NodeProps.NodeNameAsWritten` states its value |
| TopologyModel.ImageSlug | netbox_topology_views/views.py:224-228 | definition of the image choice; `NodeProps.NodeImage` states it |
| TopologyModel.NodeFor | netbox_topology_views/views.py:222-255 | definition of one node dictionary; `NodeNameAsWritten`, `NodeTitleLayout`, `NodeImage` and `DeviceEntriesRows` state its fields, and `Views.MakeNode` is proved to build it |
| TopologyModel.RunOf | netbox_topology_views/views.py:47-260 | definition of the whole build, as raise, no query, or the two finished loops; `TopologyProps.FinishedRun` states what a finished build holds |
| TopologyModel.DeviceEntries | netbox_topology_views/views.py:240-248 | device rows start with "Status" and hold at most five rows |
| TopologyModel.NodeStep | netbox_topology_views/views.py:213-258 | one device iteration keeps the slots dense and never drops a slot |
| TopologyModel.NodePass | netbox_topology_views/views.py:213-258 | the device loop keeps the slots dense and never drops a slot |
| TopologyModel.Unwrap | netbox_topology_views/views.py:260 | the returned node list is the slot list with every slot filled, in slot order |
| TopologyModel.TopologyOf | netbox_topology_views/views.py:48-49 | the result is None exactly when no device is requested |
| TopologyModel.ReserveKeepsScope | netbox_topology_views/views.py:199-200 | reserving a requested device keeps every slot owned by a requested device |
| TopologyModel.EdgeStepKeepsSlots | netbox_topology_views/views.py:193-200 | a cable iteration keeps the slots dense and owned by requested devices |
| TopologyModel.EdgePassKeepsSlots | netbox_topology_views/views.py:108-210 | after the cable loop, the slots are dense and owned by requested devices |
| TopologyModel.NodeStepFills | netbox_topology_views/views.py:213-258 | after visiting a device, every placeholder left belongs to a device still to be visited |
| TopologyModel.NodePassFills | netbox_topology_views/views.py:213-258 | when every placeholder belongs to a device to be visited, the device loop leaves no placeholder |
| TopologyModel.RunFillsEverySlot | netbox_topology_views/views.py:77-79 | no None placeholder survives to the returned nodes |
| EdgeProps.NoEdgesInv | netbox_topology_views/views.py:63-67 | the empty start state satisfies the cable-loop invariant |
| EdgeProps.ResolveIgnoresProcessed | netbox_topology_views/views.py:150-167 | the processed set only decides whether a circuit cable is skipped, never how a resolved cable resolves |
| EdgeProps.MoreProcessedKeepsInv | netbox_topology_views/views.py:187 | adding circuits to the processed set keeps the invariant |
| EdgeProps.ReservePair | netbox_topology_views/views.py:199-200 | reserving both ends adds at most two placeholders, owned by those two devices, and keeps every older slot |
| EdgeProps.AppendSlots | netbox_topology_views/views.py:199-210 | a new edge's from/to are the slots of its A and B devices, and any new slot is one of its ends |
| EdgeProps.AppendKeepsEdgeFrom | netbox_topology_views/views.py:199-210 | after an append, every edge is still built from the resolved ends of a selected cable, between the slots of their devices |
| EdgeProps.AppendKeepsEndpoints | netbox_topology_views/views.py:199-210 | after an append, every reserved slot is still the end of some edge |
| EdgeProps.AppendKeepsCircuits | netbox_topology_views/views.py:187 | appending an edge through a fresh processed circuit keeps every drawn circuit processed and drawn once |
| EdgeProps.AppendKeepsInv | netbox_topology_views/views.py:199-210 | appending an edge keeps the cable-loop invariant |
| EdgeProps.EdgeStepKeepsInv | netbox_topology_views/views.py:108-210 | one cable iteration keeps the invariant and only extends the edge list |
| EdgeProps.EdgePassKeepsInv | netbox_topology_views/views.py:108-210 | the whole cable loop keeps the invariant: edge k is numbered k, joins the slots of two requested devices, and is built from a selected cable; circuits are drawn once; every slot is an edge end; all slots are placeholders |
| EdgeProps.DirectCableDrawn | netbox_topology_views/views.py:193-210 | a selected cable without circuit terminations between two requested devices becomes an edge with its own two ends |
| EdgeProps.ShownInLonger | netbox_topology_views/views.py:210 | appending edges never loses an edge through a circuit |
| EdgeProps.ResolveThroughCircuit | netbox_topology_views/views.py:150-167 | with circuits enabled, a resolved cable passes through the circuit of its A end, or of its B end when the A end is no circuit termination; such a cable that resolves on a fresh start is skipped only once its circuit is processed |
| EdgeProps.CircuitStep | netbox_topology_views/views.py:150-210 | when every cable through a circuit leads to requested devices, one iteration marks the circuit processed only together with an edge through it, and a cable through it leaves an edge through it |
| EdgeProps.CircuitDrawn | netbox_topology_views/views.py:108-210 | with circuits enabled, a selected cable through a circuit whose cables all lead to requested devices yields an edge through that circuit, unless the loop raises |
| EdgeProps.ResolvedEndsOfSelected | netbox_topology_views/views.py:150-167 | for a selected cable, the resolved A end is on a device or is the cable's own deviceless end; the B end is on a device or is the cable's own end; without circuits both ends are the cable's own |
| EdgeProps.RaisedOnDevicelessEnd | netbox_topology_views/views.py:193 | the cable loop raises only on a cable whose A end has no owner, or whose B end is not on a device |
| EdgeProps.RaisesIffUnbound | netbox_topology_views/views.py:193 | without circuits, the cable loop raises exactly when a selected cable has an end with no device |
| NodeProps.AppendRowInOrder | netbox_topology_views/views.py:240-248 | adding an optional row with a later key keeps the rows in key order |
| NodeProps.DeviceEntriesInOrder | netbox_topology_views/views.py:240-248 | device rows are in the order Status, Type, Role, Serial, Primary IP, each key at most once |
| NodeProps.DeviceEntriesRows | netbox_topology_views/views.py:241-248 | each optional device row is present exactly when its field is set, and then holds that field |
| NodeProps.NodeNameAsWritten | netbox_topology_views/views.py:231-233 | an unnamed device is called "None"; a named device is called "untitled-" plus its escaped identifier |
| NodeProps.NodeTitleLayout | netbox_topology_views/views.py:251 | the node tooltip is the escaped device label above one table row per device row |
| NodeProps.NodeImage | netbox_topology_views/views.py:224-236 | the node image is the role's image when its slug is enabled, otherwise the "role-unknown" image |
| NodeProps.NodePassSlots | netbox_topology_views/views.py:213-220 | the device loop keeps existing slots; with hide_unconnected it adds none; without it every requested device ends up with a slot; only requested devices are added |
| NodeProps.NodePassUntouched | netbox_topology_views/views.py:213-258 | a slot whose device is not visited keeps its content |
| NodeProps.NodeStepNodes | netbox_topology_views/views.py:213-258 | one device iteration changes at most its own device's slot, and fills it with that device's node |
| NodeProps.NodePassNodes | netbox_topology_views/views.py:213-258 | every slot after the device loop holds its old content, or the node of a visited device that owns the slot |
| NodeProps.NodePassPlacesEach | netbox_topology_views/views.py:213-258 | with distinct device ids, every device that has a slot has its own node there |
| Quirks.DirectCableResolves | netbox_topology_views/views.py:150-167 | a cable without circuit terminations keeps its own two ends and no circuit |
| Quirks.DirectCableRows | netbox_topology_views/views.py:189-191 | a direct cable drawn with circuits enabled has only the To and From rows; the "Type" row appears exactly when circuits are disabled and the cable has a type |
| Quirks.CircuitRows | netbox_topology_views/views.py:169-180 | a circuit edge lists To, From, both cables, their types when set, the circuit and its provider, in that order |
| Quirks.EdgeEntriesKeysDistinct | netbox_topology_views/views.py:169-206 | no key repeats among the edge tooltip rows, so every entry of `cable_data` reaches the tooltip |
| Quirks.CircuitKeysRise | netbox_topology_views/views.py:171-180 | the circuit rows come in a fixed key order, all after "To" and "From" |
| Quirks.ProcessedACircuitSkips | netbox_topology_views/views.py:151-158 | once the A end's circuit is processed the cable is skipped, whatever circuit the B end is on |
| Quirks.BothCircuitEndsRaise | netbox_topology_views/views.py:151-167 | a cable with a circuit termination at both ends whose A side leads to a requested device raises on its B end |
| Quirks.CircuitSpentOutOfScope | netbox_topology_views/views.py:187 | a circuit whose far end is outside the request is still marked processed, so no later cable through it is drawn, whether its circuit termination is the A end or (with no circuit at the A end) the B end |
| Quirks.UnboundEndRaises | netbox_topology_views/views.py:193 | a selected cable with an end on neither a device nor a circuit has its other end on a requested device, and its iteration raises whatever circuits were processed |
| Quirks.EdgeTitleMarksCircuit | netbox_topology_views/views.py:184 | an edge tooltip starts with "Circuit: " for a circuit edge and "Cable: " for a direct cable |
| TopologyProps.FinishedRun | netbox_topology_views/views.py:41-260 | a finished build's edge state satisfies the cable-loop invariant, and its node slots are all filled and form the returned nodes |
| TopologyProps.FilledSlots | netbox_topology_views/views.py:213-258 | after the device loop over placeholders, every slot holds the node of a requested device that owns it |
| TopologyProps.NodeInSlot | netbox_topology_views/views.py:258-260 | a filled slot yields, in the payload, the node of the device that owns it |
| TopologyProps.NodesAreRequestedDevices | netbox_topology_views/views.py:229-260 | node n of the payload has id n and is the node of a requested device |
| TopologyProps.ReservedSlotNode | netbox_topology_views/views.py:199-258 | a slot the cable loop reserved for a device holds that device's node once the device loop has run |
| TopologyProps.EdgeJoinsItsNodes | netbox_topology_views/views.py:199-258 | an edge between the slots reserved for its end devices joins, in the payload, the nodes of those devices |
| TopologyProps.EdgesJoinTheirDevices | netbox_topology_views/views.py:193-210 | edge k has id k; its from and to are existing nodes, and those are the nodes of the requested devices at its resolved A and B ends |
| TopologyProps.DirectCablesBecomeEdges | netbox_topology_views/views.py:193-210 | every selected cable without circuit terminations between two requested devices appears as an edge built from its own ends |
| TopologyProps.CircuitCablesBecomeEdges | netbox_topology_views/views.py:169-210 | with circuits enabled, a selected cable through a circuit whose selected cables all lead to requested devices appears in the payload as a dashed edge through that circuit, titled "Circuit: " and the circuit |
| TopologyProps.CircuitsDrawnOnce | netbox_topology_views/views.py:182-187 | an edge is dashed exactly when it passes through a circuit, and no two edges pass through the same circuit |
| TopologyProps.EdgePayloads | netbox_topology_views/views.py:199-210 | edge k has the colour "#" plus its cable's colour, or none when the cable has no colour; it is dashed exactly when it goes through a circuit; it is the edge dictionary `MakeEdge` builds from its own resolved ends, tooltip included |
| TopologyProps.HiddenLeavesOnlyConnected | netbox_topology_views/views.py:215-220 | with hide_unconnected, every node is the end of some edge |
| TopologyProps.SlotShows | netbox_topology_views/views.py:258-260 | a device whose slot holds its node appears in the payload |
| TopologyProps.EveryDeviceShown | netbox_topology_views/views.py:213-258 | without hide_unconnected, every requested device has its node in the payload |
| TopologyProps.FaultNamesCable | netbox_topology_views/views.py:193 | a failed build names a selected cable whose A end has no owner, or whose B end is not on a device |
| TopologyProps.FaultIffUnboundEnd | netbox_topology_views/views.py:193 | without circuits, the build fails exactly when a selected cable has an end with no device |
| Views.DeviceData | netbox_topology_views/views.py:240-248 | the device rows built one by one are `DeviceEntries` |
| Views.MakeNode | netbox_topology_views/views.py:222-255 | the node dictionary built for a device is `NodeFor` of that device and slot |
| Views.CableStep | netbox_topology_views/views.py:109-210 | one cable iteration either raises exactly where `EdgeStep` raises, or leaves the loop variables in the state `EdgeStep` gives |
| Views.PlaceDevice | netbox_topology_views/views.py:213-258 | one device iteration leaves the slots `NodeStep` gives |
| Views.AddEdges | netbox_topology_views/views.py:108-210 | the cable loop stops at the cable on which the edge pass raises, or ends in the state the edge pass gives |
| Views.AddNodes | netbox_topology_views/views.py:213-258 | the device loop leaves the slots the node pass gives |
| Views.TopologyAfterFault | netbox_topology_views/views.py:193 | a raise in the cable loop is the result of the build |
| Views.TopologyAfterEdges | netbox_topology_views/views.py:213-260 | after a finished cable loop, the result is the filled slots of the device loop together with the edges |
| Views.LoadOptions | netbox_topology_views/views.py:54-61 | the options loaded with fallbacks are `ResolveOptions` |
| Views.GetTopologyDataWithDefaults | netbox_topology_views/views.py:43-46 | called with the default arguments, as the topology page does at lines 284 and 286, the build ignores no cable type and follows circuits whatever the settings say; only the device images come from the settings |
| Views.BuildTopology | netbox_topology_views/views.py:63-260 | the body after the options are settled computes `TopologyOf` |
| Views.GetTopologyData | netbox_topology_views/views.py:41-260 | `get_topology_data` returns exactly `TopologyOf` of its inputs |

## Left out

- `TopologyHomeView` (views.py:263 onward): the web view, its filter form, permissions and rendering are not part of
  this model. Only the builder it calls is.
- Django ORM and settings: the query is modelled by its filter over a list of cables, and
  `settings.PLUGINS_CONFIG` by a `PluginConfig` value. Database access, lazy loading and the order the database
  returns rows in are not modelled; cables are visited in list order.
- `str()` of ORM objects: display strings are input fields (`text`), not computed.
- Django's `escape` is modelled as `html.escape(..., quote=True)` on a `seq<char>`. Conversion of non-string
  values is covered by the text fields. No `SafeString` handling is modelled.
- Type names in the query (views.py:98-105): the content-type name filter is modelled as membership of each
  termination's type name in the ignore list. Whether the ORM accepts `termination_a_type__name__in` is not
  modelled.
- The recheck at views.py:109-113 compares ContentType objects with strings. It is modelled as the same
  type-name membership test. After the query filter it never skips a cable, since selected cables have no ignored
  type (`SelectCables` ensures this).
- `t_a.cable` and `t_b.cable` (views.py:171-177) are read as the cable the end was reached through. This is the peer
  termination's cable for an end replaced by `_get_device_bound_peer_termination`, and the cable itself for an end
  that was not replaced. That is, the model assumes a termination's `cable` is the cable it is an end of. A `None`
  cable at that point, or a cable that does not match, is not modelled. No other consistency of the store is
  assumed: a peer's peer need not be the original, and `FarEnd` takes the A end whenever the near end is not the A
  end, as the code does.
- The topology page calls `get_topology_data(queryset, hide_unconnected)` (views.py:284 and 286), where
  `hide_unconnected` is `None` or `True`. `Views.GetTopologyDataWithDefaults` takes it as a boolean, with `None`
  read as false, as the builder's truth tests do.
- TopologyProps.EveryDeviceShown: assumes the requested devices have distinct ids, as rows of one queryset do.
  With duplicates, the later record's node overwrites the earlier one's in the shared slot.
- The edge and device loops run in one thread; no concurrency is modelled.
