/** The records the topology builder reads (devices, cables, terminations,
    circuits) and the payload it writes (nodes and edges).

    The display string of an ORM object (`str(device)`, `str(cable)`, ...) is
    an input field `text`; the builder only copies and escapes it. */
module Records {

  datatype Option<+T> = None | Some(value: T)

  type DeviceId = int
  type CircuitId = int
  type CableId = int

  /** Identity of a termination record: Django compares model instances by
      their concrete model and primary key. */
  datatype TermKey = TermKey(model: string, pk: int)

  datatype DeviceRef = DeviceRef(id: DeviceId, text: string)

  datatype CircuitRef = CircuitRef(id: CircuitId, text: string, provider: string)

  /** What a termination hangs off: a device component (interface, port, ...)
      has a device; a circuit termination belongs to a circuit; anything else
      (a power feed, say) has no device at all. */
  datatype Owner =
    | OnDevice(device: DeviceRef)
    | OnCircuit(circuit: CircuitRef)
    | Unbound

  /** One end of a cable. `typeName` is the name of its content type, the
      string the ignore list is matched against. */
  datatype Termination = Termination(key: TermKey, typeName: string, text: string, owner: Owner)

  /** A cable; an empty `cableType` or `color` means the field is blank. */
  datatype Cable = Cable(id: CableId, text: string, cableType: string, color: string,
                         a: Termination, b: Termination)

  /** The data-access side of circuit traversal: the peer termination of a
      circuit termination (the other end of its circuit) and the cable
      attached to a termination. A missing key means the ORM returns None. */
  datatype Store = Store(peers: map<TermKey, Termination>, cableOf: map<TermKey, Cable>)

  datatype Role = Role(slug: string, name: string, color: string)

  /** A requested device. `deviceType` is the model name of its device type;
      empty strings stand for blank fields. */
  datatype Device = Device(id: DeviceId, text: string, name: Option<string>, identifier: string,
                           role: Role, deviceType: Option<string>, serial: string,
                           primaryIp: Option<string>, status: string)

  /** One key/value row of a tooltip table. */
  datatype Entry = Entry(key: string, value: string)

  /** A node of the payload; `labelText` is its "label" key and `borderColor`
      the optional "color.border" key. */
  datatype Node = Node(id: nat, name: string, labelText: string, shape: string, image: string,
                       title: string, borderColor: Option<string>)

  /** An edge of the payload; `color` is the optional "color" key and the
      "dashes" key is present (and true) exactly when `dashes` holds. */
  datatype Edge = Edge(id: nat, from: nat, to: nat, title: string, color: Option<string>, dashes: bool)

  /** What `get_topology_data` hands back: None for an empty request, the
      payload otherwise, or the AttributeError it raises on a cable end
      that has no device. */
  datatype Topology =
    | NoQuery
    | Graph(nodes: seq<Node>, edges: seq<Edge>)
    | AttributeFault(cable: CableId)
}
