/**
 * The audio node graph of the meditation synth: the nodes it creates, the
 * parameters of those nodes that can be scheduled or modulated, and the
 * connections between them. A connection is a pair (source node, port), where
 * a port is a node's signal input, one of its parameters, or the context's
 * destination. Connecting twice is the same as connecting once, so the graph
 * is a set of edges.
 */
module Graph {
  import opened Params
  import opened Wrappers

  /**
   * Oscillators are told apart by an id: the two created with the synth have
   * ids 0 and 1, and every hot-swap creates one with a fresh id. Every other
   * node exists once per synth.
   */
  datatype Node =
    | Oscillator(id: nat)
    | OscGain(k: OscNum)
    | ParallelGain(k: OscNum)
    | FMGain(k: OscNum)
    | NoiseSource
    | NoiseGain
    | LowPass
    | HighPass
    | Convolver
    | ReverbGain
    | MasterGain
    | Lfo(l: LfoNum)
    | LfoGain(l: LfoNum)
    | Tap(l: LfoNum, t: TargetName)

  datatype ParamKind = GainParam | FrequencyParam | QParam

  /** An `AudioParam` of a node: `node.gain`, `node.frequency` or `node.Q`. */
  datatype ParamRef = ParamRef(node: Node, kind: ParamKind)

  function Gain(n: Node): ParamRef { ParamRef(n, GainParam) }
  function Freq(n: Node): ParamRef { ParamRef(n, FrequencyParam) }
  function Q(n: Node): ParamRef { ParamRef(n, QParam) }

  datatype Port = In(node: Node) | ParamIn(param: ParamRef) | Destination

  datatype Edge = Edge(src: Node, dst: Port)

  /** `src.connect(dst)`. */
  function Connect(es: set<Edge>, src: Node, dst: Port): (r: set<Edge>)
    ensures Edge(src, dst) in r
    ensures forall e :: e in r <==> e in es || e == Edge(src, dst)
  {
    es + {Edge(src, dst)}
  }

  /** `n.disconnect()`: every outgoing connection of `n` goes, nothing else does. */
  function DisconnectAll(es: set<Edge>, n: Node): (r: set<Edge>)
    ensures forall e :: e in r <==> e in es && e.src != n
  {
    set e | e in es && e.src != n
  }

  /**
   * `src.disconnect(dst)`: removes that one connection; the backend throws
   * (InvalidAccessError) when there is no such connection, which is `None` here.
   */
  function Disconnect(es: set<Edge>, src: Node, dst: Port): (r: Option<set<Edge>>)
    ensures r.None? <==> Edge(src, dst) !in es
    ensures r.Some? ==> forall e :: e in r.value <==> e in es && e != Edge(src, dst)
  {
    if Edge(src, dst) in es then Some(es - {Edge(src, dst)}) else None
  }

  /** The oscillators a node, parameter or port mentions all have ids below `bound`. */
  predicate NodeBelow(n: Node, bound: nat) {
    n.Oscillator? ==> n.id < bound
  }

  predicate PortBelow(p: Port, bound: nat) {
    match p
    case In(n) => NodeBelow(n, bound)
    case ParamIn(r) => NodeBelow(r.node, bound)
    case Destination => true
  }

  predicate EdgeBelow(e: Edge, bound: nat) {
    NodeBelow(e.src, bound) && PortBelow(e.dst, bound)
  }

  /** The targets of the outgoing connections of `n`. */
  function Outgoing(es: set<Edge>, n: Node): (r: set<Port>)
    ensures forall d :: d in r <==> Edge(n, d) in es
  {
    set e | e in es && e.src == n :: e.dst
  }
}
