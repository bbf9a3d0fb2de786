/** The device gateway: the switch as the driver observes it.

    The device has no transactional interface. Every status query returns
    whatever the device says at that moment, so the device is modelled as an
    oracle: answers indexed by the number of queries made so far, and a
    clock that advances by each query's latency and by every sleep. The
    gateway records the mutating commands it is sent. */
module AfmGateway {
  import opened AfmResults
  import opened AfmPorts

  /** A mutating device command. */
  datatype Command = ConnectCmd(src: PortId, dst: PortId) | DisconnectCmd(src: PortId, dst: PortId)

  /** What one status-table query (`ports_info`) returns: the table, or an
      exception with its arguments. */
  datatype Answer = Status(ports: map<PortId, PortInfo>) | Raised(args: seq<string>)

  /** The device's behaviour, fixed for one driver call.
      `status(k)`  answers the k-th query if it is a `ports_info` query;
      `peerOf(k, id)` and `lockedOf(k, id)` answer it if it is the older
      revision's `port_connected(id)` or `port_locked(id)` ("" = no peer);
      `latency(k)` is how many clock ticks the k-th query takes. */
  datatype Oracle = Oracle(
    status: nat -> Answer,
    peerOf: (nat, PortId) -> PortId,
    lockedOf: (nat, PortId) -> bool,
    latency: nat -> nat)

  /** What the driver changes on the gateway: the commands sent, the number
      of queries made, and the clock. */
  datatype DevState = DevState(log: seq<Command>, queries: nat, now: int)

  /** One query of any kind: consumes an oracle index and its latency. */
  function Tick(o: Oracle, s: DevState): (t: DevState)
    ensures t.log == s.log && t.queries == s.queries + 1 && t.now >= s.now
  {
    DevState(s.log, s.queries + 1, s.now + o.latency(s.queries))
  }

  function Issue(s: DevState, c: Command): (t: DevState)
    ensures t.log == s.log + [c] && t.queries == s.queries && t.now == s.now
  {
    s.(log := s.log + [c])
  }

  function Slept(s: DevState, d: nat): (t: DevState)
    ensures t.log == s.log && t.queries == s.queries && t.now == s.now + d
  {
    s.(now := s.now + d)
  }

  /** The rows for `ids`, in order, or a KeyError for the first id the table
      does not hold (the model's assumption about how `ports_info` fails). */
  function Lookup(rows: map<PortId, PortInfo>, ids: seq<PortId>): (r: Result<seq<PortInfo>>)
    ensures r.Ok? <==> forall i :: 0 <= i < |ids| ==> ids[i] in rows
    ensures r.Ok? ==> |r.value| == |ids| && forall i :: 0 <= i < |ids| ==> r.value[i] == rows[ids[i]]
    ensures r.Err? ==> exists i :: 0 <= i < |ids| && ids[i] !in rows && r.error == KeyError(ids[i])
                                   && forall j :: 0 <= j < i ==> ids[j] in rows
  {
    if ids == [] then Ok([])
    else if ids[0] !in rows then Err(KeyError(ids[0]))
    else
      match Lookup(rows, ids[1..])
      case Err(e) => Err(e)
      case Ok(rest) => Ok([rows[ids[0]]] + rest)
  }

  /** What the k-th query, a `ports_info(ids)`, returns. */
  function Fetch(o: Oracle, k: nat, ids: seq<PortId>): (r: Result<seq<PortInfo>>)
    ensures r.Ok? ==> |r.value| == |ids|
  {
    match o.status(k)
    case Raised(a) => Err(DeviceFailure(a))
    case Status(rows) => Lookup(rows, ids)
  }

  function QueryStatus(o: Oracle, ids: seq<PortId>, s: DevState): (Result<seq<PortInfo>>, DevState)
  {
    (Fetch(o, s.queries, ids), Tick(o, s))
  }

  function QueryPeer(o: Oracle, id: PortId, s: DevState): (PortId, DevState)
  {
    (o.peerOf(s.queries, id), Tick(o, s))
  }

  function QueryLocked(o: Oracle, id: PortId, s: DevState): (bool, DevState)
  {
    (o.lockedOf(s.queries, id), Tick(o, s))
  }

  /** The driver's session with the device. */
  class Gateway {
    const oracle: Oracle
    var log: seq<Command>
    var queries: nat
    var now: int

    function State(): DevState
      reads this
    {
      DevState(log, queries, now)
    }

    constructor (oracle: Oracle, start: int)
      ensures this.oracle == oracle && State() == DevState([], 0, start)
    {
      this.oracle := oracle;
      log, queries, now := [], 0, start;
    }

    /** `MappingActions.ports_info(*ids)` of the newer revision. */
    method PortsInfo(ids: seq<PortId>) returns (r: Result<seq<PortInfo>>)
      modifies this
      ensures (r, State()) == QueryStatus(oracle, ids, old(State()))
    {
      r := Fetch(oracle, queries, ids);
      now := now + oracle.latency(queries);
      queries := queries + 1;
    }

    /** `MappingActions.port_connected(id)` of the older revision. */
    method PortConnected(id: PortId) returns (peer: PortId)
      modifies this
      ensures (peer, State()) == QueryPeer(oracle, id, old(State()))
    {
      peer := oracle.peerOf(queries, id);
      now := now + oracle.latency(queries);
      queries := queries + 1;
    }

    /** `MappingActions.port_locked(id)` of the older revision. */
    method PortLocked(id: PortId) returns (locked: bool)
      modifies this
      ensures (locked, State()) == QueryLocked(oracle, id, old(State()))
    {
      locked := oracle.lockedOf(queries, id);
      now := now + oracle.latency(queries);
      queries := queries + 1;
    }

    /** `MappingActions.connect` / `disconnect`: send one command. */
    method Send(c: Command)
      modifies this
      ensures State() == Issue(old(State()), c)
    {
      log := log + [c];
    }

    /** `time.time()`. */
    method Time() returns (t: int)
      ensures t == now
    {
      t := now;
    }

    /** `time.sleep(d)`. */
    method Sleep(d: nat)
      modifies this
      ensures State() == Slept(old(State()), d)
    {
      now := now + d;
    }
  }
}
