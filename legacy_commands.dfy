/** The older revision's driver commands on the live gateway, each proved to
    leave exactly the result and device state its reference function
    describes. */
module AfmLegacyDriver {
  import opened AfmResults
  import opened AfmPorts
  import opened AfmGateway
  import opened AfmLegacyPolling
  import opened AfmLegacyMapping
  import AfmConvergence

  /** `_connect_ports(src, dst)`; `timeout` is the configured mapping
      timeout. */
  method ConnectPorts(dev: Gateway, timeout: int, src: PortId, dst: PortId) returns (r: Result<()>)
    modifies dev
    ensures (r, dev.State()) == ConnectRun(dev.oracle, timeout, src, dst, old(dev.State()))
  {
    var srcPeer := dev.PortConnected(src);
    var connected := srcPeer != "";
    if !connected {
      var dstPeer := dev.PortConnected(dst);
      connected := dstPeer != "";
    }
    if connected {
      return Err(AlreadyConnected(src, dst));
    }
    var locked := dev.PortLocked(src);
    if !locked {
      locked := dev.PortLocked(dst);
    }
    if locked {
      return Err(PairLocked(src, dst));
    }
    dev.Send(ConnectCmd(src, dst));
    var start := dev.Time();
    var p := AwaitState(dev, Connection, src, dst, start, timeout);
    r := AfmConvergence.Finish(p, LegacyTimedOut(Connection, src, dst, timeout));
  }

  /** `_disconnect_ports(*ports)`. */
  method DisconnectPorts(dev: Gateway, timeout: int, req: Request) returns (r: Result<()>)
    modifies dev
    ensures (r, dev.State()) == DisconnectRun(dev.oracle, timeout, req, old(dev.State()))
  {
    var src, dst;
    match req {
      case One(id) =>
        var peer := dev.PortConnected(id);
        if peer == "" {
          return Ok(());
        }
        src, dst := id, peer;
      case Pair(s, d) =>
        src, dst := s, d;
    }
    ghost var before := dev.State();
    var connectedDst := dev.PortConnected(src);
    var connectedSrc := dev.PortConnected(dst);
    var check := PairCheck(connectedDst, connectedSrc, src, dst);
    if check.Err? {
      return Err(check.error);
    }
    if check.value {
      return Ok(());
    }
    var locked := dev.PortLocked(src);
    if !locked {
      locked := dev.PortLocked(dst);
    }
    if locked {
      return Err(PairLocked(src, dst));
    }
    dev.Send(DisconnectCmd(src, dst));
    var start := dev.Time();
    var p := AwaitState(dev, Disconnection, src, dst, start, timeout);
    r := AfmConvergence.Finish(p, LegacyTimedOut(Disconnection, src, dst, timeout));
    assert (r, dev.State()) == DisconnectPair(dev.oracle, timeout, src, dst, before);
  }

  /** `map_bidi` of the older revision. */
  method MapBidi(dev: Gateway, timeout: int, srcAddress: string, dstAddress: string) returns (r: Result<()>)
    modifies dev
    ensures (r, dev.State()) == ConnectRun(dev.oracle, timeout, ConvertPort(srcAddress), ConvertPort(dstAddress), old(dev.State()))
  {
    r := ConnectPorts(dev, timeout, ConvertPort(srcAddress), ConvertPort(dstAddress));
  }

  /** `map_clear` of the older revision: the first failure propagates. */
  method MapClear(dev: Gateway, timeout: int, addresses: seq<string>) returns (r: Result<()>)
    modifies dev
    ensures (r, dev.State()) == ClearRun(dev.oracle, timeout, addresses, old(dev.State()))
  {
    for i := 0 to |addresses|
      invariant ClearRun(dev.oracle, timeout, addresses[i..], dev.State())
             == ClearRun(dev.oracle, timeout, addresses, old(dev.State()))
    {
      assert addresses[i..][0] == addresses[i] && addresses[i..][1..] == addresses[i + 1..];
      var outcome := DisconnectPorts(dev, timeout, One(ConvertPort(addresses[i])));
      if outcome.Err? {
        return outcome;
      }
    }
    return Ok(());
  }

  /** `map_clear_to(src, dsts)` of the older revision. */
  method MapClearTo(dev: Gateway, timeout: int, srcAddress: string, dstAddresses: seq<string>) returns (r: Result<()>)
    modifies dev
    ensures (r, dev.State()) == ClearToRun(dev.oracle, timeout, srcAddress, dstAddresses, old(dev.State()))
  {
    if |dstAddresses| != 1 {
      return Err(MultipleDst);
    }
    r := DisconnectPorts(dev, timeout, Pair(ConvertPort(srcAddress), ConvertPort(dstAddresses[0])));
  }
}
