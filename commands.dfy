/** The newer revision's driver commands on the live gateway: each method
    follows the source's statements and is proved to leave exactly the
    result and device state its reference function describes. */
module AfmDriver {
  import opened AfmResults
  import opened AfmPorts
  import opened AfmGateway
  import opened AfmStatus
  import opened AfmConvergence
  import opened AfmConnect
  import opened AfmDisconnect
  import opened AfmClear

  /** `map_uni`: unidirectional mappings are always refused. */
  function MapUni(srcAddress: string, dstAddresses: seq<string>): (r: Result<()>)
    ensures r == Err(Unidirectional)
  {
    Err(Unidirectional)
  }

  /** `map_tap` delegates to `map_uni`, so it is always refused too. */
  function MapTap(srcAddress: string, dstAddresses: seq<string>): (r: Result<()>)
    ensures r == Err(Unidirectional)
  {
    MapUni(srcAddress, dstAddresses)
  }

  /** `set_attribute_value`: accepted, as a no-op, only for "Serial Number". */
  function SetAttributeValue(address: string, name: string, value: string): (r: Result<()>)
    ensures r.Ok? <==> name == "Serial Number"
    ensures r.Err? ==> r.error == AttributeNotSupported(name)
  {
    if name == "Serial Number" then Ok(()) else Err(AttributeNotSupported(name))
  }

  /** `_connect_ports(src, dst)`. */
  method ConnectPorts(dev: Gateway, cfg: Config, src: PortId, dst: PortId) returns (r: Result<()>)
    requires cfg.delay > 0
    modifies dev
    ensures (r, dev.State()) == ConnectRun(dev.oracle, cfg, src, dst, old(dev.State()))
  {
    var infos := dev.PortsInfo([src, dst]);
    if infos.Err? {
      return Err(infos.error);
    }
    var srcInfo, dstInfo := infos.value[0], infos.value[1];
    var pre := ConnectPrecheck(srcInfo, dstInfo, src, dst);
    if pre.Err? {
      return pre;
    }
    dev.Send(ConnectCmd(src, dst));
    var start := dev.Time();
    var p := AwaitState(dev, Connection, src, dst, cfg.delay, start, cfg.timeout);
    r := Finish(p, TimedOut(Connection, src, dst, cfg.timeout));
  }

  /** `_disconnect_ports(*ports)`. */
  method DisconnectPorts(dev: Gateway, cfg: Config, req: Request) returns (r: Result<()>)
    requires cfg.delay > 0
    modifies dev
    ensures (r, dev.State()) == DisconnectRun(dev.oracle, cfg, req, old(dev.State()))
  {
    var src, dst, srcInfo, dstInfo;
    match req {
      case One(id) =>
        var infos := dev.PortsInfo([id]);
        if infos.Err? {
          return Err(infos.error);
        }
        var peer := EffectivePeer(infos.value[0]);
        if peer.Err? {
          return Err(peer.error);
        }
        if peer.value.None? {
          return Ok(());
        }
        var peerInfos := dev.PortsInfo([peer.value.value]);
        if peerInfos.Err? {
          return Err(peerInfos.error);
        }
        src, dst, srcInfo, dstInfo := id, peer.value.value, infos.value[0], peerInfos.value[0];
      case Pair(s, d) =>
        var infos := dev.PortsInfo([s, d]);
        if infos.Err? {
          return Err(infos.error);
        }
        src, dst, srcInfo, dstInfo := s, d, infos.value[0], infos.value[1];
    }
    ghost var before := dev.State();
    var pre := DisconnectPrecheck(srcInfo, dstInfo, src, dst);
    if pre.Err? {
      return Err(pre.error);
    }
    if pre.value {
      return Ok(());
    }
    dev.Send(DisconnectCmd(src, dst));
    var start := dev.Time();
    var p := AwaitState(dev, Disconnection, src, dst, cfg.delay, start, cfg.timeout);
    r := Finish(p, TimedOut(Disconnection, src, dst, cfg.timeout));
    assert (r, dev.State()) == DisconnectChecked(dev.oracle, cfg, src, dst, srcInfo, dstInfo, before);
  }

  /** `map_bidi`: connect the ports the two addresses name. */
  method MapBidi(dev: Gateway, cfg: Config, srcAddress: string, dstAddress: string) returns (r: Result<()>)
    requires cfg.delay > 0
    modifies dev
    ensures (r, dev.State()) == ConnectRun(dev.oracle, cfg, ConvertPort(srcAddress), ConvertPort(dstAddress), old(dev.State()))
  {
    r := ConnectPorts(dev, cfg, ConvertPort(srcAddress), ConvertPort(dstAddress));
  }

  /** `map_clear`: disconnect every address's port, collecting rather than
      propagating each failure's message. */
  method MapClear(dev: Gateway, cfg: Config, addresses: seq<string>) returns (r: Result<()>)
    requires cfg.delay > 0
    modifies dev
    ensures (r, dev.State()) == ClearRun(dev.oracle, cfg, addresses, old(dev.State()))
  {
    var messages: seq<string> := [];
    ghost var outs: seq<Result<()>> := [];
    for i := 0 to |addresses|
      invariant (outs, dev.State()) == ClearOutcomes(dev.oracle, cfg, addresses[..i], old(dev.State()))
      invariant messages == Collect(outs)
    {
      assert addresses[..i + 1][..i] == addresses[..i];
      var outcome := DisconnectPorts(dev, cfg, One(ConvertPort(addresses[i])));
      if outcome.Err? {
        var args := Args(outcome.error);
        if |args| > 1 {
          messages := messages + [args[1]];
        } else if |args| == 1 {
          messages := messages + [args[0]];
        }
      }
      outs := outs + [outcome];
    }
    assert addresses[..|addresses|] == addresses;
    if messages != [] {
      return Err(ClearFailed(Join(", ", messages)));
    }
    return Ok(());
  }

  /** `map_clear_to(src, dsts)`. */
  method MapClearTo(dev: Gateway, cfg: Config, srcAddress: string, dstAddresses: seq<string>) returns (r: Result<()>)
    requires cfg.delay > 0
    modifies dev
    ensures (r, dev.State()) == ClearToRun(dev.oracle, cfg, srcAddress, dstAddresses, old(dev.State()))
  {
    if |dstAddresses| != 1 {
      return Err(MultipleDst);
    }
    r := DisconnectPorts(dev, cfg, Pair(ConvertPort(srcAddress), ConvertPort(dstAddresses[0])));
  }
}
