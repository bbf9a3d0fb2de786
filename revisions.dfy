/** Where the two revisions behave differently on the same situation of the
    switch. Each lemma takes the device as each revision observes it (the
    newer one reads status-table rows, the older one asks per-port
    questions) and states both outcomes. */
module AfmRevisions {
  import opened AfmResults
  import opened AfmPorts
  import opened AfmGateway
  import opened AfmStatus
  import AfmConvergence
  import AfmConnect
  import AfmDisconnect
  import AfmLegacyMapping

  /** A link seen from one end only: src names dst, dst names no peer. The
      older revision tolerates the missing side and, with neither port
      locked, sends the disconnect; the newer one refuses at once, reporting
      that dst is not connected to src, and sends nothing. */
  lemma DisconnectOneSidedLink(legacy: Oracle, timeout: int, current: Oracle, cfg: AfmConvergence.Config,
                               src: PortId, dst: PortId, si: PortInfo, di: PortInfo, s: DevState)
    requires dst != ""
    requires legacy.peerOf(s.queries, src) == dst && legacy.peerOf(s.queries + 1, dst) == ""
    requires !legacy.lockedOf(s.queries + 2, src) && !legacy.lockedOf(s.queries + 3, dst)
    requires cfg.delay > 0
    requires Fetch(current, s.queries, [src, dst]) == Ok([si, di])
    requires EffectivePeer(si) == Ok(Some(dst)) && Unconnected(di)
    ensures AfmLegacyMapping.DisconnectRun(legacy, timeout, Pair(src, dst), s).1.log == s.log + [DisconnectCmd(src, dst)]
    ensures AfmDisconnect.DisconnectRun(current, cfg, Pair(src, dst), s) == (Err(NotConnectedTo(dst, src)), Tick(current, s))
  {
    AfmLegacyMapping.DisconnectCommandOnlyAfterChecks(legacy, timeout, src, dst, s);
    assert AfmLegacyMapping.PairCheck(dst, "", src, dst) == Ok(false);
  }

  /** A port that is both locked and connected: the older revision asks
      about peers first and refuses it as already connected after one
      query; the newer one checks the guards first and refuses it as
      locked. Neither sends a command. */
  lemma ConnectLockedAndConnected(legacy: Oracle, timeout: int, current: Oracle, cfg: AfmConvergence.Config,
                                  src: PortId, dst: PortId, si: PortInfo, di: PortInfo, s: DevState)
    requires legacy.peerOf(s.queries, src) != ""
    requires cfg.delay > 0
    requires Fetch(current, s.queries, [src, dst]) == Ok([si, di])
    requires IsLocked(si) && EffectivePeer(si).Ok? && EffectivePeer(si).value.Some?
    ensures AfmLegacyMapping.ConnectRun(legacy, timeout, src, dst, s) == (Err(AlreadyConnected(src, dst)), Tick(legacy, s))
    ensures AfmConnect.ConnectRun(current, cfg, src, dst, s) == (Err(Locked(si.portId)), Tick(current, s))
  {
  }
}
