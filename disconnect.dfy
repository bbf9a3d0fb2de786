/** The newer revision's `_disconnect_ports`: resolving the pair, the
    consistency checks and guards, the disconnect command, and waiting for
    both ports to show no peer. */
module AfmDisconnect {
  import opened AfmResults
  import opened AfmPorts
  import opened AfmGateway
  import opened AfmStatus
  import opened AfmConvergence

  /** `_disconnect_ports` once src and dst and their rows are known: the
      consistency checks, then the guards, then the disconnect command and
      polling until neither port shows a peer. */
  function DisconnectChecked(o: Oracle, cfg: Config, src: PortId, dst: PortId, si: PortInfo, di: PortInfo,
                             s: DevState): (Result<()>, DevState)
    requires cfg.delay > 0
  {
    match DisconnectPrecheck(si, di, src, dst)
    case Err(e) => (Err(e), s)
    case Ok(true) => (Ok(()), s)
    case Ok(false) => CommandAndAwait(o, cfg, Disconnection, src, dst, Polls(o, Disconnection, src, dst), s)
  }

  /** `_disconnect_ports(*ports)`. With one id the peer is read from that
      port's own row (no peer: nothing to do) and the peer's row is fetched
      by a second query; with two ids both rows come from one query. */
  function DisconnectRun(o: Oracle, cfg: Config, req: Request, s: DevState): (Result<()>, DevState)
    requires cfg.delay > 0
  {
    match req
    case One(id) =>
      var (infos, s1) := QueryStatus(o, [id], s);
      if infos.Err? then (Err(infos.error), s1)
      else
        (match EffectivePeer(infos.value[0])
         case Err(e) => (Err(e), s1)
         case Ok(None) => (Ok(()), s1)
         case Ok(Some(peer)) =>
           var (peerInfos, s2) := QueryStatus(o, [peer], s1);
           if peerInfos.Err? then (Err(peerInfos.error), s2)
           else DisconnectChecked(o, cfg, id, peer, infos.value[0], peerInfos.value[0], s2))
    case Pair(src, dst) =>
      var (infos, s1) := QueryStatus(o, [src, dst], s);
      if infos.Err? then (Err(infos.error), s1)
      else DisconnectChecked(o, cfg, src, dst, infos.value[0], infos.value[1], s1)
  }

  /** The end of a disconnect once the rows are known: at most the one
      disconnect command, sent exactly when the pre-command checks pass; a
      check that fails, or finds both ports already free, ends the call
      without a query. */
  lemma DisconnectCheckedCommand(o: Oracle, cfg: Config, src: PortId, dst: PortId,
                                 si: PortInfo, di: PortInfo, s: DevState)
    requires cfg.delay > 0
    ensures var (r, t) := DisconnectChecked(o, cfg, src, dst, si, di, s);
            var pre := DisconnectPrecheck(si, di, src, dst);
            && (t.log == s.log || t.log == s.log + [DisconnectCmd(src, dst)])
            && (t.log != s.log <==> pre == Ok(false))
            && (pre.Err? ==> (r, t) == (Err(pre.error), s))
            && (pre == Ok(true) ==> (r, t) == (Ok(()), s))
  {
    PollsNeverTimeOut(o, Disconnection, src, dst);
    CommandOutcome(o, cfg, Disconnection, src, dst, Polls(o, Disconnection, src, dst), s);
  }

  /** A success after the command means a fresh poll showed neither port
      with a peer and neither locked nor disabled. */
  lemma DisconnectCheckedSuccess(o: Oracle, cfg: Config, src: PortId, dst: PortId,
                                 si: PortInfo, di: PortInfo, s: DevState)
    requires cfg.delay > 0
    ensures var (r, t) := DisconnectChecked(o, cfg, src, dst, si, di, s);
            t.log != s.log && r.Ok? ==>
              && t.queries > s.queries
              && var last := Fetch(o, t.queries - 1, [src, dst]);
                 && last.Ok? && Unconnected(last.value[0]) && Unconnected(last.value[1])
                 && CheckMutable(last.value[0]).Ok? && CheckMutable(last.value[1]).Ok?
  {
    PollsNeverTimeOut(o, Disconnection, src, dst);
    CommandOutcome(o, cfg, Disconnection, src, dst, Polls(o, Disconnection, src, dst), s);
  }

  /** A failure after the command is the timeout, raised only once the
      clock has run `timeout` past the command, or the last poll's abort,
      never a partial connection. */
  lemma DisconnectCheckedFailure(o: Oracle, cfg: Config, src: PortId, dst: PortId,
                                 si: PortInfo, di: PortInfo, s: DevState)
    requires cfg.delay > 0
    ensures var (r, t) := DisconnectChecked(o, cfg, src, dst, si, di, s);
            t.log != s.log && r.Err? ==>
              && !r.error.PartiallyConnected?
              && (r.error == TimedOut(Disconnection, src, dst, cfg.timeout) ==> t.now - s.now >= cfg.timeout)
              && (r.error != TimedOut(Disconnection, src, dst, cfg.timeout) ==>
                    t.queries > s.queries && PollAt(o, Disconnection, src, dst, t.queries - 1) == Abort(r.error))
  {
    PollsNeverTimeOut(o, Disconnection, src, dst);
    CommandOutcome(o, cfg, Disconnection, src, dst, Polls(o, Disconnection, src, dst), s);
  }

  /** Disconnecting a pair: the command sent, if any, is for exactly that
      pair and only after the consistency checks and the guards passed; a
      pair that already shows no peer on either port is a success without
      a command (idempotence). */
  lemma DisconnectPairOutcome(o: Oracle, cfg: Config, src: PortId, dst: PortId, s: DevState)
    requires cfg.delay > 0
    ensures var (r, t) := DisconnectRun(o, cfg, Pair(src, dst), s);
            var infos := Fetch(o, s.queries, [src, dst]);
            && (t.log == s.log || t.log == s.log + [DisconnectCmd(src, dst)])
            && (t.log != s.log <==> infos.Ok? && DisconnectPrecheck(infos.value[0], infos.value[1], src, dst) == Ok(false))
            && (infos.Ok? && Unconnected(infos.value[0]) && Unconnected(infos.value[1]) ==> (r, t) == (Ok(()), Tick(o, s)))
  {
    var infos := Fetch(o, s.queries, [src, dst]);
    if infos.Ok? {
      DisconnectCheckedCommand(o, cfg, src, dst, infos.value[0], infos.value[1], Tick(o, s));
    }
  }

  /** Rows that stay mutable, mismatch-free and not yet free after the
      disconnect command, however long the driver waits: the disconnect
      ends in the timeout error. */
  lemma DisconnectNeverSettles(o: Oracle, cfg: Config, src: PortId, dst: PortId,
                               si: PortInfo, di: PortInfo, s: DevState)
    requires cfg.delay > 0
    requires DisconnectPrecheck(si, di, src, dst) == Ok(false)
    requires forall k :: s.queries <= k ==> RowsPending(o, Disconnection, src, dst, k)
    ensures DisconnectChecked(o, cfg, src, dst, si, di, s).0 == Err(TimedOut(Disconnection, src, dst, cfg.timeout))
  {
    var verdicts := Polls(o, Disconnection, src, dst);
    PollsNeverTimeOut(o, Disconnection, src, dst);
    CommandOutcome(o, cfg, Disconnection, src, dst, verdicts, s);
    var (r, t) := DisconnectChecked(o, cfg, src, dst, si, di, s);
    if t.queries > s.queries {
      PollAtRows(o, Disconnection, src, dst, t.queries - 1);
    }
  }

  /** A disconnect of (src, dst) where src is in fact connected to some
      other port c fails at once with no command sent. */
  lemma DisconnectPairWrongPeer(o: Oracle, cfg: Config, src: PortId, dst: PortId, c: PortId, s: DevState)
    requires cfg.delay > 0
    requires Fetch(o, s.queries, [src, dst]).Ok?
    requires EffectivePeer(Fetch(o, s.queries, [src, dst]).value[0]) == Ok(Some(c)) && c != dst
    ensures DisconnectRun(o, cfg, Pair(src, dst), s) == (Err(NotConnectedTo(src, dst)), Tick(o, s))
  {
  }

  /** Disconnecting one port: a port with no effective peer is a success
      after one query and no command; otherwise the only command ever sent
      is a disconnect of the port from the peer its own row named. */
  lemma DisconnectOneOutcome(o: Oracle, cfg: Config, id: PortId, s: DevState)
    requires cfg.delay > 0
    ensures var (r, t) := DisconnectRun(o, cfg, One(id), s);
            var infos := Fetch(o, s.queries, [id]);
            && (infos.Ok? && Unconnected(infos.value[0]) ==> (r, t) == (Ok(()), Tick(o, s)))
            && (infos.Err? ==> (r, t) == (Err(infos.error), Tick(o, s)))
            && (infos.Ok? && EffectivePeer(infos.value[0]).Err? ==>
                  (r, t) == (Err(EffectivePeer(infos.value[0]).error), Tick(o, s)))
            && (t.log != s.log ==>
                  && infos.Ok? && EffectivePeer(infos.value[0]).Ok? && EffectivePeer(infos.value[0]).value.Some?
                  && var peer := EffectivePeer(infos.value[0]).value.value;
                     var peerInfos := Fetch(o, s.queries + 1, [peer]);
                     && t.log == s.log + [DisconnectCmd(id, peer)]
                     && peerInfos.Ok?
                     && DisconnectPrecheck(infos.value[0], peerInfos.value[0], id, peer) == Ok(false))
  {
    var infos := Fetch(o, s.queries, [id]);
    if infos.Ok? && EffectivePeer(infos.value[0]).Ok? && EffectivePeer(infos.value[0]).value.Some? {
      var peer := EffectivePeer(infos.value[0]).value.value;
      var s1 := Tick(o, s);
      var peerInfos := Fetch(o, s1.queries, [peer]);
      if peerInfos.Ok? {
        DisconnectCheckedCommand(o, cfg, id, peer, infos.value[0], peerInfos.value[0], Tick(o, s1));
      }
    }
  }
}
