/** The older revision's `_connect_ports`, `_disconnect_ports`, `map_clear`
    and `map_clear_to`. Every question to the device is its own query
    (`port_connected(id)` answers the peer id, "" for none; `port_locked(id)`
    answers a flag), asked in Python's evaluation order. */
module AfmLegacyMapping {
  import opened AfmResults
  import opened AfmPorts
  import opened AfmGateway
  import opened AfmLegacyPolling

  /** `port_connected(src) or port_connected(dst)`: dst is asked only when
      src shows no peer. */
  function EitherConnected(o: Oracle, src: PortId, dst: PortId, s: DevState): (r: (bool, DevState))
    ensures r.1.log == s.log && r.1.now >= s.now
    ensures r.0 <==> o.peerOf(s.queries, src) != "" || o.peerOf(s.queries + 1, dst) != ""
    ensures r.1.queries == if o.peerOf(s.queries, src) != "" then s.queries + 1 else s.queries + 2
  {
    var (srcPeer, s1) := QueryPeer(o, src, s);
    if srcPeer != "" then (true, s1)
    else
      var (dstPeer, s2) := QueryPeer(o, dst, s1);
      (dstPeer != "", s2)
  }

  /** `_connect_ports(src, dst)`: refuse if either port has a peer, then if
      either is locked; otherwise connect and wait. */
  function ConnectRun(o: Oracle, timeout: int, src: PortId, dst: PortId, s: DevState): (Result<()>, DevState)
  {
    var (connected, s1) := EitherConnected(o, src, dst, s);
    if connected then (Err(AlreadyConnected(src, dst)), s1)
    else
      var (locked, s2) := EitherLocked(o, src, dst, s1);
      if locked then (Err(PairLocked(src, dst)), s2)
      else CommandAndAwait(o, timeout, Connection, src, dst, s2)
  }

  /** The four answers that let a connect send its command: no peer on
      either port, then no lock on either. */
  predicate ConnectAllowed(o: Oracle, src: PortId, dst: PortId, q: nat)
  {
    o.peerOf(q, src) == "" && o.peerOf(q + 1, dst) == "" && !o.lockedOf(q + 2, src) && !o.lockedOf(q + 3, dst)
  }

  /** The checks come first and in this order: a port with a peer is
      refused as already connected whatever its lock says; a lock is
      refused only once neither has a peer; the connect command is sent
      exactly when all four answers allow it, and it is the only command. */
  lemma ConnectCommandOnlyAfterChecks(o: Oracle, timeout: int, src: PortId, dst: PortId, s: DevState)
    ensures var (r, t) := ConnectRun(o, timeout, src, dst, s);
            var q := s.queries;
            && (t.log == s.log || t.log == s.log + [ConnectCmd(src, dst)])
            && (t.log != s.log <==> ConnectAllowed(o, src, dst, q))
            && (r == Err(AlreadyConnected(src, dst)) <==> o.peerOf(q, src) != "" || o.peerOf(q + 1, dst) != "")
            && (t.log == s.log ==> r.Err? && t.queries <= q + 4)
            && (r == Err(PairLocked(src, dst)) <==>
                  o.peerOf(q, src) == "" && o.peerOf(q + 1, dst) == ""
                  && (o.lockedOf(q + 2, src) || o.lockedOf(q + 3, dst)))
  {
    var (connected, s1) := EitherConnected(o, src, dst, s);
    if !connected {
      var (locked, s2) := EitherLocked(o, src, dst, s1);
      if !locked {
        CommandOutcome(o, timeout, Connection, src, dst, s2);
      }
    }
  }

  /** Connect succeeds only after the command, and only when the last pass
      saw neither port locked, src reporting dst and dst reporting src. */
  lemma ConnectSuccessMeansAgreement(o: Oracle, timeout: int, src: PortId, dst: PortId, s: DevState)
    ensures var (r, t) := ConnectRun(o, timeout, src, dst, s);
            r.Ok? ==>
              && t.log == s.log + [ConnectCmd(src, dst)]
              && t.queries >= s.queries + 8
              && PassConverged(o, Connection, src, dst, t.queries - 4)
              && o.peerOf(t.queries - 2, src) == dst && o.peerOf(t.queries - 1, dst) == src
  {
    var (connected, s1) := EitherConnected(o, src, dst, s);
    if !connected {
      var (locked, s2) := EitherLocked(o, src, dst, s1);
      if !locked {
        CommandOutcome(o, timeout, Connection, src, dst, s2);
      }
    }
  }

  /** A failure after the command is the timeout, raised only once `timeout`
      has run, or a lock reported by the last query. */
  lemma ConnectFailureAfterCommand(o: Oracle, timeout: int, src: PortId, dst: PortId, s: DevState)
    ensures var (r, t) := ConnectRun(o, timeout, src, dst, s);
            t.log != s.log && r.Err? ==>
              || (r.error == LegacyTimedOut(Connection, src, dst, timeout) && t.now - s.now >= timeout)
              || (r.error == PairLockedDuring(src, dst) && t.queries > s.queries
                  && (o.lockedOf(t.queries - 1, src) || o.lockedOf(t.queries - 1, dst)))
  {
    var (connected, s1) := EitherConnected(o, src, dst, s);
    if !connected {
      var (locked, s2) := EitherLocked(o, src, dst, s1);
      if !locked {
        CommandOutcome(o, timeout, Connection, src, dst, s2);
      }
    }
  }

  /** The consistency check of `_disconnect_ports` on the two reported
      peers: `Ok(true)` means there is nothing to disconnect, `Ok(false)`
      that the disconnect goes ahead. */
  function PairCheck(connectedDst: PortId, connectedSrc: PortId, src: PortId, dst: PortId): (r: Result<bool>)
    ensures r == Ok(true) <==> connectedDst == "" && connectedSrc == ""
    ensures r == Ok(false) <==>
              && (connectedDst != "" || connectedSrc != "")
              && (connectedSrc == "" || connectedSrc == src)
              && (connectedDst == "" || connectedDst == dst)
    ensures r.Err? ==>
              || (r.error == IncorrectSrc(dst, connectedSrc) && connectedSrc != "" && connectedSrc != src)
              || (r.error == IncorrectDst(src, connectedDst) && connectedDst != "" && connectedDst != dst
                  && (connectedSrc == "" || connectedSrc == src))
  {
    if connectedSrc == "" && connectedDst == "" then Ok(true)
    else if connectedSrc != "" && connectedSrc != src then Err(IncorrectSrc(dst, connectedSrc))
    else if connectedDst != "" && connectedDst != dst then Err(IncorrectDst(src, connectedDst))
    else Ok(false)
  }

  /** `_disconnect_ports` once src and dst are fixed: ask src's peer, then
      dst's peer, check them, refuse a lock, disconnect and wait. */
  function DisconnectPair(o: Oracle, timeout: int, src: PortId, dst: PortId, s: DevState): (Result<()>, DevState)
  {
    var (connectedDst, s1) := QueryPeer(o, src, s);
    var (connectedSrc, s2) := QueryPeer(o, dst, s1);
    match PairCheck(connectedDst, connectedSrc, src, dst)
    case Err(e) => (Err(e), s2)
    case Ok(true) => (Ok(()), s2)
    case Ok(false) =>
      var (locked, s3) := EitherLocked(o, src, dst, s2);
      if locked then (Err(PairLocked(src, dst)), s3)
      else CommandAndAwait(o, timeout, Disconnection, src, dst, s3)
  }

  /** `_disconnect_ports(*ports)`: one id is disconnected from the peer it
      reports, if any, and then that peer is asked about again like an
      explicit pair. */
  function DisconnectRun(o: Oracle, timeout: int, req: Request, s: DevState): (Result<()>, DevState)
  {
    match req
    case One(id) =>
      var (peer, s1) := QueryPeer(o, id, s);
      if peer == "" then (Ok(()), s1) else DisconnectPair(o, timeout, id, peer, s1)
    case Pair(src, dst) => DisconnectPair(o, timeout, src, dst, s)
  }

  /** The disconnect command is sent exactly when the two peer answers pass
      the consistency check and neither port is then reported locked, and it
      is the only command; a failed check or two ports without peers end the
      call after the two peer queries. */
  lemma DisconnectCommandOnlyAfterChecks(o: Oracle, timeout: int, src: PortId, dst: PortId, s: DevState)
    ensures var (r, t) := DisconnectPair(o, timeout, src, dst, s);
            var q := s.queries;
            var check := PairCheck(o.peerOf(q, src), o.peerOf(q + 1, dst), src, dst);
            && (t.log == s.log || t.log == s.log + [DisconnectCmd(src, dst)])
            && (t.log != s.log <==> check == Ok(false) && !o.lockedOf(q + 2, src) && !o.lockedOf(q + 3, dst))
            && (check.Err? ==> (r, t) == (Err(check.error), Tick(o, Tick(o, s))))
            && (check == Ok(true) ==> (r, t) == (Ok(()), Tick(o, Tick(o, s))))
            && (check == Ok(false) && (o.lockedOf(q + 2, src) || o.lockedOf(q + 3, dst)) ==> r == Err(PairLocked(src, dst)))
  {
    var s2 := Tick(o, Tick(o, s));
    if PairCheck(o.peerOf(s.queries, src), o.peerOf(s.queries + 1, dst), src, dst) == Ok(false) {
      var (locked, s3) := EitherLocked(o, src, dst, s2);
      if !locked {
        CommandOutcome(o, timeout, Disconnection, src, dst, s3);
      }
    }
  }

  /** A disconnect succeeds after its command only when the last pass saw
      neither port locked and neither reporting a peer. */
  lemma DisconnectSuccessMeansFree(o: Oracle, timeout: int, src: PortId, dst: PortId, s: DevState)
    ensures var (r, t) := DisconnectPair(o, timeout, src, dst, s);
            t.log != s.log && r.Ok? ==>
              && t.queries >= s.queries + 8
              && PassConverged(o, Disconnection, src, dst, t.queries - 4)
              && o.peerOf(t.queries - 2, src) == "" && o.peerOf(t.queries - 1, dst) == ""
  {
    var s2 := Tick(o, Tick(o, s));
    if PairCheck(o.peerOf(s.queries, src), o.peerOf(s.queries + 1, dst), src, dst) == Ok(false) {
      var (locked, s3) := EitherLocked(o, src, dst, s2);
      if !locked {
        CommandOutcome(o, timeout, Disconnection, src, dst, s3);
      }
    }
  }

  /** A failure after the disconnect command is the timeout, raised only
      once `timeout` has run, or a lock reported by the last query. */
  lemma DisconnectFailureAfterCommand(o: Oracle, timeout: int, src: PortId, dst: PortId, s: DevState)
    ensures var (r, t) := DisconnectPair(o, timeout, src, dst, s);
            t.log != s.log && r.Err? ==>
              || (r.error == LegacyTimedOut(Disconnection, src, dst, timeout) && t.now - s.now >= timeout)
              || (r.error == PairLockedDuring(src, dst) && t.queries > s.queries
                  && (o.lockedOf(t.queries - 1, src) || o.lockedOf(t.queries - 1, dst)))
  {
    var s2 := Tick(o, Tick(o, s));
    if PairCheck(o.peerOf(s.queries, src), o.peerOf(s.queries + 1, dst), src, dst) == Ok(false) {
      var (locked, s3) := EitherLocked(o, src, dst, s2);
      if !locked {
        CommandOutcome(o, timeout, Disconnection, src, dst, s3);
      }
    }
  }

  /** Disconnecting one port: with no reported peer it succeeds after one
      query; otherwise the only command it can send is the disconnect of the
      port from the peer its first answer named, and only if the second and
      third answers (the port's and the peer's peers, asked again) pass the
      consistency check. */
  lemma DisconnectOneOutcome(o: Oracle, timeout: int, id: PortId, s: DevState)
    ensures var (r, t) := DisconnectRun(o, timeout, One(id), s);
            var q := s.queries;
            var peer := o.peerOf(q, id);
            && (peer == "" ==> (r, t) == (Ok(()), Tick(o, s)))
            && (t.log != s.log ==>
                  && peer != ""
                  && t.log == s.log + [DisconnectCmd(id, peer)]
                  && PairCheck(o.peerOf(q + 1, id), o.peerOf(q + 2, peer), id, peer) == Ok(false))
  {
    if o.peerOf(s.queries, id) != "" {
      DisconnectCommandOnlyAfterChecks(o, timeout, id, o.peerOf(s.queries, id), Tick(o, s));
    }
  }

  /** One step per address, in order, stopping at the first failure, whose
      error is the result; later addresses are not looked at. */
  function SweepUntilFailure(step: (string, DevState) -> (Result<()>, DevState), addresses: seq<string>,
                             s: DevState): (Result<()>, DevState)
    decreases |addresses|
  {
    if addresses == [] then (Ok(()), s)
    else
      var (r, s1) := step(addresses[0], s);
      if r.Err? then (r, s1) else SweepUntilFailure(step, addresses[1..], s1)
  }

  /** Sweeping `a + b` is sweeping `a` and, only if that succeeded, sweeping
      `b` from the state it left; after a failure in `a` the result and the
      state are exactly those `a` alone produced. */
  lemma {:induction false} SweepUntilFailureSplit(step: (string, DevState) -> (Result<()>, DevState),
                                                  a: seq<string>, b: seq<string>, s: DevState)
    ensures var (ra, mid) := SweepUntilFailure(step, a, s);
            SweepUntilFailure(step, a + b, s) == if ra.Err? then (ra, mid) else SweepUntilFailure(step, b, mid)
    decreases |a|
  {
    if a == [] {
      assert a + b == b;
    } else {
      assert (a + b)[0] == a[0];
      assert (a + b)[1..] == a[1..] + b;
      var (r, s1) := step(a[0], s);
      if r.Ok? {
        SweepUntilFailureSplit(step, a[1..], b, s1);
      }
    }
  }

  /** A sweep succeeds only if every step succeeded, each from the state the
      steps before it left. */
  lemma SweepUntilFailureOk(step: (string, DevState) -> (Result<()>, DevState), addresses: seq<string>,
                            s: DevState)
    ensures SweepUntilFailure(step, addresses, s).0.Ok? ==>
              forall i :: 0 <= i < |addresses| ==>
                SweepUntilFailure(step, addresses[..i], s).0.Ok?
                && step(addresses[i], SweepUntilFailure(step, addresses[..i], s).1).0.Ok?
  {
    if SweepUntilFailure(step, addresses, s).0.Ok? {
      forall i | 0 <= i < |addresses|
        ensures SweepUntilFailure(step, addresses[..i], s).0.Ok?
        ensures step(addresses[i], SweepUntilFailure(step, addresses[..i], s).1).0.Ok?
      {
        var a, b := addresses[..i], addresses[i..];
        assert a + b == addresses;
        SweepUntilFailureSplit(step, a, b, s);
        assert b[0] == addresses[i];
      }
    }
  }

  /** The step of the older `map_clear`: disconnect the port an address
      names. */
  function ClearStep(o: Oracle, timeout: int): (string, DevState) -> (Result<()>, DevState)
  {
    (address: string, t: DevState) => DisconnectRun(o, timeout, One(ConvertPort(address)), t)
  }

  /** `map_clear(ports)` of the older revision: an exception propagates out
      of the loop. */
  function ClearRun(o: Oracle, timeout: int, addresses: seq<string>, s: DevState): (Result<()>, DevState)
  {
    SweepUntilFailure(ClearStep(o, timeout), addresses, s)
  }

  /** The older clear stops at the first port that fails: once `a` has
      failed, appending `b` changes neither the result nor the state (no
      query, no command), and it succeeds only if every port's disconnect
      did, each from the state the earlier ones left. */
  lemma ClearStopsAtFirstFailure(o: Oracle, timeout: int, a: seq<string>, b: seq<string>, s: DevState)
    ensures ClearRun(o, timeout, a, s).0.Err? ==> ClearRun(o, timeout, a + b, s) == ClearRun(o, timeout, a, s)
    ensures ClearRun(o, timeout, a, s).0.Ok? ==>
              ClearRun(o, timeout, a + b, s) == ClearRun(o, timeout, b, ClearRun(o, timeout, a, s).1)
    ensures ClearRun(o, timeout, a, s).0.Ok? ==>
              forall i :: 0 <= i < |a| ==>
                DisconnectRun(o, timeout, One(ConvertPort(a[i])), ClearRun(o, timeout, a[..i], s).1).0.Ok?
  {
    SweepUntilFailureSplit(ClearStep(o, timeout), a, b, s);
    SweepUntilFailureOk(ClearStep(o, timeout), a, s);
  }

  /** `map_clear_to(src, dsts)` of the older revision. */
  function ClearToRun(o: Oracle, timeout: int, srcAddress: string, dstAddresses: seq<string>, s: DevState)
    : (Result<()>, DevState)
  {
    if |dstAddresses| != 1 then (Err(MultipleDst), s)
    else DisconnectRun(o, timeout, Pair(ConvertPort(srcAddress), ConvertPort(dstAddresses[0])), s)
  }

  /** More or fewer than one destination fails with no query and no
      command; with one, the only command possible is the pair's
      disconnect. */
  lemma ClearToOutcome(o: Oracle, timeout: int, srcAddress: string, dstAddresses: seq<string>, s: DevState)
    ensures |dstAddresses| != 1 ==> ClearToRun(o, timeout, srcAddress, dstAddresses, s) == (Err(MultipleDst), s)
    ensures |dstAddresses| == 1 ==>
              var (r, t) := ClearToRun(o, timeout, srcAddress, dstAddresses, s);
              t.log == s.log || t.log == s.log + [DisconnectCmd(ConvertPort(srcAddress), ConvertPort(dstAddresses[0]))]
  {
    if |dstAddresses| == 1 {
      var src, dst := ConvertPort(srcAddress), ConvertPort(dstAddresses[0]);
      DisconnectCommandOnlyAfterChecks(o, timeout, src, dst, s);
      assert ClearToRun(o, timeout, srcAddress, dstAddresses, s) == DisconnectPair(o, timeout, src, dst, s);
    }
  }

  /** `set_attribute_value` of the older revision does nothing and raises
      nothing, whatever the attribute. */
  function SetAttributeValue(address: string, name: string, value: string): (r: Result<()>)
    ensures r.Ok?
  {
    Ok(())
  }
}
