/** The newer revision's pure checks over typed port status: the effective
    peer of a port, the lock/disable guard, the checks made before a
    mutating command, and the verdict of one convergence poll. */
module AfmStatus {
  import opened AfmResults
  import opened AfmPorts

  /** `_get_connected_port`: the peer a port is connected to, derived from
      its two sides. A side pointing elsewhere than the other is a fatal
      mismatch; one side alone connected is a partial connection (an
      in-flight transition on the device). */
  function EffectivePeer(info: PortInfo): (r: Result<Option<PortId>>)
    ensures r == Ok(None) <==> !HasPeer(info.east) && !HasPeer(info.west)
    ensures (r.Ok? && r.value.Some?) <==> HasPeer(info.east) && info.east.connected == info.west.connected
    ensures r.Ok? && r.value.Some? ==> r.value.value == info.east.connected == info.west.connected != ""
    ensures r == Err(Mismatched(info.portId)) <==>
              HasPeer(info.east) && HasPeer(info.west) && info.east.connected != info.west.connected
    ensures r == Err(PartiallyConnected(info.portId)) <==> HasPeer(info.east) != HasPeer(info.west)
  {
    var east, west := info.east.connected, info.west.connected;
    if east != "" && west != "" then
      if east == west then Ok(Some(east)) else Err(Mismatched(info.portId))
    else if east == "" && west == "" then Ok(None)
    else Err(PartiallyConnected(info.portId))
  }

  /** The effective peer does not depend on which face is called east. */
  lemma EffectivePeerSymmetric(info: PortInfo)
    ensures EffectivePeer(info.(east := info.west, west := info.east)) == EffectivePeer(info)
  {
  }

  predicate IsLocked(info: PortInfo)
  {
    info.east.locked || info.west.locked
  }

  predicate IsDisabled(info: PortInfo)
  {
    info.east.disabled || info.west.disabled
  }

  /** `_check_port_locked_or_disabled`: a lock on either side fails first;
      then a disable on either side. */
  function CheckMutable(info: PortInfo): (r: Result<()>)
    ensures r.Ok? <==> !IsLocked(info) && !IsDisabled(info)
    ensures r == Err(Locked(info.portId)) <==> IsLocked(info)
    ensures r == Err(Disabled(info.portId)) <==> !IsLocked(info) && IsDisabled(info)
  {
    if IsLocked(info) then Err(Locked(info.portId))
    else if IsDisabled(info) then Err(Disabled(info.portId))
    else Ok(())
  }

  predicate Unconnected(info: PortInfo)
  {
    EffectivePeer(info) == Ok(None)
  }

  /** The checks `_connect_ports` makes before it sends the connect command:
      the guards of src then dst, then "either already has a peer" (src's
      peer is computed first and short-circuits, and a mismatch or partial
      connection found here is raised, not tolerated). */
  function ConnectPrecheck(si: PortInfo, di: PortInfo, src: PortId, dst: PortId): (r: Result<()>)
    ensures r.Ok? <==> CheckMutable(si).Ok? && CheckMutable(di).Ok? && Unconnected(si) && Unconnected(di)
    ensures CheckMutable(si).Err? ==> r == CheckMutable(si)
    ensures CheckMutable(si).Ok? && CheckMutable(di).Err? ==> r == CheckMutable(di)
    ensures CheckMutable(si).Ok? && CheckMutable(di).Ok? && EffectivePeer(si).Ok? && EffectivePeer(si).value.Some?
            ==> r == Err(AlreadyConnected(src, dst))
    ensures CheckMutable(si).Ok? && CheckMutable(di).Ok? && EffectivePeer(si).Err? ==> r == Err(EffectivePeer(si).error)
    ensures CheckMutable(si).Ok? && CheckMutable(di).Ok? && Unconnected(si) && EffectivePeer(di).Err?
            ==> r == Err(EffectivePeer(di).error)
    ensures (CheckMutable(si).Ok? && CheckMutable(di).Ok? && Unconnected(si)
             && EffectivePeer(di).Ok? && EffectivePeer(di).value.Some?) ==> r == Err(AlreadyConnected(src, dst))
    ensures r.Err? ==> r.error in {Locked(si.portId), Disabled(si.portId), Locked(di.portId), Disabled(di.portId),
                                   Mismatched(si.portId), PartiallyConnected(si.portId),
                                   Mismatched(di.portId), PartiallyConnected(di.portId),
                                   AlreadyConnected(src, dst)}
  {
    var guardSrc := CheckMutable(si);
    if guardSrc.Err? then guardSrc
    else
      var guardDst := CheckMutable(di);
      if guardDst.Err? then guardDst
      else
        match EffectivePeer(si)
        case Err(e) => Err(e)
        case Ok(Some(_)) => Err(AlreadyConnected(src, dst))
        case Ok(None) =>
          match EffectivePeer(di)
          case Err(e) => Err(e)
          case Ok(Some(_)) => Err(AlreadyConnected(src, dst))
          case Ok(None) => Ok(())
  }

  /** The checks `_disconnect_ports` makes on the two resolved ports before
      it sends the disconnect command. `Ok(true)`: both already show no
      peer, nothing to do. `Ok(false)`: each names the other, neither is
      locked or disabled, send the command. The peer consistency checks
      precede the guards, and a missing peer on one side is an error. */
  function DisconnectPrecheck(si: PortInfo, di: PortInfo, src: PortId, dst: PortId): (r: Result<bool>)
    ensures r == Ok(true) <==> Unconnected(si) && Unconnected(di)
    ensures r == Ok(false) <==>
              && EffectivePeer(si) == Ok(Some(dst)) && EffectivePeer(di) == Ok(Some(src))
              && CheckMutable(si).Ok? && CheckMutable(di).Ok?
    ensures (EffectivePeer(si).Ok? && EffectivePeer(di).Ok? && !(Unconnected(si) && Unconnected(di))
             && EffectivePeer(si) != Ok(Some(dst))) ==> r == Err(NotConnectedTo(src, dst))
    ensures EffectivePeer(si) == Ok(Some(dst)) && EffectivePeer(di).Ok? && EffectivePeer(di) != Ok(Some(src))
            ==> r == Err(NotConnectedTo(dst, src))
    ensures EffectivePeer(si).Err? ==> r == Err(EffectivePeer(si).error)
    ensures (Unconnected(si) || EffectivePeer(si) == Ok(Some(dst))) && EffectivePeer(di).Err?
            ==> r == Err(EffectivePeer(di).error)
    ensures r.Err? && r.error in {Locked(si.portId), Disabled(si.portId), Locked(di.portId), Disabled(di.portId)}
            ==> EffectivePeer(si) == Ok(Some(dst)) && EffectivePeer(di) == Ok(Some(src))
    ensures EffectivePeer(si) == Ok(Some(dst)) && EffectivePeer(di) == Ok(Some(src)) && CheckMutable(si).Err?
            ==> r == Err(CheckMutable(si).error)
    ensures (EffectivePeer(si) == Ok(Some(dst)) && EffectivePeer(di) == Ok(Some(src)) && CheckMutable(si).Ok?
             && CheckMutable(di).Err?) ==> r == Err(CheckMutable(di).error)
  {
    match EffectivePeer(si)
    case Err(e) => Err(e)
    case Ok(peerSrc) =>
      if peerSrc.None? then
        match EffectivePeer(di)
        case Err(e) => Err(e)
        case Ok(peerDst) => if peerDst.None? then Ok(true) else Err(NotConnectedTo(src, dst))
      else if peerSrc != Some(dst) then Err(NotConnectedTo(src, dst))
      else
        match EffectivePeer(di)
        case Err(e) => Err(e)
        case Ok(peerDst) =>
          if peerDst != Some(src) then Err(NotConnectedTo(dst, src))
          else
            var guardSrc := CheckMutable(si);
            if guardSrc.Err? then Err(guardSrc.error)
            else
              var guardDst := CheckMutable(di);
              if guardDst.Err? then Err(guardDst.error)
              else Ok(false)
  }

  /** The effective peer a port shows once `goal` holds for it: `other` for
      a connection, none for a disconnection. */
  function GoalPeer(goal: Goal, other: PortId): Result<Option<PortId>>
  {
    if goal == Connection then Ok(Some(other)) else Ok(None)
  }

  /** What one iteration of a polling loop concludes. */
  datatype Verdict = Converged | Retry | Abort(error: Error)

  /** One poll of `_connect_ports` / `_disconnect_ports` over a fresh pair
      of status rows: the guards of src then dst (a lock or disable aborts),
      then the goal test, in which a partial connection is caught and
      retried while a mismatch escapes and aborts. For a connection the
      goal is that each port's effective peer is the other; for a
      disconnection, that neither has one. */
  function PollVerdict(goal: Goal, si: PortInfo, di: PortInfo, src: PortId, dst: PortId): (v: Verdict)
    ensures CheckMutable(si).Err? ==> v == Abort(CheckMutable(si).error)
    ensures CheckMutable(si).Ok? && CheckMutable(di).Err? ==> v == Abort(CheckMutable(di).error)
    ensures goal == Connection ==>
              (v == Converged <==> CheckMutable(si).Ok? && CheckMutable(di).Ok?
                                   && EffectivePeer(si) == Ok(Some(dst)) && EffectivePeer(di) == Ok(Some(src)))
    ensures goal == Disconnection ==>
              (v == Converged <==> CheckMutable(si).Ok? && CheckMutable(di).Ok? && Unconnected(si) && Unconnected(di))
    ensures v.Abort? <==>
              || CheckMutable(si).Err? || CheckMutable(di).Err?
              || EffectivePeer(si) == Err(Mismatched(si.portId))
              || (EffectivePeer(si) == GoalPeer(goal, dst) && EffectivePeer(di) == Err(Mismatched(di.portId)))
    ensures v.Abort? ==> v.error in {Locked(si.portId), Disabled(si.portId), Locked(di.portId), Disabled(di.portId),
                                     Mismatched(si.portId), Mismatched(di.portId)}
    ensures CheckMutable(si).Ok? && CheckMutable(di).Ok? && EffectivePeer(si) == Err(PartiallyConnected(si.portId))
            ==> v == Retry
    ensures (CheckMutable(si).Ok? && CheckMutable(di).Ok? && EffectivePeer(si).Ok?
             && EffectivePeer(di) == Err(PartiallyConnected(di.portId))) ==> v == Retry
    ensures CheckMutable(si).Ok? && CheckMutable(di).Ok? && EffectivePeer(si) == Err(Mismatched(si.portId))
            ==> v == Abort(Mismatched(si.portId))
    ensures (CheckMutable(si).Ok? && CheckMutable(di).Ok? && EffectivePeer(si) == GoalPeer(goal, dst)
             && EffectivePeer(di) == Err(Mismatched(di.portId))) ==> v == Abort(Mismatched(di.portId))
  {
    var guardSrc := CheckMutable(si);
    if guardSrc.Err? then Abort(guardSrc.error)
    else
      var guardDst := CheckMutable(di);
      if guardDst.Err? then Abort(guardDst.error)
      else
        match EffectivePeer(si)
        case Err(PartiallyConnected(_)) => Retry
        case Err(e) => Abort(e)
        case Ok(peerSrc) =>
          if goal == Connection && peerSrc != Some(dst) then Retry
          else if goal == Disconnection && peerSrc.Some? then Retry
          else
            match EffectivePeer(di)
            case Err(PartiallyConnected(_)) => Retry
            case Err(e) => Abort(e)
            case Ok(peerDst) =>
              if goal == Connection && peerDst == Some(src) then Converged
              else if goal == Disconnection && peerDst.None? then Converged
              else Retry
  }
}
