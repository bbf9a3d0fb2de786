/** The older revision's convergence loop. After the command, every pass
    asks the device, one query per question and in Python's short-circuit
    order, whether src and then dst is locked and what src and then dst is
    connected to, and sleeps a fixed five seconds when the ports have not
    settled yet. */
module AfmLegacyPolling {
  import opened AfmResults
  import opened AfmPorts
  import opened AfmGateway
  import opened AfmStatus
  import AfmConvergence

  /** The fixed sleep between two passes of the older loop. */
  const Delay: nat := 5

  /** Whether a reported peer is what `goal` waits for: the other port for a
      connection, no peer at all for a disconnection. */
  predicate Settled(goal: Goal, peer: PortId, other: PortId)
  {
    if goal == Connection then peer == other else peer == ""
  }

  /** `port_locked(src) or port_locked(dst)`: dst is asked only when src is
      not locked. */
  function EitherLocked(o: Oracle, src: PortId, dst: PortId, s: DevState): (r: (bool, DevState))
    ensures r.1.log == s.log && r.1.now >= s.now
    ensures r.0 <==> o.lockedOf(s.queries, src) || o.lockedOf(s.queries + 1, dst)
    ensures r.1.queries == if o.lockedOf(s.queries, src) then s.queries + 1 else s.queries + 2
  {
    var (srcLocked, s1) := QueryLocked(o, src, s);
    if srcLocked then (true, s1) else QueryLocked(o, dst, s1)
  }

  /** One pass of the loop body: a lock on either port aborts; otherwise the
      ports have converged when src's peer and then dst's peer are settled. */
  function PollOnce(o: Oracle, goal: Goal, src: PortId, dst: PortId, s: DevState): (r: (Verdict, DevState))
    ensures r.1.log == s.log && r.1.now >= s.now
  {
    var (locked, s1) := EitherLocked(o, src, dst, s);
    if locked then (Abort(PairLockedDuring(src, dst)), s1)
    else
      var (srcPeer, s2) := QueryPeer(o, src, s1);
      if !Settled(goal, srcPeer, dst) then (Retry, s2)
      else
        var (dstPeer, s3) := QueryPeer(o, dst, s2);
        if Settled(goal, dstPeer, src) then (Converged, s3) else (Retry, s3)
  }

  /** The four answers of a pass that starts at query `q` and converges:
      neither port locked, then both peers settled. */
  predicate PassConverged(o: Oracle, goal: Goal, src: PortId, dst: PortId, q: nat)
  {
    && !o.lockedOf(q, src) && !o.lockedOf(q + 1, dst)
    && Settled(goal, o.peerOf(q + 2, src), dst) && Settled(goal, o.peerOf(q + 3, dst), src)
  }

  /** One pass makes between one and four queries, and it converges exactly
      when neither port was reported locked and both reported peers are
      settled, after exactly those four queries. */
  lemma PollOnceConverges(o: Oracle, goal: Goal, src: PortId, dst: PortId, s: DevState)
    ensures var (v, t) := PollOnce(o, goal, src, dst, s);
            var q := s.queries;
            && s.queries < t.queries <= s.queries + 4
            && (v == Converged <==> PassConverged(o, goal, src, dst, q))
            && (v == Converged ==> t.queries == q + 4)
  {
  }

  /** One pass aborts exactly when a lock was reported, with the "has been
      locked" error, and the last query it made is the one that reported it. */
  lemma PollOnceAborts(o: Oracle, goal: Goal, src: PortId, dst: PortId, s: DevState)
    ensures var (v, t) := PollOnce(o, goal, src, dst, s);
            var q := s.queries;
            && s.queries < t.queries
            && (v.Abort? <==> o.lockedOf(q, src) || o.lockedOf(q + 1, dst))
            && (v.Abort? ==> v.error == PairLockedDuring(src, dst)
                             && (o.lockedOf(t.queries - 1, src) || o.lockedOf(t.queries - 1, dst)))
  {
  }

  /** `while time.time() - start_time < timeout`: pass after pass, sleeping
      between them, until the ports settle, a lock is seen, or the deadline
      has passed at the top of the loop. */
  function Await(o: Oracle, goal: Goal, src: PortId, dst: PortId, start: int, timeout: int, s: DevState)
    : (AfmConvergence.Poll, DevState)
    decreases start + timeout - s.now
  {
    if s.now - start >= timeout then (AfmConvergence.Expired, s)
    else
      var (v, s1) := PollOnce(o, goal, src, dst, s);
      match v
      case Converged => (AfmConvergence.Reached, s1)
      case Abort(e) => (AfmConvergence.Failed(e), s1)
      case Retry => Await(o, goal, src, dst, start, timeout, Slept(s1, Delay))
  }

  /** The loop only observes, and it polls at all exactly when it starts
      before the deadline; expiry happens only once `timeout` has run. */
  lemma {:induction false} AwaitClock(o: Oracle, goal: Goal, src: PortId, dst: PortId, start: int, timeout: int,
                                      s: DevState)
    ensures var (p, t) := Await(o, goal, src, dst, start, timeout, s);
            && t.log == s.log && t.now >= s.now
            && (t.queries > s.queries <==> s.now - start < timeout)
            && (t.queries >= s.queries)
            && (p == AfmConvergence.Expired ==> t.now - start >= timeout)
    decreases start + timeout - s.now
  {
    if s.now - start < timeout {
      var (v, s1) := PollOnce(o, goal, src, dst, s);
      PollOnceConverges(o, goal, src, dst, s);
      if v == Retry {
        assert Await(o, goal, src, dst, start, timeout, s) == Await(o, goal, src, dst, start, timeout, Slept(s1, Delay));
        AwaitClock(o, goal, src, dst, start, timeout, Slept(s1, Delay));
      }
    }
  }

  /** The loop ends in success only right after a pass that saw both ports
      unlocked and settled. */
  lemma {:induction false} AwaitReached(o: Oracle, goal: Goal, src: PortId, dst: PortId, start: int, timeout: int,
                                        s: DevState)
    ensures var (p, t) := Await(o, goal, src, dst, start, timeout, s);
            p == AfmConvergence.Reached ==>
              t.queries >= s.queries + 4 && PassConverged(o, goal, src, dst, t.queries - 4)
    decreases start + timeout - s.now
  {
    if s.now - start < timeout {
      var (v, s1) := PollOnce(o, goal, src, dst, s);
      PollOnceConverges(o, goal, src, dst, s);
      if v == Retry {
        assert Await(o, goal, src, dst, start, timeout, s) == Await(o, goal, src, dst, start, timeout, Slept(s1, Delay));
        AwaitReached(o, goal, src, dst, start, timeout, Slept(s1, Delay));
      } else if v == Converged {
        assert Await(o, goal, src, dst, start, timeout, s) == (AfmConvergence.Reached, s1);
      }
    }
  }

  /** The loop ends in failure only right after a pass whose last query
      reported a lock. */
  lemma {:induction false} AwaitFailed(o: Oracle, goal: Goal, src: PortId, dst: PortId, start: int, timeout: int,
                                       s: DevState)
    ensures var (p, t) := Await(o, goal, src, dst, start, timeout, s);
            p.Failed? ==>
              && p.error == PairLockedDuring(src, dst) && t.queries > s.queries
              && (o.lockedOf(t.queries - 1, src) || o.lockedOf(t.queries - 1, dst))
    decreases start + timeout - s.now
  {
    if s.now - start < timeout {
      var (v, s1) := PollOnce(o, goal, src, dst, s);
      PollOnceAborts(o, goal, src, dst, s);
      if v == Retry {
        assert Await(o, goal, src, dst, start, timeout, s) == Await(o, goal, src, dst, start, timeout, Slept(s1, Delay));
        AwaitFailed(o, goal, src, dst, start, timeout, Slept(s1, Delay));
      } else if v.Abort? {
        assert Await(o, goal, src, dst, start, timeout, s) == (AfmConvergence.Failed(v.error), s1);
      }
    }
  }

  /** The command for `goal`, then the loop from the time it was sent, then
      the raise of the timeout if the loop expired. */
  function CommandAndAwait(o: Oracle, timeout: int, goal: Goal, src: PortId, dst: PortId, s: DevState)
    : (Result<()>, DevState)
  {
    var s1 := Issue(s, AfmConvergence.CommandFor(goal, src, dst));
    var (p, t) := Await(o, goal, src, dst, s1.now, timeout, s1);
    (AfmConvergence.Finish(p, LegacyTimedOut(goal, src, dst, timeout)), t)
  }

  /** After the command: it is the one command sent; the device is polled
      exactly when the timeout is positive; success means the last pass saw
      both ports unlocked and settled; failure is either the timeout, raised
      only once `timeout` has run since the command, or a lock reported by
      the last query. */
  lemma CommandOutcome(o: Oracle, timeout: int, goal: Goal, src: PortId, dst: PortId, s: DevState)
    ensures var (r, t) := CommandAndAwait(o, timeout, goal, src, dst, s);
            && t.log == s.log + [AfmConvergence.CommandFor(goal, src, dst)]
            && (t.queries > s.queries <==> timeout > 0)
            && (r.Ok? ==> t.queries >= s.queries + 4 && PassConverged(o, goal, src, dst, t.queries - 4))
            && (r.Err? ==>
                  || (r.error == LegacyTimedOut(goal, src, dst, timeout) && t.now - s.now >= timeout)
                  || (r.error == PairLockedDuring(src, dst) && t.queries > s.queries
                      && (o.lockedOf(t.queries - 1, src) || o.lockedOf(t.queries - 1, dst))))
  {
    var s1 := Issue(s, AfmConvergence.CommandFor(goal, src, dst));
    AwaitClock(o, goal, src, dst, s1.now, timeout, s1);
    AwaitReached(o, goal, src, dst, s1.now, timeout, s1);
    AwaitFailed(o, goal, src, dst, s1.now, timeout, s1);
  }

  /** The older loop on the live gateway. */
  method AwaitState(dev: Gateway, goal: Goal, src: PortId, dst: PortId, start: int, timeout: int)
    returns (p: AfmConvergence.Poll)
    modifies dev
    ensures (p, dev.State()) == Await(dev.oracle, goal, src, dst, start, timeout, old(dev.State()))
  {
    var now := dev.Time();
    while now - start < timeout
      invariant now == dev.now
      invariant Await(dev.oracle, goal, src, dst, start, timeout, dev.State())
             == Await(dev.oracle, goal, src, dst, start, timeout, old(dev.State()))
      decreases start + timeout - dev.now
    {
      var srcLocked := dev.PortLocked(src);
      if srcLocked {
        return AfmConvergence.Failed(PairLockedDuring(src, dst));
      }
      var dstLocked := dev.PortLocked(dst);
      if dstLocked {
        return AfmConvergence.Failed(PairLockedDuring(src, dst));
      }
      var srcPeer := dev.PortConnected(src);
      if Settled(goal, srcPeer, dst) {
        var dstPeer := dev.PortConnected(dst);
        if Settled(goal, dstPeer, src) {
          return AfmConvergence.Reached;
        }
      }
      dev.Sleep(Delay);
      now := dev.Time();
    }
    return AfmConvergence.Expired;
  }
}
