/** The newer revision's convergence loop: after the mutating command,
    re-read both ports until they show the goal state, a guard or a
    mismatch aborts, or the timeout measured from just after the command
    elapses. */
module AfmConvergence {
  import opened AfmResults
  import opened AfmPorts
  import opened AfmGateway
  import opened AfmStatus

  /** `MAPPING.TIMEOUT` and `MAPPING.CHECK_DELAY`, in clock ticks. */
  datatype Config = Config(timeout: int, delay: nat)

  /** How a polling loop ends. */
  datatype Poll = Reached | Failed(error: Error) | Expired

  /** The verdict of a poll whose `ports_info(src, dst)` is the k-th query. */
  function PollAt(o: Oracle, goal: Goal, src: PortId, dst: PortId, k: nat): Verdict
  {
    var infos := Fetch(o, k, [src, dst]);
    if infos.Err? then Abort(infos.error)
    else PollVerdict(goal, infos.value[0], infos.value[1], src, dst)
  }

  /** The verdicts of the polls of one loop: `PollAt` for each query index. */
  function Polls(o: Oracle, goal: Goal, src: PortId, dst: PortId): nat -> Verdict
  {
    (k: nat) => PollAt(o, goal, src, dst, k)
  }

  /** The loop `while time.time() - start < timeout: poll; sleep(delay)`,
      from device state `s`, where the poll made as the k-th query of the
      device concludes `verdicts(k)`: how the loop ends and the device state
      it leaves. */
  function Await(o: Oracle, verdicts: nat -> Verdict, delay: nat, start: int, timeout: int, s: DevState)
    : (Poll, DevState)
    requires delay > 0
    decreases start + timeout - s.now
  {
    if !(s.now - start < timeout) then (Expired, s)
    else
      var s1 := Tick(o, s);
      match verdicts(s.queries)
      case Converged => (Reached, s1)
      case Abort(e) => (Failed(e), s1)
      case Retry => Await(o, verdicts, delay, start, timeout, Slept(s1, delay))
  }

  /** Polling sends no command; queries and time only move forward. */
  lemma {:induction false} AwaitOnlyObserves(o: Oracle, verdicts: nat -> Verdict, delay: nat,
                                             start: int, timeout: int, s: DevState)
    requires delay > 0
    ensures var (_, t) := Await(o, verdicts, delay, start, timeout, s);
            t.log == s.log && t.queries >= s.queries && t.now >= s.now
    decreases start + timeout - s.now
  {
    if s.now - start < timeout && verdicts(s.queries).Retry? {
      AwaitOnlyObserves(o, verdicts, delay, start, timeout, Slept(Tick(o, s), delay));
    }
  }

  /** The loop polls at least once exactly when it starts before the
      deadline; every poll but the deciding last one saw `Retry` (all of
      them did on expiry); reaching the goal or failing is the verdict of
      the last poll. */
  lemma {:induction false} AwaitVerdicts(o: Oracle, verdicts: nat -> Verdict, delay: nat,
                                         start: int, timeout: int, s: DevState)
    requires delay > 0
    ensures var (p, t) := Await(o, verdicts, delay, start, timeout, s);
            && (t.queries > s.queries <==> s.now - start < timeout)
            && (p.Reached? || p.Failed? ==> t.queries > s.queries)
            && (forall k :: s.queries <= k < t.queries && (k < t.queries - 1 || p.Expired?) ==> verdicts(k) == Retry)
            && (p == Reached ==> verdicts(t.queries - 1) == Converged)
            && (p.Failed? ==> verdicts(t.queries - 1) == Abort(p.error))
    decreases start + timeout - s.now
  {
    if s.now - start < timeout && verdicts(s.queries).Retry? {
      AwaitVerdicts(o, verdicts, delay, start, timeout, Slept(Tick(o, s), delay));
    }
  }

  /** Expiry means the clock reached the deadline, and overshot it by less
      than one delay plus the last poll's latency; a loop that reached a
      verdict took its last poll before the deadline. */
  lemma {:induction false} AwaitClock(o: Oracle, verdicts: nat -> Verdict, delay: nat,
                                      start: int, timeout: int, s: DevState)
    requires delay > 0
    ensures var (p, t) := Await(o, verdicts, delay, start, timeout, s);
            && (p == Expired ==> t.now - start >= timeout)
            && (p == Expired && t.queries > s.queries ==>
                  t.now < start + timeout + delay + o.latency(t.queries - 1))
            && (p != Expired ==> t.queries > s.queries && t.now - o.latency(t.queries - 1) - start < timeout)
    decreases start + timeout - s.now
  {
    if s.now - start < timeout && verdicts(s.queries).Retry? {
      var s1 := Slept(Tick(o, s), delay);
      AwaitClock(o, verdicts, delay, start, timeout, s1);
      AwaitVerdicts(o, verdicts, delay, start, timeout, s1);
      if !(s1.now - start < timeout) {
        assert Await(o, verdicts, delay, start, timeout, s) == (Expired, s1);
        assert s1.now == s.now + o.latency(s1.queries - 1) + delay;
      }
    }
  }

  /** A poll never surfaces a partial connection: it aborts only on a lock,
      a disable, a mismatch or a failed status query. */
  lemma NoPartialAbort(o: Oracle, goal: Goal, src: PortId, dst: PortId, k: nat)
    ensures PollAt(o, goal, src, dst, k).Abort? ==> !PollAt(o, goal, src, dst, k).error.PartiallyConnected?
  {
    var infos := Fetch(o, k, [src, dst]);
    if infos.Ok? {
      var v := PollVerdict(goal, infos.value[0], infos.value[1], src, dst);
      assert v.Abort? ==> v.error in {Locked(infos.value[0].portId), Disabled(infos.value[0].portId),
                                      Locked(infos.value[1].portId), Disabled(infos.value[1].portId),
                                      Mismatched(infos.value[0].portId), Mismatched(infos.value[1].portId)};
    }
  }

  /** The status rows of the k-th query, as a poll for `goal` reads them:
      both ports answered, both mutable, neither source nor destination
      mismatched, and whether each shows its goal peer. */
  predicate RowsMutable(o: Oracle, src: PortId, dst: PortId, k: nat)
  {
    var infos := Fetch(o, k, [src, dst]);
    && infos.Ok?
    && CheckMutable(infos.value[0]).Ok? && CheckMutable(infos.value[1]).Ok?
  }

  /** Rows a poll keeps waiting on: mutable, with no mismatch, and not yet
      both at the goal (a partial connection is allowed). */
  predicate RowsPending(o: Oracle, goal: Goal, src: PortId, dst: PortId, k: nat)
  {
    && RowsMutable(o, src, dst, k)
    && var infos := Fetch(o, k, [src, dst]);
       && EffectivePeer(infos.value[0]) != Err(Mismatched(infos.value[0].portId))
       && EffectivePeer(infos.value[1]) != Err(Mismatched(infos.value[1].portId))
       && !(EffectivePeer(infos.value[0]) == GoalPeer(goal, dst) && EffectivePeer(infos.value[1]) == GoalPeer(goal, src))
  }

  /** Rows that end the loop in success: mutable and both at the goal. */
  predicate RowsSettled(o: Oracle, goal: Goal, src: PortId, dst: PortId, k: nat)
  {
    && RowsMutable(o, src, dst, k)
    && var infos := Fetch(o, k, [src, dst]);
       EffectivePeer(infos.value[0]) == GoalPeer(goal, dst) && EffectivePeer(infos.value[1]) == GoalPeer(goal, src)
  }

  /** A poll over pending rows is retried; a poll over settled rows
      converges. */
  lemma PollAtRows(o: Oracle, goal: Goal, src: PortId, dst: PortId, k: nat)
    ensures RowsPending(o, goal, src, dst, k) ==> PollAt(o, goal, src, dst, k) == Retry
    ensures RowsSettled(o, goal, src, dst, k) ==> PollAt(o, goal, src, dst, k) == Converged
  {
    var infos := Fetch(o, k, [src, dst]);
    if infos.Ok? {
      var si, di := infos.value[0], infos.value[1];
      var v := PollVerdict(goal, si, di, src, dst);
      assert PollAt(o, goal, src, dst, k) == v;
    }
  }

  /** The device state after `n` polls that each saw `Retry`. */
  function AfterRetries(o: Oracle, delay: nat, s: DevState, n: nat): (t: DevState)
    ensures t.log == s.log && t.queries == s.queries + n && t.now >= s.now
    decreases n
  {
    if n == 0 then s else AfterRetries(o, delay, Slept(Tick(o, s), delay), n - 1)
  }

  /** When every query takes no time, `n` retried polls take `n` delays. */
  lemma {:induction false} AfterRetriesClock(o: Oracle, delay: nat, s: DevState, n: nat)
    requires forall k :: o.latency(k) == 0
    ensures AfterRetries(o, delay, s, n).now == s.now + n * delay
    decreases n
  {
    if n > 0 {
      AfterRetriesClock(o, delay, Slept(Tick(o, s), delay), n - 1);
    }
  }

  /** A device that needs `n` polls before it shows the goal state, and
      whose clock is still before the deadline at the (n+1)-th poll, makes
      the loop succeed after exactly `n + 1` status queries. */
  lemma {:induction false} AwaitConvergesAfter(o: Oracle, verdicts: nat -> Verdict, delay: nat,
                                               start: int, timeout: int, s: DevState, n: nat)
    requires delay > 0
    requires forall k :: s.queries <= k < s.queries + n ==> verdicts(k) == Retry
    requires verdicts(s.queries + n) == Converged
    requires AfterRetries(o, delay, s, n).now - start < timeout
    ensures Await(o, verdicts, delay, start, timeout, s) == (Reached, Tick(o, AfterRetries(o, delay, s, n)))
    ensures Await(o, verdicts, delay, start, timeout, s).1.queries == s.queries + n + 1
    decreases n
  {
    if n > 0 {
      var s1 := Slept(Tick(o, s), delay);
      assert verdicts(s.queries) == Retry;
      AwaitConvergesAfter(o, verdicts, delay, start, timeout, s1, n - 1);
    }
  }

  /** With instant queries the deadline condition is plain arithmetic: a
      device that needs `n` retried polls, with `n` check delays still
      short of the deadline, makes the loop succeed after exactly `n + 1`
      status queries. */
  lemma AwaitConvergesInstantly(o: Oracle, verdicts: nat -> Verdict, delay: nat,
                                start: int, timeout: int, s: DevState, n: nat)
    requires delay > 0
    requires forall k :: o.latency(k) == 0
    requires forall k :: s.queries <= k < s.queries + n ==> verdicts(k) == Retry
    requires verdicts(s.queries + n) == Converged
    requires s.now - start + n * delay < timeout
    ensures Await(o, verdicts, delay, start, timeout, s).0 == Reached
    ensures Await(o, verdicts, delay, start, timeout, s).1.queries == s.queries + n + 1
  {
    AfterRetriesClock(o, delay, s, n);
    AwaitConvergesAfter(o, verdicts, delay, start, timeout, s, n);
  }

  /** A device whose poll aborts after `n` retried polls, still before the
      deadline, makes the loop fail with that abort's error after exactly
      `n + 1` status queries. */
  lemma {:induction false} AwaitAbortsAfter(o: Oracle, verdicts: nat -> Verdict, delay: nat,
                                            start: int, timeout: int, s: DevState, n: nat, e: Error)
    requires delay > 0
    requires forall k :: s.queries <= k < s.queries + n ==> verdicts(k) == Retry
    requires verdicts(s.queries + n) == Abort(e)
    requires AfterRetries(o, delay, s, n).now - start < timeout
    ensures Await(o, verdicts, delay, start, timeout, s) == (Failed(e), Tick(o, AfterRetries(o, delay, s, n)))
    decreases n
  {
    if n > 0 {
      var s1 := Slept(Tick(o, s), delay);
      assert verdicts(s.queries) == Retry;
      AwaitAbortsAfter(o, verdicts, delay, start, timeout, s1, n - 1, e);
    }
  }

  /** A mismatch seen while polling is not caught: a poll made after `n`
      retried polls, before the deadline, with both ports mutable, ends the
      loop with the mismatch of src, or with the mismatch of dst once src
      already shows the goal peer. */
  lemma MismatchWhilePollingAborts(o: Oracle, goal: Goal, src: PortId, dst: PortId, delay: nat,
                                   start: int, timeout: int, s: DevState, n: nat, si: PortInfo, di: PortInfo)
    requires delay > 0
    requires forall k :: s.queries <= k < s.queries + n ==> Polls(o, goal, src, dst)(k) == Retry
    requires AfterRetries(o, delay, s, n).now - start < timeout
    requires Fetch(o, s.queries + n, [src, dst]) == Ok([si, di])
    requires CheckMutable(si).Ok? && CheckMutable(di).Ok?
    ensures EffectivePeer(si) == Err(Mismatched(si.portId)) ==>
              Await(o, Polls(o, goal, src, dst), delay, start, timeout, s).0 == Failed(Mismatched(si.portId))
    ensures EffectivePeer(si) == GoalPeer(goal, dst) && EffectivePeer(di) == Err(Mismatched(di.portId)) ==>
              Await(o, Polls(o, goal, src, dst), delay, start, timeout, s).0 == Failed(Mismatched(di.portId))
  {
    var v := Polls(o, goal, src, dst)(s.queries + n);
    assert v == PollVerdict(goal, si, di, src, dst);
    if v.Abort? {
      AwaitAbortsAfter(o, Polls(o, goal, src, dst), delay, start, timeout, s, n, v.error);
    }
  }

  /** The caller-visible end of a polling loop: the timeout error is the
      one the loop's caller raises once the deadline passes. */
  function Finish(p: Poll, timedOut: Error): (r: Result<()>)
    ensures r.Ok? <==> p == Reached
    ensures p == Expired ==> r == Err(timedOut)
    ensures p.Failed? ==> r == Err(p.error)
  {
    match p
    case Reached => Ok(())
    case Failed(e) => Err(e)
    case Expired => Err(timedOut)
  }

  /** The mutating command for a goal. */
  function CommandFor(goal: Goal, src: PortId, dst: PortId): Command
  {
    if goal == Connection then ConnectCmd(src, dst) else DisconnectCmd(src, dst)
  }

  /** The tail shared by `_connect_ports` and `_disconnect_ports`: send the
      command, poll from the time just after it (the poll made as the k-th
      query concluding `verdicts(k)`; the driver passes `Polls` of the goal),
      and raise the goal's timeout error when the deadline passes. */
  function CommandAndAwait(o: Oracle, cfg: Config, goal: Goal, src: PortId, dst: PortId,
                           verdicts: nat -> Verdict, s: DevState): (Result<()>, DevState)
    requires cfg.delay > 0
  {
    var s1 := Issue(s, CommandFor(goal, src, dst));
    var (p, s2) := Await(o, verdicts, cfg.delay, s1.now, cfg.timeout, s1);
    (Finish(p, TimedOut(goal, src, dst, cfg.timeout)), s2)
  }

  /** The command is the only one sent; at least one poll follows it
      exactly when the timeout is positive; and the call ends in one of
      three ways. Success: the last poll saw the goal. The timeout error:
      the clock ran `timeout` past the command with every poll retried.
      Any other error: the abort of the last poll. */
  lemma CommandOutcome(o: Oracle, cfg: Config, goal: Goal, src: PortId, dst: PortId,
                       verdicts: nat -> Verdict, s: DevState)
    requires cfg.delay > 0
    requires forall k :: verdicts(k).Abort? ==> !verdicts(k).error.TimedOut?
    ensures var (r, t) := CommandAndAwait(o, cfg, goal, src, dst, verdicts, s);
            && t.log == s.log + [CommandFor(goal, src, dst)]
            && (t.queries > s.queries <==> cfg.timeout > 0)
            && (r.Ok? ==> t.queries > s.queries && verdicts(t.queries - 1) == Converged)
            && (r == Err(TimedOut(goal, src, dst, cfg.timeout)) ==>
                  && t.now - s.now >= cfg.timeout
                  && forall k :: s.queries <= k < t.queries ==> verdicts(k) == Retry)
            && (r.Err? && r.error != TimedOut(goal, src, dst, cfg.timeout) ==>
                  t.queries > s.queries && verdicts(t.queries - 1) == Abort(r.error))
  {
    var s1 := Issue(s, CommandFor(goal, src, dst));
    AwaitOnlyObserves(o, verdicts, cfg.delay, s1.now, cfg.timeout, s1);
    AwaitVerdicts(o, verdicts, cfg.delay, s1.now, cfg.timeout, s1);
    AwaitClock(o, verdicts, cfg.delay, s1.now, cfg.timeout, s1);
    var (p, t) := Await(o, verdicts, cfg.delay, s1.now, cfg.timeout, s1);
    if p.Failed? {
      assert verdicts(t.queries - 1) == Abort(p.error);
    }
  }

  /** A poll aborts neither with a timeout error (so the driver's verdicts
      meet `CommandOutcome`'s requirement) nor with a partial connection. */
  lemma PollsNeverTimeOut(o: Oracle, goal: Goal, src: PortId, dst: PortId)
    ensures forall k :: Polls(o, goal, src, dst)(k).Abort? ==>
              !Polls(o, goal, src, dst)(k).error.TimedOut? && !Polls(o, goal, src, dst)(k).error.PartiallyConnected?
  {
    forall k: nat
      ensures Polls(o, goal, src, dst)(k).Abort? ==>
                !Polls(o, goal, src, dst)(k).error.TimedOut? && !Polls(o, goal, src, dst)(k).error.PartiallyConnected?
    {
      NoPartialAbort(o, goal, src, dst, k);
    }
  }

  /** The polling loop on the live gateway. */
  method AwaitState(dev: Gateway, goal: Goal, src: PortId, dst: PortId, delay: nat, start: int, timeout: int)
    returns (p: Poll)
    requires delay > 0
    modifies dev
    ensures (p, dev.State()) == Await(dev.oracle, Polls(dev.oracle, goal, src, dst), delay, start, timeout, old(dev.State()))
  {
    var now := dev.Time();
    while now - start < timeout
      invariant now == dev.now
      invariant Await(dev.oracle, Polls(dev.oracle, goal, src, dst), delay, start, timeout, dev.State())
             == Await(dev.oracle, Polls(dev.oracle, goal, src, dst), delay, start, timeout, old(dev.State()))
      decreases start + timeout - dev.now
    {
      var infos := dev.PortsInfo([src, dst]);
      if infos.Err? {
        return Failed(infos.error);
      }
      var verdict := PollVerdict(goal, infos.value[0], infos.value[1], src, dst);
      if verdict.Converged? {
        return Reached;
      } else if verdict.Abort? {
        return Failed(verdict.error);
      }
      dev.Sleep(delay);
      now := dev.Time();
    }
    return Expired;
  }
}
