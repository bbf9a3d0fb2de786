/** The newer revision's batch clear, `map_clear`: every port is
    disconnected in turn, a failure does not stop the loop, and the failures'
    messages are raised together at the end. */
module AfmClear {
  import opened AfmResults
  import opened AfmPorts
  import opened AfmGateway
  import opened AfmConvergence
  import opened AfmDisconnect

  /** One step per address, in order, each from the device state the
      previous one left, keeping every outcome whatever it is. */
  function Sweep(step: (string, DevState) -> (Result<()>, DevState), addresses: seq<string>, s: DevState)
    : (seq<Result<()>>, DevState)
    decreases |addresses|
  {
    if addresses == [] then ([], s)
    else
      var (outs, s1) := Sweep(step, addresses[..|addresses| - 1], s);
      var (r, s2) := step(addresses[|addresses| - 1], s1);
      (outs + [r], s2)
  }

  /** The step of `map_clear`'s loop: disconnect the port an address names. */
  function ClearStep(o: Oracle, cfg: Config): (string, DevState) -> (Result<()>, DevState)
    requires cfg.delay > 0
  {
    (address: string, t: DevState) => DisconnectRun(o, cfg, One(ConvertPort(address)), t)
  }

  /** The per-port outcomes of `map_clear`'s loop. */
  function ClearOutcomes(o: Oracle, cfg: Config, addresses: seq<string>, s: DevState): (seq<Result<()>>, DevState)
    requires cfg.delay > 0
  {
    Sweep(ClearStep(o, cfg), addresses, s)
  }

  /** The message `map_clear` keeps for one port: `args[1]` when the
      exception has two or more arguments, `args[0]` when it has one,
      nothing when it has none or the port succeeded. */
  function Collected(r: Result<()>): seq<string>
  {
    if r.Ok? then [] else Kept(Args(r.error))
  }

  function Kept(args: seq<string>): (m: seq<string>)
    ensures |m| <= 1 && (m == [] <==> args == [])
  {
    if |args| > 1 then [args[1]] else if |args| == 1 then [args[0]] else []
  }

  /** The messages collected over a run of outcomes, in order. */
  function Collect(outs: seq<Result<()>>): seq<string>
  {
    if outs == [] then [] else Collect(outs[..|outs| - 1]) + Collected(outs[|outs| - 1])
  }

  /** The one error `map_clear` raises after its loop, if any. */
  function Aggregate(outs: seq<Result<()>>): Result<()>
  {
    var messages := Collect(outs);
    if messages == [] then Ok(()) else Err(ClearFailed(Join(", ", messages)))
  }

  /** `map_clear(ports)`. */
  function ClearRun(o: Oracle, cfg: Config, addresses: seq<string>, s: DevState): (Result<()>, DevState)
    requires cfg.delay > 0
  {
    var (outs, t) := ClearOutcomes(o, cfg, addresses, s);
    (Aggregate(outs), t)
  }

  /** A sweep has one outcome per address. */
  lemma {:induction false} SweepLength(step: (string, DevState) -> (Result<()>, DevState),
                                       addresses: seq<string>, s: DevState)
    ensures |Sweep(step, addresses, s).0| == |addresses|
    decreases |addresses|
  {
    if addresses != [] {
      SweepLength(step, addresses[..|addresses| - 1], s);
    }
  }

  /** A sweep goes on after any outcome: sweeping `a + b` is sweeping `a`
      and then, from the state that leaves, sweeping `b`. */
  lemma {:induction false} SweepSplit(step: (string, DevState) -> (Result<()>, DevState),
                                      a: seq<string>, b: seq<string>, s: DevState)
    ensures var (outsA, mid) := Sweep(step, a, s);
            var (outsB, t) := Sweep(step, b, mid);
            Sweep(step, a + b, s) == (outsA + outsB, t)
    decreases |b|
  {
    if b == [] {
      assert a + b == a;
      assert Sweep(step, a, s).0 + [] == Sweep(step, a, s).0;
    } else {
      var init := b[..|b| - 1];
      SweepSplit(step, a, init, s);
      assert (a + b)[..|a + b| - 1] == a + init;
      assert (a + b)[|a + b| - 1] == b[|b| - 1];
      var (outsA, mid) := Sweep(step, a, s);
      var (outsI, m2) := Sweep(step, init, mid);
      assert outsA + outsI + [step(b[|b| - 1], m2).0] == outsA + (outsI + [step(b[|b| - 1], m2).0]);
    }
  }

  /** The batch clear attempts every port, in order, even after failures:
      there is one outcome per address, clearing `a + b` is clearing `a`
      and then clearing `b`, and the outcome for an address appended to
      `a` is the disconnect of its port from the state `a` left. */
  lemma ClearAttemptsEveryPort(o: Oracle, cfg: Config, a: seq<string>, b: seq<string>, address: string,
                               s: DevState)
    requires cfg.delay > 0
    ensures |ClearOutcomes(o, cfg, a + b, s).0| == |a + b|
    ensures var (outsA, mid) := ClearOutcomes(o, cfg, a, s);
            var (outsB, t) := ClearOutcomes(o, cfg, b, mid);
            ClearOutcomes(o, cfg, a + b, s) == (outsA + outsB, t)
    ensures var (outsA, mid) := ClearOutcomes(o, cfg, a, s);
            ClearOutcomes(o, cfg, a + [address], s)
              == (outsA + [DisconnectRun(o, cfg, One(ConvertPort(address)), mid).0],
                  DisconnectRun(o, cfg, One(ConvertPort(address)), mid).1)
  {
    SweepLength(ClearStep(o, cfg), a + b, s);
    SweepSplit(ClearStep(o, cfg), a, b, s);
    assert (a + [address])[..|a|] == a;
  }

  /** No message is collected exactly when every outcome is a success or an
      exception without arguments. */
  lemma {:induction false} CollectEmptyIff(outs: seq<Result<()>>)
    ensures Collect(outs) == [] <==> forall r :: r in outs ==> Collected(r) == []
  {
    if outs != [] {
      var init, last := outs[..|outs| - 1], outs[|outs| - 1];
      CollectEmptyIff(init);
      assert outs == init + [last];
    }
  }

  /** At most one message is collected per port. */
  lemma {:induction false} CollectLength(outs: seq<Result<()>>)
    ensures |Collect(outs)| <= |outs|
  {
    if outs != [] {
      CollectLength(outs[..|outs| - 1]);
    }
  }

  /** `map_clear` raises exactly one error, joining the collected messages
      with ", ", if and only if some port failed with an exception that has
      arguments; every failure the driver raises itself has some. */
  lemma ClearAggregate(outs: seq<Result<()>>)
    ensures Aggregate(outs).Err? <==> exists r :: r in outs && r.Err? && Args(r.error) != []
    ensures Aggregate(outs).Err? ==> Aggregate(outs) == Err(ClearFailed(Join(", ", Collect(outs))))
    ensures (exists r :: r in outs && r.Err? && !r.error.DeviceFailure?) ==> Aggregate(outs).Err?
  {
    CollectEmptyIff(outs);
    forall r | r in outs && r.Err? && !r.error.DeviceFailure?
      ensures Args(r.error) != []
    {
      DriverErrorsHaveArgs(r.error);
    }
  }

  /** `map_clear_to(src, dsts)`: more or fewer than one destination is
      rejected before the device is touched; otherwise the pair is
      disconnected. */
  function ClearToRun(o: Oracle, cfg: Config, srcAddress: string, dstAddresses: seq<string>, s: DevState)
    : (Result<()>, DevState)
    requires cfg.delay > 0
  {
    if |dstAddresses| != 1 then (Err(MultipleDst), s)
    else DisconnectRun(o, cfg, Pair(ConvertPort(srcAddress), ConvertPort(dstAddresses[0])), s)
  }

  /** A clear-to with more or fewer than one destination fails with no
      query and no command; with one it is the pair disconnect. */
  lemma ClearToOutcome(o: Oracle, cfg: Config, srcAddress: string, dstAddresses: seq<string>, s: DevState)
    requires cfg.delay > 0
    ensures |dstAddresses| != 1 ==> ClearToRun(o, cfg, srcAddress, dstAddresses, s) == (Err(MultipleDst), s)
    ensures |dstAddresses| == 1 ==>
              var (r, t) := ClearToRun(o, cfg, srcAddress, dstAddresses, s);
              t.log == s.log || t.log == s.log + [DisconnectCmd(ConvertPort(srcAddress), ConvertPort(dstAddresses[0]))]
  {
    if |dstAddresses| == 1 {
      DisconnectPairOutcome(o, cfg, ConvertPort(srcAddress), ConvertPort(dstAddresses[0]), s);
    }
  }
}
