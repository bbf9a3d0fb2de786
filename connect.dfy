/** The newer revision's `_connect_ports`: the pre-command checks, the
    connect command, and waiting for both ports to name each other. */
module AfmConnect {
  import opened AfmResults
  import opened AfmPorts
  import opened AfmGateway
  import opened AfmStatus
  import opened AfmConvergence

  /** `_connect_ports`: one status query of both ports, the pre-command
      checks, then the connect command and polling for both ports to name
      each other. */
  function ConnectRun(o: Oracle, cfg: Config, src: PortId, dst: PortId, s: DevState): (Result<()>, DevState)
    requires cfg.delay > 0
  {
    var (infos, s1) := QueryStatus(o, [src, dst], s);
    if infos.Err? then (Err(infos.error), s1)
    else
      var pre := ConnectPrecheck(infos.value[0], infos.value[1], src, dst);
      if pre.Err? then (pre, s1)
      else CommandAndAwait(o, cfg, Connection, src, dst, Polls(o, Connection, src, dst), s1)
  }

  /** Guard before mutation: the connect command is sent exactly when the
      first status query answered and passed every pre-command check, and
      it is the only command sent; a failed check ends the call after that
      one query, with that check's error. */
  lemma ConnectCommandOnlyAfterChecks(o: Oracle, cfg: Config, src: PortId, dst: PortId, s: DevState)
    requires cfg.delay > 0
    ensures var (r, t) := ConnectRun(o, cfg, src, dst, s);
            var infos := Fetch(o, s.queries, [src, dst]);
            && (t.log == s.log || t.log == s.log + [ConnectCmd(src, dst)])
            && (t.log != s.log <==> infos.Ok? && ConnectPrecheck(infos.value[0], infos.value[1], src, dst).Ok?)
            && (infos.Err? ==> (r, t) == (Err(infos.error), Tick(o, s)))
            && (infos.Ok? && ConnectPrecheck(infos.value[0], infos.value[1], src, dst).Err? ==>
                  (r, t) == (ConnectPrecheck(infos.value[0], infos.value[1], src, dst), Tick(o, s)))
  {
    PollsNeverTimeOut(o, Connection, src, dst);
    CommandOutcome(o, cfg, Connection, src, dst, Polls(o, Connection, src, dst), Tick(o, s));
  }

  /** Connect succeeds only when a fresh poll, made after the command,
      shows src's effective peer to be dst and dst's to be src, with
      neither locked nor disabled. */
  lemma ConnectSuccessMeansConverged(o: Oracle, cfg: Config, src: PortId, dst: PortId, s: DevState)
    requires cfg.delay > 0
    ensures var (r, t) := ConnectRun(o, cfg, src, dst, s);
            r.Ok? ==>
              && t.log == s.log + [ConnectCmd(src, dst)]
              && t.queries >= s.queries + 2
              && var last := Fetch(o, t.queries - 1, [src, dst]);
                 && last.Ok?
                 && EffectivePeer(last.value[0]) == Ok(Some(dst))
                 && EffectivePeer(last.value[1]) == Ok(Some(src))
                 && CheckMutable(last.value[0]).Ok? && CheckMutable(last.value[1]).Ok?
  {
    PollsNeverTimeOut(o, Connection, src, dst);
    CommandOutcome(o, cfg, Connection, src, dst, Polls(o, Connection, src, dst), Tick(o, s));
  }

  /** The timeout is raised only after the command was sent, once the clock
      has run `timeout` past the command, with every poll since retried. */
  lemma ConnectTimeoutMeansExpired(o: Oracle, cfg: Config, src: PortId, dst: PortId, s: DevState)
    requires cfg.delay > 0
    ensures var (r, t) := ConnectRun(o, cfg, src, dst, s);
            r == Err(TimedOut(Connection, src, dst, cfg.timeout)) ==>
              && t.log == s.log + [ConnectCmd(src, dst)]
              && t.now - (s.now + o.latency(s.queries)) >= cfg.timeout
              && forall k :: s.queries < k < t.queries ==> PollAt(o, Connection, src, dst, k) == Retry
  {
    PollsNeverTimeOut(o, Connection, src, dst);
    CommandOutcome(o, cfg, Connection, src, dst, Polls(o, Connection, src, dst), Tick(o, s));
    var (r, t) := ConnectRun(o, cfg, src, dst, s);
    if r == Err(TimedOut(Connection, src, dst, cfg.timeout)) {
      forall k | s.queries < k < t.queries
        ensures PollAt(o, Connection, src, dst, k) == Retry
      {
        assert Polls(o, Connection, src, dst)(k) == Retry;
      }
    }
  }

  /** Any other failure after the command is the abort of the last poll (a
      lock, a disable, a mismatch, a failed query): a partial connection is
      never raised once the command is out. */
  lemma ConnectAbortIsLastPoll(o: Oracle, cfg: Config, src: PortId, dst: PortId, s: DevState)
    requires cfg.delay > 0
    ensures var (r, t) := ConnectRun(o, cfg, src, dst, s);
            t.log != s.log && r.Err? && r.error != TimedOut(Connection, src, dst, cfg.timeout) ==>
              && t.queries > s.queries + 1
              && PollAt(o, Connection, src, dst, t.queries - 1) == Abort(r.error)
              && !r.error.PartiallyConnected?
  {
    PollsNeverTimeOut(o, Connection, src, dst);
    CommandOutcome(o, cfg, Connection, src, dst, Polls(o, Connection, src, dst), Tick(o, s));
  }

  /** A device whose rows stay mutable, mismatch-free and unlinked for `n`
      polls after the command and show the link at the next one, with
      instant queries and `n` check delays short of the timeout: the
      connect succeeds after exactly `n + 2` status queries, the one
      command, and `n` delays. */
  lemma ConnectSettlesAfter(o: Oracle, cfg: Config, src: PortId, dst: PortId, s: DevState, n: nat)
    requires cfg.delay > 0
    requires forall k :: o.latency(k) == 0
    requires Fetch(o, s.queries, [src, dst]).Ok?
    requires ConnectPrecheck(Fetch(o, s.queries, [src, dst]).value[0], Fetch(o, s.queries, [src, dst]).value[1], src, dst).Ok?
    requires forall k :: s.queries < k <= s.queries + n ==> RowsPending(o, Connection, src, dst, k)
    requires RowsSettled(o, Connection, src, dst, s.queries + n + 1)
    requires n * cfg.delay < cfg.timeout
    ensures ConnectRun(o, cfg, src, dst, s)
         == (Ok(()), DevState(s.log + [ConnectCmd(src, dst)], s.queries + n + 2, s.now + n * cfg.delay))
  {
    var verdicts := Polls(o, Connection, src, dst);
    var s2 := Issue(Tick(o, s), ConnectCmd(src, dst));
    forall k | s2.queries <= k < s2.queries + n
      ensures verdicts(k) == Retry
    {
      PollAtRows(o, Connection, src, dst, k);
    }
    PollAtRows(o, Connection, src, dst, s2.queries + n);
    AfterRetriesClock(o, cfg.delay, s2, n);
    AwaitConvergesAfter(o, verdicts, cfg.delay, s2.now, cfg.timeout, s2, n);
  }

  /** A device whose rows stay mutable, mismatch-free and unlinked after
      the command, however long the driver waits: the connect ends in the
      timeout error. */
  lemma ConnectNeverSettles(o: Oracle, cfg: Config, src: PortId, dst: PortId, s: DevState)
    requires cfg.delay > 0
    requires Fetch(o, s.queries, [src, dst]).Ok?
    requires ConnectPrecheck(Fetch(o, s.queries, [src, dst]).value[0], Fetch(o, s.queries, [src, dst]).value[1], src, dst).Ok?
    requires forall k :: s.queries < k ==> RowsPending(o, Connection, src, dst, k)
    ensures ConnectRun(o, cfg, src, dst, s).0 == Err(TimedOut(Connection, src, dst, cfg.timeout))
  {
    var verdicts := Polls(o, Connection, src, dst);
    PollsNeverTimeOut(o, Connection, src, dst);
    CommandOutcome(o, cfg, Connection, src, dst, verdicts, Tick(o, s));
    var (r, t) := ConnectRun(o, cfg, src, dst, s);
    if t.queries > s.queries + 1 {
      PollAtRows(o, Connection, src, dst, t.queries - 1);
    }
  }

  /** The device of the example: both ports free at the first query and
      connected to each other from the second on; queries take no time. */
  function ExampleDevice(): Oracle
  {
    Oracle(
      k => if k == 0 then Status(map["21" := FreePort("21"), "22" := FreePort("22")])
           else Status(map["21" := LinkedPort("21", "22"), "22" := LinkedPort("22", "21")]),
      (k, id) => "",
      (k, id) => false,
      k => 0)
  }

  function FreePort(id: PortId): PortInfo
  {
    PortInfo(id, PortSide(false, false, ""), PortSide(false, false, ""))
  }

  function LinkedPort(id: PortId, peer: PortId): PortInfo
  {
    PortInfo(id, PortSide(false, false, peer), PortSide(false, false, peer))
  }

  lemma LookupPair(rows: map<PortId, PortInfo>, a: PortId, b: PortId)
    requires a in rows && b in rows
    ensures Lookup(rows, [a, b]) == Ok([rows[a], rows[b]])
  {
    var ids := [a, b];
    assert forall i :: 0 <= i < |ids| ==> ids[i] in rows;
    var r := Lookup(rows, ids);
    assert r.value[0] == rows[a] && r.value[1] == rows[b];
    assert r.value == [rows[a], rows[b]];
  }

  /** Two free ports 21 and 22: one status query, one connect command, one
      poll that shows both sides of each port naming the other, success. */
  lemma ExampleConnect21To22()
    ensures ConnectRun(ExampleDevice(), Config(60, 5), "21", "22", DevState([], 0, 0))
         == (Ok(()), DevState([ConnectCmd("21", "22")], 2, 0))
  {
    var o := ExampleDevice();
    LookupPair(map["21" := FreePort("21"), "22" := FreePort("22")], "21", "22");
    LookupPair(map["21" := LinkedPort("21", "22"), "22" := LinkedPort("22", "21")], "21", "22");
    assert Fetch(o, 0, ["21", "22"]) == Ok([FreePort("21"), FreePort("22")]);
    assert Fetch(o, 1, ["21", "22"]) == Ok([LinkedPort("21", "22"), LinkedPort("22", "21")]);
    assert ConnectPrecheck(FreePort("21"), FreePort("22"), "21", "22") == Ok(());
    assert PollAt(o, Connection, "21", "22", 1) == Converged;
    var s1 := DevState([], 1, 0);
    assert QueryStatus(o, ["21", "22"], DevState([], 0, 0)) == (Ok([FreePort("21"), FreePort("22")]), s1);
    var s2 := Issue(s1, ConnectCmd("21", "22"));
    assert Polls(o, Connection, "21", "22")(1) == Converged;
    assert Tick(o, s2) == DevState([ConnectCmd("21", "22")], 2, 0);
    assert Await(o, Polls(o, Connection, "21", "22"), 5, 0, 60, s2) == (Reached, DevState([ConnectCmd("21", "22")], 2, 0));
    assert CommandAndAwait(o, Config(60, 5), Connection, "21", "22", Polls(o, Connection, "21", "22"), s1)
        == (Ok(()), DevState([ConnectCmd("21", "22")], 2, 0));
  }
}
