# Fiberzone AFM layer-1 driver: port-connectivity convergence

The Fiberzone AFM is an optical patch-panel switch. Its layer-1 driver
connects and disconnects pairs of ports. The device offers no transactional
interface, so each connect or disconnect works in four steps:

1. Read the ports' state.
2. Check guards.
3. Send one mutating command.
4. Poll the ports until they show the goal state; a lock aborts the poll,
   and the timeout raises an error.

The repository holds two revisions of this logic, and both are modelled.

- **Newer revision (`fiberzone_afm_new/driver_commands.py`).** The device
  answers a `ports_info` query with whole rows. Each row holds an east and a
  west side, and each side carries locked, disabled and connected-peer
  fields.
  - A pure classifier reduces the two sides to an "effective peer", or to a
    mismatch or a partial-connection error.
  - Lock and disable guards are checked before the command and again on
    every poll.
  - A partial connection seen during polling is retried, not raised.
  - The batch clear keeps going after failures and raises one error that
    joins the collected messages.
- **Older revision (`fiberzone_afm/driver_commands.py`).** Each question is
  its own query: `port_connected(id)` returns a peer id, and
  `port_locked(id)` returns a flag.
  - The questions are asked in Python's short-circuit order.
  - The disconnect consistency rule is looser: a peer missing on one side is
    tolerated.
  - The batch clear stops at the first failure.

## How the device is modelled

- **The device is an oracle.** `AfmGateway.Oracle` gives the answer to every
  query by its index: the whole-table answer, the per-port peer answer, the
  per-port lock answer, and the query's latency.
- **The driver's state is a `DevState`.** It holds the commands sent, the
  number of queries made, and an integer clock.
- **The live session is the class `AfmGateway.Gateway`.** Its methods make
  one query, send one command, read or advance the clock.
- **Every driver operation has a reference function over `DevState`.** A
  method that follows the Python statements on the gateway is proved to
  produce exactly the result and the new state of that function. The
  properties are proved as lemmas about the reference functions.
- **Raises become error values.** Each Python raise is an `Error` variant
  with the same text (`AfmResults.Message`). `AfmResults.Args` gives the
  exception's `args` tuple.

The older revision's `map_uni` (fiberzone_afm/driver_commands.py:122) and
`map_tap` (fiberzone_afm/driver_commands.py:327-328) raise the same error as
the newer ones. `AfmDriver.MapUni` and `AfmDriver.MapTap` model both
revisions.

`_convert_port` is the same in both files. `AfmPorts.ConvertPort` serves
both; the older copy is fiberzone_afm/driver_commands.py:166-167.

## Model

| member | source | states |
|---|---|---|
| AfmPorts.ConvertPort | fiberzone_afm_new/driver_commands.py:174-175 | the id is the text after the last '/' of the address (a suffix with no '/', preceded by '/' when shorter than the address) |
| AfmPorts.ConvertPortOfAddress | fiberzone_afm_new/driver_commands.py:175 | an address whose last component is `id` converts to `id` |
| AfmPorts.ConvertPortIdempotent | fiberzone_afm_new/driver_commands.py:175 | converting an id again changes nothing |
| AfmResults.DriverErrorsHaveArgs | fiberzone_afm_new/driver_commands.py:305-308 | every exception the driver raises itself has one or two args, so the batch clear always keeps a message for it |
| AfmResults.Join | fiberzone_afm_new/driver_commands.py:311 | `', '.join` of no parts is empty and of one part is that part |
| AfmGateway.Lookup | fiberzone_afm_new/driver_commands.py:213 | `ports_info(ids)` yields the rows of the ids in order exactly when every id is in the table; otherwise, as the model assumes, a KeyError for the first missing id |
| AfmGateway.Fetch | fiberzone_afm_new/driver_commands.py:222 | an answered status query has one row per id asked |
| AfmGateway.Gateway.PortsInfo | fiberzone_afm_new/driver_commands.py:213 | one status query: the oracle's answer, one more query, the clock advanced by its latency |
| AfmGateway.Gateway.PortConnected | fiberzone_afm/driver_commands.py:172 | one peer query of the older revision, with its answer and cost |
| AfmGateway.Gateway.PortLocked | fiberzone_afm/driver_commands.py:175 | one lock query of the older revision, with its answer and cost |
| AfmGateway.Gateway.Send | fiberzone_afm_new/driver_commands.py:219 | a command is appended to the log and nothing else changes |
| AfmGateway.Gateway.Time | fiberzone_afm_new/driver_commands.py:220 | `time.time()` reads the clock |
| AfmGateway.Gateway.Sleep | fiberzone_afm_new/driver_commands.py:230 | `time.sleep(d)` advances the clock by d and changes nothing else |
| AfmGateway.Gateway.constructor | fiberzone_afm_new/driver_commands.py:211 | a fresh session has sent nothing and made no query |
| AfmStatus.EffectivePeer | fiberzone_afm_new/driver_commands.py:184-196 | both sides empty gives no peer; both set and equal gives that peer; both set and different raises the mismatch; exactly one set raises the partial connection; each as an if-and-only-if |
| AfmStatus.EffectivePeerSymmetric | fiberzone_afm_new/driver_commands.py:186-196 | swapping east and west does not change the classification |
| AfmStatus.CheckMutable | fiberzone_afm_new/driver_commands.py:205-208 | fails exactly when a side is locked or disabled; locked takes precedence over disabled |
| AfmStatus.ConnectPrecheck | fiberzone_afm_new/driver_commands.py:213-218 | passes exactly when both ports are mutable and have no effective peer; src's guard, then dst's guard, then the peer checks, in that order; a peer on src, or on dst once src is free, raises "already connected"; a mismatch or partial connection found by a peer check is raised as that error; every failure is one of the listed raises |
| AfmStatus.DisconnectPrecheck | fiberzone_afm_new/driver_commands.py:253-265 | nothing to do exactly when neither port has a peer; proceed exactly when each port's effective peer is the other and both are mutable; a one-sided or wrong peer raises "not connected" before the guards are looked at; a mismatch or partial connection of a port whose peer is computed is raised as that error; when the peers agree, src's guard error, then dst's, is raised |
| AfmStatus.PollVerdict | fiberzone_afm_new/driver_commands.py:222-232 | a guard failure aborts with that guard's error; converged exactly when both are mutable and show the goal peers; aborts exactly when a guard fails, src is mismatched, or dst is mismatched once src shows the goal peer, and then with that error; every other poll, a partial connection included, is retried |
| AfmConvergence.NoPartialAbort | fiberzone_afm_new/driver_commands.py:225-232 | a poll never ends in a partial-connection error |
| AfmConvergence.PollsNeverTimeOut | fiberzone_afm_new/driver_commands.py:222-232 | no poll aborts with a timeout or a partial-connection error |
| AfmConvergence.AwaitOnlyObserves | fiberzone_afm_new/driver_commands.py:221-232 | the polling loop sends no command and never moves the clock back |
| AfmConvergence.AwaitVerdicts | fiberzone_afm_new/driver_commands.py:221-232 | the loop polls at all exactly when it starts before the deadline; it succeeds only on a converged last poll and fails only with the last poll's abort; every earlier poll was retried |
| AfmConvergence.AwaitClock | fiberzone_afm_new/driver_commands.py:221-232 | expiry only once `timeout` has run, overshooting by less than one delay plus one query; an ending other than expiry started its last poll before the deadline |
| AfmConvergence.PollAtRows | fiberzone_afm_new/driver_commands.py:222-232 | a poll over mutable, mismatch-free rows not both at the goal is retried; one over mutable rows both at the goal converges |
| AfmConvergence.AfterRetriesClock | fiberzone_afm_new/driver_commands.py:230 | with instant queries, n retried polls take n check delays |
| AfmConvergence.AwaitConvergesAfter | fiberzone_afm_new/driver_commands.py:221-228 | a device that settles after n retried polls, before the deadline, makes the loop succeed after exactly n + 1 queries |
| AfmConvergence.AwaitConvergesInstantly | fiberzone_afm_new/driver_commands.py:221-230 | with instant queries, a device that settles after n retried polls with n check delays short of the timeout makes the loop succeed after exactly n + 1 queries |
| AfmConvergence.AwaitAbortsAfter | fiberzone_afm_new/driver_commands.py:221-232 | a poll that aborts after n retried polls, before the deadline, ends the loop with that error after exactly n + 1 queries |
| AfmConvergence.MismatchWhilePollingAborts | fiberzone_afm_new/driver_commands.py:222-232 | a mismatch seen by a poll is not caught: with both ports mutable the loop ends with src's mismatch, or with dst's once src shows the goal peer |
| AfmConvergence.Finish | fiberzone_afm_new/driver_commands.py:234-236 | success exactly on convergence; expiry raises the timeout error; an abort raises its own error |
| AfmConvergence.CommandOutcome | fiberzone_afm_new/driver_commands.py:219-236 | after the command: it is the only one sent; a poll exactly when the timeout is positive; success means a converged last poll; timeout means the clock ran `timeout` with every poll retried; any other error is the last poll's abort |
| AfmConvergence.AwaitState | fiberzone_afm_new/driver_commands.py:220-232 | the `while` loop on the gateway ends with the outcome and state of `AfmConvergence.Await` over `Polls` |
| AfmConnect.ConnectCommandOnlyAfterChecks | fiberzone_afm_new/driver_commands.py:213-219 | the connect command is sent exactly when the first query answered and every pre-command check passed; a failed check ends the call after one query with that check's error |
| AfmConnect.ConnectSuccessMeansConverged | fiberzone_afm_new/driver_commands.py:222-228 | success only after the command and a fresh poll where src's effective peer is dst, dst's is src, and both are mutable |
| AfmConnect.ConnectTimeoutMeansExpired | fiberzone_afm_new/driver_commands.py:221-236 | the timeout error only after the command, once the clock has run `timeout` past it, with every poll retried |
| AfmConnect.ConnectAbortIsLastPoll | fiberzone_afm_new/driver_commands.py:222-232 | any other failure after the command is the last poll's abort, never a partial connection |
| AfmConnect.ConnectSettlesAfter | fiberzone_afm_new/driver_commands.py:210-230 | rows pending for n polls after the command and linked at the next, with instant queries and n delays short of the timeout: success after exactly n + 2 queries, one command and n delays |
| AfmConnect.ConnectNeverSettles | fiberzone_afm_new/driver_commands.py:219-236 | rows that stay pending after the command end the connect in the timeout error |
| AfmConnect.ExampleConnect21To22 | fiberzone_afm_new/driver_commands.py:210-228 | two free ports that link on the next poll connect after two queries and one command |
| AfmDisconnect.DisconnectCheckedCommand | fiberzone_afm_new/driver_commands.py:253-267 | at most the one disconnect command, sent exactly when the consistency checks and guards pass; a failed check, or two free ports, ends the call with no further query |
| AfmDisconnect.DisconnectCheckedSuccess | fiberzone_afm_new/driver_commands.py:270-275 | success after the command only on a fresh poll showing both ports with no peer and mutable |
| AfmDisconnect.DisconnectCheckedFailure | fiberzone_afm_new/driver_commands.py:269-283 | a failure after the command is the timeout, raised once `timeout` has run, or the last poll's abort, never a partial connection |
| AfmDisconnect.DisconnectNeverSettles | fiberzone_afm_new/driver_commands.py:267-283 | rows that stay pending after the disconnect command end it in the timeout error |
| AfmDisconnect.DisconnectPairOutcome | fiberzone_afm_new/driver_commands.py:249-267 | a pair: only its own disconnect command, only when the checks pass; two free ports succeed after one query and no command |
| AfmDisconnect.DisconnectPairWrongPeer | fiberzone_afm_new/driver_commands.py:256-258 | src connected to a port other than dst fails at once with no command |
| AfmDisconnect.DisconnectOneOutcome | fiberzone_afm_new/driver_commands.py:241-247 | a failed query or an error in the port's own row ends the call after one query with that error; one port with no peer succeeds after one query; a command is sent only if the peer's row answered and `DisconnectPrecheck` of the two rows says proceed, and it is the disconnect of the port from the peer its own row names |
| AfmClear.Kept | fiberzone_afm_new/driver_commands.py:305-308 | at most one message per exception, and one exactly when it has args |
| AfmClear.SweepLength | fiberzone_afm_new/driver_commands.py:300-303 | one outcome per port |
| AfmClear.SweepSplit | fiberzone_afm_new/driver_commands.py:300-308 | the loop goes on after any outcome: sweeping `a + b` is sweeping `a`, then `b` from the state `a` left |
| AfmClear.ClearAttemptsEveryPort | fiberzone_afm_new/driver_commands.py:300-308 | every port is attempted in order, even after failures; the outcome of an appended address is its port's disconnect from the state the others left |
| AfmClear.CollectEmptyIff | fiberzone_afm_new/driver_commands.py:304-310 | no message is collected exactly when every outcome is a success or an exception without args |
| AfmClear.CollectLength | fiberzone_afm_new/driver_commands.py:304-308 | at most one message per port |
| AfmClear.ClearAggregate | fiberzone_afm_new/driver_commands.py:310-311 | exactly one error, the ', '-joined messages, if and only if some failure had args; any failure the driver raises itself triggers it |
| AfmClear.ClearToOutcome | fiberzone_afm_new/driver_commands.py:330-335 | more or fewer than one destination fails with no query and no command; with one, only the pair's disconnect can be sent |
| AfmDriver.MapUni | fiberzone_afm_new/driver_commands.py:130 | unidirectional mapping is always refused |
| AfmDriver.MapTap | fiberzone_afm_new/driver_commands.py:388-389 | tap mapping is refused as unidirectional |
| AfmDriver.SetAttributeValue | fiberzone_afm_new/driver_commands.py:383-386 | accepted exactly for "Serial Number"; any other attribute is refused as not supported |
| AfmDriver.ConnectPorts | fiberzone_afm_new/driver_commands.py:210-236 | `_connect_ports` on the gateway gives the result and state of `AfmConnect.ConnectRun` |
| AfmDriver.DisconnectPorts | fiberzone_afm_new/driver_commands.py:238-283 | `_disconnect_ports` on the gateway gives the result and state of `AfmDisconnect.DisconnectRun` |
| AfmDriver.MapBidi | fiberzone_afm_new/driver_commands.py:111-113 | `map_bidi` is the connect of the two converted ids |
| AfmDriver.MapClear | fiberzone_afm_new/driver_commands.py:299-311 | the collecting `for` loop gives the result and state of `AfmClear.ClearRun` |
| AfmDriver.MapClearTo | fiberzone_afm_new/driver_commands.py:330-335 | `map_clear_to` on the gateway gives the result and state of `AfmClear.ClearToRun` |
| AfmLegacyPolling.EitherLocked | fiberzone_afm/driver_commands.py:175 | `port_locked(src) or port_locked(dst)`: true exactly when a lock is reported; dst is asked only when src is not locked |
| AfmLegacyPolling.PollOnce | fiberzone_afm/driver_commands.py:181-186 | one pass of the loop sends no command and does not move the clock back |
| AfmLegacyPolling.PollOnceConverges | fiberzone_afm/driver_commands.py:181-184 | a pass converges exactly when neither port is locked and both reported peers are settled, after exactly four queries |
| AfmLegacyPolling.PollOnceAborts | fiberzone_afm/driver_commands.py:181-189 | a pass aborts exactly when a lock is reported, with the "has been locked" error raised right after the query that saw it |
| AfmLegacyPolling.AwaitClock | fiberzone_afm/driver_commands.py:180-192 | the loop sends nothing, polls at all exactly when it starts before the deadline, and expires only once `timeout` has run |
| AfmLegacyPolling.AwaitReached | fiberzone_afm/driver_commands.py:181-184 | success only right after a pass that saw both ports unlocked and settled |
| AfmLegacyPolling.AwaitFailed | fiberzone_afm/driver_commands.py:187-189 | failure only right after a pass whose last query reported a lock |
| AfmLegacyPolling.CommandOutcome | fiberzone_afm/driver_commands.py:178-192 | after the command: it is the only one sent; polled exactly when the timeout is positive; success means a settled last pass; failure is the timeout, once `timeout` has run, or a lock seen by the last query |
| AfmLegacyPolling.AwaitState | fiberzone_afm/driver_commands.py:179-189 | the older `while` loop on the gateway ends with the outcome and state of `AfmLegacyPolling.Await` |
| AfmLegacyMapping.EitherConnected | fiberzone_afm/driver_commands.py:172 | `port_connected(src) or port_connected(dst)`: true exactly when a peer is reported; dst is asked only when src has none |
| AfmLegacyMapping.ConnectCommandOnlyAfterChecks | fiberzone_afm/driver_commands.py:172-178 | "already connected" exactly when a peer is reported, whatever the locks say; "locked" only after no peer was reported; the command is sent exactly when all four answers allow it |
| AfmLegacyMapping.ConnectSuccessMeansAgreement | fiberzone_afm/driver_commands.py:181-184 | success only after the command and a pass where src reported dst, dst reported src, and neither was locked |
| AfmLegacyMapping.ConnectFailureAfterCommand | fiberzone_afm/driver_commands.py:180-192 | a failure after the command is the timeout, once `timeout` has run, or a lock seen by the last query |
| AfmLegacyMapping.PairCheck | fiberzone_afm/driver_commands.py:209-218 | nothing to do exactly when neither reports a peer; proceed exactly when some peer is reported and every reported peer is the expected port (one side may be missing); otherwise the incorrect-src error, taking precedence, or the incorrect-dst error |
| AfmLegacyMapping.DisconnectCommandOnlyAfterChecks | fiberzone_afm/driver_commands.py:206-223 | the disconnect command is sent exactly when the two peer answers pass the check and no lock is then reported; a failed check or two free ports end the call after two queries; a lock reported after a passing check raises "Port .. or port .. is locked" |
| AfmLegacyMapping.DisconnectSuccessMeansFree | fiberzone_afm/driver_commands.py:226-229 | success after the command only on a pass where neither port was locked and neither reported a peer |
| AfmLegacyMapping.DisconnectFailureAfterCommand | fiberzone_afm/driver_commands.py:225-237 | a failure after the command is the timeout, once `timeout` has run, or a lock seen by the last query |
| AfmLegacyMapping.DisconnectOneOutcome | fiberzone_afm/driver_commands.py:197-207 | one port reporting no peer succeeds after one query; otherwise the only command is the disconnect of the port from the peer first reported, and only if the two fresh peer answers pass the check |
| AfmLegacyMapping.SweepUntilFailureSplit | fiberzone_afm/driver_commands.py:252-254 | running `a + b` is running `a` and, only if it succeeded, `b` from the state `a` left |
| AfmLegacyMapping.SweepUntilFailureOk | fiberzone_afm/driver_commands.py:252-254 | the loop succeeds only if every step succeeded, each from the state the earlier steps left |
| AfmLegacyMapping.ClearStopsAtFirstFailure | fiberzone_afm/driver_commands.py:252-254 | after a failure, later ports change neither the result nor the device state; success means every port's disconnect succeeded |
| AfmLegacyMapping.ClearToOutcome | fiberzone_afm/driver_commands.py:273-277 | more or fewer than one destination fails with no query; with one, only the pair's disconnect can be sent |
| AfmLegacyMapping.SetAttributeValue | fiberzone_afm/driver_commands.py:325 | the older `set_attribute_value` accepts every attribute and does nothing |
| AfmLegacyDriver.ConnectPorts | fiberzone_afm/driver_commands.py:169-192 | the older `_connect_ports` on the gateway gives the result and state of `AfmLegacyMapping.ConnectRun` |
| AfmLegacyDriver.DisconnectPorts | fiberzone_afm/driver_commands.py:194-237 | the older `_disconnect_ports` on the gateway gives the result and state of `AfmLegacyMapping.DisconnectRun` |
| AfmLegacyDriver.MapBidi | fiberzone_afm/driver_commands.py:103-105 | the older `map_bidi` is the older connect of the two converted ids |
| AfmLegacyDriver.MapClear | fiberzone_afm/driver_commands.py:252-254 | the older `for` loop, returning at the first failure, gives the result and state of `AfmLegacyMapping.ClearRun` |
| AfmLegacyDriver.MapClearTo | fiberzone_afm/driver_commands.py:273-277 | the older `map_clear_to` on the gateway gives the result and state of `AfmLegacyMapping.ClearToRun` |
| AfmRevisions.DisconnectOneSidedLink | fiberzone_afm/driver_commands.py:209-223 | a link seen from src only: the older revision sends the disconnect, the newer one refuses with "not connected" and sends nothing |
| AfmRevisions.ConnectLockedAndConnected | fiberzone_afm/driver_commands.py:172-177 | a port both locked and connected: the older revision refuses it as already connected, the newer one as locked |

## Left out

- Sessions, the CLI handler and the transport are left out. So are logging,
  `login`, `get_resource_description`, `get_attribute_value`,
  `set_speed_manual`, `get_state_id` and `set_state_id`: they are network
  I/O, or lie outside the connect and disconnect logic.
- The table parsers of the mapping and autoload actions are left out. The
  answers of `ports_info`, `port_connected` and `port_locked` come from the
  oracle.
- The older `MappingActions` (fiberzone_afm/command_actions/mapping_actions.py)
  defines only `connect` and `disconnect`. The `port_connected` and
  `port_locked` that the older driver calls are not part of this model.
  They are modelled as queries that always answer, with "" for no peer.
- The entity class behind the newer revision's rows is not part of this
  model. A row is `AfmPorts.PortInfo`, and an empty `connected` field stands
  for Python's falsy None or "".
- The newer `ports_info` is not part of this model. The model assumes a
  status query either answers a table or raises, and that an id missing
  from the table raises a KeyError whose one argument is the id. Any other
  exception is `DeviceFailure` with whatever arguments it carried. The `connect` and
  `disconnect` commands never fail and take no time.
- `RuntimeConfiguration` reads become parameters: `Config(timeout, delay)`
  for the newer revision and `timeout` for the older one. Python's float
  clock becomes an integer clock: each query advances it by that query's
  latency, and each sleep by its length.
- AfmConvergence.Await: requires a positive check delay. With a delay of
  zero and instant queries, the Python loop could spin for ever; the model
  does not cover that case. The older revision always sleeps 5, so it needs
  no such requirement.
- AfmLegacyMapping.ConnectFailureAfterCommand: states that `timeout` has
  run since the call began, not since the command. The `start_time` read
  after the four pre-command queries is not carried into this lemma, though
  AfmLegacyPolling.CommandOutcome states it from the command on.
- AfmLegacyMapping.DisconnectFailureAfterCommand: the same weakening as the
  connect lemma, for the same reason.

Two behaviours of the code that the model follows:
- During polling, the newer revision retries on a partial connection but
  raises on a mismatch (AfmStatus.PollVerdict,
  AfmConvergence.MismatchWhilePollingAborts). Before the command, it raises
  on both.
- The older single-port disconnect asks for the port's peer and then, like
  the pair form, asks again. The model makes that second query, and the
  consistency check uses the fresh answers.
