/** Results and the errors the driver raises.

    Python signals every failure with an exception; here each raise site of
    either driver revision is one `Error` variant, and `Args` gives the tuple
    `e.args` the Python exception carries (the batch clear of the newer
    revision reads it). */
module AfmResults {

  datatype Option<+T> = None | Some(value: T)

  datatype Result<+T> = Ok(value: T) | Err(error: Error)

  /** The state a convergence poll waits for. */
  datatype Goal = Connection | Disconnection

  datatype Error =
      // raised by the newer revision
    | Mismatched(port: string)
    | PartiallyConnected(port: string)
    | Locked(port: string)
    | Disabled(port: string)
    | AlreadyConnected(src: string, dst: string)
    | NotConnectedTo(port: string, expected: string)
    | TimedOut(goal: Goal, src: string, dst: string, timeout: int)
    | AttributeNotSupported(name: string)
    | ClearFailed(joined: string)
      // raised by both revisions
    | Unidirectional
    | MultipleDst
      // raised by the older revision
    | PairLocked(src: string, dst: string)
    | PairLockedDuring(src: string, dst: string)
    | IncorrectSrc(dst: string, connected: string)
    | IncorrectDst(src: string, connected: string)
    | LegacyTimedOut(goal: Goal, src: string, dst: string, timeout: int)
      // raised by the device layer: a port missing from the status table
      // (taken here to be Python's KeyError with the id as its one
      // argument), or any other exception with whatever arguments it has
    | KeyError(key: string)
    | DeviceFailure(args: seq<string>)

  /** `self.__class__.__name__`, the first argument of most raises. */
  const ClassName: string := "DriverCommands"

  /** The text of a driver-raised error (for the device-layer errors, the
      exception's first argument, or "" when it has none). */
  function Message(e: Error): string
  {
    match e
    case Mismatched(p) => "Port " + p + " East and West connected to a different port ids"
    case PartiallyConnected(p) => "Port " + p + " partially connected"
    case Locked(p) => "Port " + p + " is locked"
    case Disabled(p) => "Port " + p + " is disabled"
    case AlreadyConnected(s, d) => "Port " + s + ", or port " + d + " has already been connected"
    case NotConnectedTo(p, q) => "Port " + p + " is not connected or connected not to port " + q
    case TimedOut(g, s, d, t) =>
      if g == Connection then "Cannot connect port " + s + " to port " + d + " during " + IntToString(t) + "sec"
      else "Cannot disconnect port " + s + " from port " + d + " during " + IntToString(t) + "sec"
    case AttributeNotSupported(n) => "SetAttribute " + n + " is not supported"
    case ClearFailed(j) => j
    case Unidirectional => "Unidirectional connections are not allowed"
    case MultipleDst => "MapClearTo operation is not allowed for multiple Dst ports"
    case PairLocked(s, d) => "Port " + s + " or port " + d + " is locked"
    case PairLockedDuring(s, d) => "Port " + s + " or port " + d + " has been locked"
    case IncorrectSrc(d, c) => "Dst Port " + d + " connected to incorrect Src Port " + c
    case IncorrectDst(s, c) => "Src Port " + s + " connected to incorrect Dst Port " + c
    case LegacyTimedOut(g, s, d, t) =>
      if g == Connection then "Cannot connect " + s + " to " + d + " during " + IntToString(t) + "sec"
      else "Cannot disconnect " + s + " from " + d + " during " + IntToString(t) + "sec"
    case KeyError(k) => k
    case DeviceFailure(a) => if a == [] then "" else a[0]
  }

  /** The exception's `args` tuple: the class name and the text for the
      driver's own raises, except the one-argument "not connected" raise;
      the key for a KeyError; whatever a foreign exception carried. */
  function Args(e: Error): seq<string>
  {
    if e.DeviceFailure? then e.args
    else if e.KeyError? || e.NotConnectedTo? then [Message(e)]
    else [ClassName, Message(e)]
  }

  /** Every error the driver raises itself carries one or two arguments;
      only a foreign exception may carry none. */
  lemma DriverErrorsHaveArgs(e: Error)
    requires !e.DeviceFailure?
    ensures 1 <= |Args(e)| <= 2
  {
  }

  /** Python's `sep.join(parts)`. */
  function Join(sep: string, parts: seq<string>): (r: string)
    ensures parts == [] ==> r == ""
    ensures |parts| == 1 ==> r == parts[0]
  {
    if |parts| == 0 then ""
    else if |parts| == 1 then parts[0]
    else Join(sep, parts[..|parts| - 1]) + sep + parts[|parts| - 1]
  }

  /** Python's `str(n)` for an integer. */
  function IntToString(n: int): string
  {
    if n < 0 then "-" + NatToString(-n) else NatToString(n)
  }

  function NatToString(n: nat): string
  {
    if n < 10 then [DigitChar(n)] else NatToString(n / 10) + [DigitChar(n % 10)]
  }

  function DigitChar(d: nat): char
    requires d < 10
  {
    "0123456789"[d]
  }
}
