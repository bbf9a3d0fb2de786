/** The port status model shared by both driver revisions. */
module AfmPorts {

  /** A port id as the device names it: the last component of a port
      address such as "192.168.42.240/1/21". */
  type PortId = string

  /** One physical face (east or west) of a logical port, as one row of the
      device's status table reports it. An empty `connected` means the side
      terminates to no peer. */
  datatype PortSide = PortSide(locked: bool, disabled: bool, connected: PortId)

  /** The `*ports` of `_disconnect_ports` in both revisions: one id, or an
      explicit pair. */
  datatype Request = One(port: PortId) | Pair(src: PortId, dst: PortId)

  /** A logical port: always one east and one west side. */
  datatype PortInfo = PortInfo(portId: PortId, east: PortSide, west: PortSide)

  /** Python truthiness of the side's peer field. */
  predicate HasPeer(side: PortSide)
  {
    side.connected != ""
  }

  /** `cs_port.split('/')[-1]`: the text after the last '/', or the whole
      address when it holds none. */
  function ConvertPort(address: string): (id: PortId)
    ensures '/' !in id
    ensures |id| <= |address| && address[|address| - |id|..] == id
    ensures |id| < |address| ==> address[|address| - |id| - 1] == '/'
  {
    if address == [] then []
    else if address[|address| - 1] == '/' then []
    else ConvertPort(address[..|address| - 1]) + [address[|address| - 1]]
  }

  /** Converting an address whose last component is `id` yields `id`. */
  lemma {:induction false} ConvertPortOfAddress(prefix: string, id: string)
    requires '/' !in id
    ensures ConvertPort(prefix + "/" + id) == id
  {
    var a := prefix + "/" + id;
    assert a[|a| - |id| - 1] == '/';
    assert a[|a| - |id|..] == id;
  }

  /** A port id converts to itself, so converting twice changes nothing. */
  lemma ConvertPortIdempotent(address: string)
    ensures ConvertPort(ConvertPort(address)) == ConvertPort(address)
  {
  }
}
