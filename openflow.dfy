/**
 The part of the OpenFlow 1.0 protocol that the learning switch uses: the
 constants of `ofproto_v1_0`, the fields of the match, action, flow-mod and
 packet-out messages it builds (not their byte encoding), and a datapath
 whose `send_msg` appends to a log of outbound messages.
 */
module OpenFlow {

  /** Datapath id (64 bits on the wire). */
  type Dpid = nat
  /** Switch port number (16 bits on the wire). */
  type PortNo = nat
  /** Buffer id of a packet held by the switch (32 bits on the wire). */
  type BufferId = nat
  /** An Ethernet address as the packet library renders it, e.g. "00:00:00:00:00:01". */
  type Mac = string

  /** Pseudo-port "all physical ports except the input port", `enum ofp_port` (OpenFlow 1.0.0, section 5.2.1).
      A switch never reports a packet as received on it. */
  const OFPP_FLOOD: PortNo := 0xfffb

  /** `ofp_flow_mod_command`: add a new flow (OpenFlow 1.0.0, section 5.3.3). */
  const OFPFC_ADD: nat := 0
  /** `OFP_DEFAULT_PRIORITY`. */
  const OFP_DEFAULT_PRIORITY: nat := 0x8000
  /** `ofp_flow_mod_flags`: send a flow-removed message when the entry expires or is deleted. */
  const OFPFF_SEND_FLOW_REM: nat := 1
  /** Ethertype of IPv4 (`ether.ETH_TYPE_IP`). */
  const ETH_TYPE_IP: nat := 0x0800

  /** `ofp_port_reason` (OpenFlow 1.0.0, section 5.4.3). */
  const OFPPR_ADD: nat := 0
  const OFPPR_DELETE: nat := 1
  const OFPPR_MODIFY: nat := 2

  datatype Option<T> = None | Some(value: T)

  /** `ofp_match`: a field that is `None` is wildcarded. Only the fields the switch sets are kept. */
  datatype Match = Match(inPort: Option<PortNo>, dlType: Option<nat>, dlSrc: Option<Mac>, dlDst: Option<Mac>)

  /** `ofp_action_output`. */
  datatype Action = Output(port: PortNo)

  /** The two messages the controller sends (sections 5.3.3 and 5.3.6 of OpenFlow 1.0.0). */
  datatype Message =
    | FlowMod(flowMatch: Match, cookie: nat, command: nat, idleTimeout: nat, hardTimeout: nat,
              priority: nat, flags: nat, actions: seq<Action>)
    | PacketOut(bufferId: BufferId, inPort: PortNo, actions: seq<Action>)

  /** A connected switch. The controller only reads its id and sends it messages. */
  class Datapath {
    const id: Dpid
    /** Every message handed to `send_msg`, oldest first. */
    var sent: seq<Message>

    constructor (id: Dpid)
      ensures this.id == id && sent == []
    {
      this.id := id;
      sent := [];
    }

    /** `send_msg`: fire-and-forget, modelled as appending to the log. */
    method SendMsg(m: Message)
      modifies this
      ensures sent == old(sent) + [m]
    {
      sent := sent + [m];
    }
  }
}
