/**
 The `SimpleSwitch` Ryu application: an OpenFlow 1.0 L2 learning switch with a
 traffic counter for host 1 and a static rule blocking IPv4 traffic from host 2
 to host 3.

 The first half gives, as functions of the controller's state and the event's
 fields, what each handler does to the state and which messages it sends; the
 `Controller` class then implements the handlers imperatively, as the Python
 class does, and its methods are proved to agree with those functions.
 */
module SimpleSwitch {
  import opened OpenFlow

  /** The host whose traffic is counted and never offloaded to a flow rule. */
  const HOST1: Mac := "00:00:00:00:00:01"
  /** The two hosts of the block rule. */
  const HOST2: Mac := "00:00:00:00:00:02"
  const HOST3: Mac := "00:00:00:00:00:03"

  /** One datapath's learning table: MAC address to the port it was last seen on. */
  type Table = map<Mac, PortNo>
  /** `mac_to_port`: one learning table per datapath id. */
  type Tables = map<Dpid, Table>

  /** The controller's own state. */
  datatype SwitchState = SwitchState(macToPort: Tables, hostCounter: nat)

  /** The state of a freshly constructed controller. */
  function InitialState(): SwitchState
  {
    SwitchState(map[], 0)
  }

  /** The table of `dpid`, empty when the datapath has not been seen (what `setdefault` would insert). */
  function TableOf(tables: Tables, dpid: Dpid): Table
  {
    if dpid in tables then tables[dpid] else map[]
  }

  /** No learned port is the flood pseudo-port, as no port a switch reports a packet on is. */
  predicate NoFloodBindings(tables: Tables)
  {
    forall d, m :: d in tables && m in tables[d] ==> tables[d][m] != OFPP_FLOOD
  }

  // ---------------------------------------------------------------------------
  // Learning table
  // ---------------------------------------------------------------------------

  /** Create the table of `dpid` if needed and bind `src` to `inPort` in it, overwriting any earlier binding. */
  function Learn(tables: Tables, dpid: Dpid, src: Mac, inPort: PortNo): (r: Tables)
    ensures r.Keys == tables.Keys + {dpid}
    ensures src in r[dpid] && r[dpid][src] == inPort
    ensures r[dpid].Keys == TableOf(tables, dpid).Keys + {src}
    ensures forall m :: m in TableOf(tables, dpid) && m != src ==> r[dpid][m] == TableOf(tables, dpid)[m]
    ensures forall d :: d in tables && d != dpid ==> r[d] == tables[d]
  {
    tables[dpid := TableOf(tables, dpid)[src := inPort]]
  }

  /** The port to send a frame for `dst` to: the learned one, or the flood pseudo-port when unknown. */
  function Resolve(table: Table, dst: Mac): PortNo
  {
    if dst in table then table[dst] else OFPP_FLOOD
  }

  // ---------------------------------------------------------------------------
  // Packet-in
  // ---------------------------------------------------------------------------

  /** Whether a frame is to or from host 1. */
  predicate TouchesHost1(src: Mac, dst: Mac)
  {
    dst == HOST1 || src == HOST1
  }

  /** The traffic counter after a frame from `src` to `dst`: one more exactly when the frame touches host 1. */
  function CountHost1(counter: nat, src: Mac, dst: Mac): (c: nat)
    ensures c == counter + 1 <==> TouchesHost1(src, dst)
    ensures c == counter <==> !TouchesHost1(src, dst)
  {
    if dst == HOST1 || src == HOST1 then counter + 1 else counter
  }

  /** The output port chosen for a packet-in; the source is learned before the destination is looked up. */
  function OutPort(tables: Tables, dpid: Dpid, src: Mac, dst: Mac, inPort: PortNo): PortNo
  {
    Resolve(Learn(tables, dpid, src, inPort)[dpid], dst)
  }

  /** The gate in front of `add_flow`: a known destination and neither end is host 1. */
  predicate InstallsFlow(outPort: PortNo, src: Mac, dst: Mac)
  {
    outPort != OFPP_FLOOD && !TouchesHost1(src, dst)
  }

  /** The flow-mod that `add_flow` sends. */
  function ForwardRule(inPort: PortNo, dst: Mac, actions: seq<Action>): Message
  {
    FlowMod(Match(Some(inPort), None, None, Some(dst)), 0, OFPFC_ADD, 0, 0,
            OFP_DEFAULT_PRIORITY, OFPFF_SEND_FLOW_REM, actions)
  }

  /** The state after a packet-in from `src` to `dst` on `inPort` of datapath `dpid`. */
  function AfterPacketIn(s: SwitchState, dpid: Dpid, src: Mac, dst: Mac, inPort: PortNo): SwitchState
  {
    SwitchState(Learn(s.macToPort, dpid, src, inPort), CountHost1(s.hostCounter, src, dst))
  }

  /** The messages a packet-in makes the controller send to its datapath, in order. */
  function PacketInSends(s: SwitchState, dpid: Dpid, src: Mac, dst: Mac, inPort: PortNo, bufferId: BufferId)
    : (r: seq<Message>)
    ensures 1 <= |r| <= 2
    ensures |r| == 2 <==> InstallsFlow(OutPort(s.macToPort, dpid, src, dst, inPort), src, dst)
    ensures r[|r| - 1] == PacketOut(bufferId, inPort, [Output(OutPort(s.macToPort, dpid, src, dst, inPort))])
    ensures |r| == 2 ==>
      && r[0].FlowMod?
      && r[0].flowMatch == Match(Some(inPort), None, None, Some(dst))
      && r[0].cookie == 0 && r[0].command == OFPFC_ADD && r[0].idleTimeout == 0 && r[0].hardTimeout == 0
      && r[0].priority == OFP_DEFAULT_PRIORITY && r[0].flags == OFPFF_SEND_FLOW_REM
      && r[0].actions == r[1].actions
  {
    var outPort := OutPort(s.macToPort, dpid, src, dst, inPort);
    var actions := [Output(outPort)];
    var flow := if InstallsFlow(outPort, src, dst) then [ForwardRule(inPort, dst, actions)] else [];
    flow + [PacketOut(bufferId, inPort, actions)]
  }

  // ---------------------------------------------------------------------------
  // Connection state change: the block rules
  // ---------------------------------------------------------------------------

  /** The first match of `block_traffic_by_default`: IPv4 from host 2 to host 3. */
  function FirstBlockMatch(): Match
  {
    Match(None, Some(ETH_TYPE_IP), Some(HOST2), Some(HOST3))
  }

  /** The second match, as written: the same fields again, so again host 2 to host 3. */
  function SecondBlockMatch(): Match
  {
    Match(None, Some(ETH_TYPE_IP), Some(HOST2), Some(HOST3))
  }

  /** A drop rule: an empty action list, no idle or hard timeout, no flags. */
  function BlockRule(m: Match): Message
  {
    FlowMod(m, 0, OFPFC_ADD, 0, 0, OFP_DEFAULT_PRIORITY, 0, [])
  }

  /** The messages `block_traffic_by_default` sends, in order. */
  function BlockRules(): (r: seq<Message>)
    ensures |r| == 2
    ensures forall i :: 0 <= i < |r| ==>
      && r[i].FlowMod? && r[i].actions == []
      && r[i].cookie == 0 && r[i].command == OFPFC_ADD && r[i].idleTimeout == 0 && r[i].hardTimeout == 0
      && r[i].priority == OFP_DEFAULT_PRIORITY && r[i].flags == 0
      && r[i].flowMatch.inPort == None && r[i].flowMatch.dlType == Some(ETH_TYPE_IP)
      && r[i].flowMatch.dlSrc == Some(HOST2) && r[i].flowMatch.dlDst == Some(HOST3)
  {
    [BlockRule(FirstBlockMatch()), BlockRule(SecondBlockMatch())]
  }

  // ---------------------------------------------------------------------------
  // Port status
  // ---------------------------------------------------------------------------

  /** The log line the port-status handler chooses, the handler's only effect. */
  datatype PortNote =
    | PortAdded(port: PortNo)
    | PortDeleted(port: PortNo)
    | PortModified(port: PortNo)
    | IllegalPortState(port: PortNo, reason: nat)

  function PortNoteFor(reason: nat, portNo: PortNo): (n: PortNote)
    ensures n.port == portNo
    ensures n.IllegalPortState? <==> reason !in {OFPPR_ADD, OFPPR_DELETE, OFPPR_MODIFY}
    ensures n.IllegalPortState? ==> n.reason == reason
    ensures n.PortAdded? <==> reason == OFPPR_ADD
    ensures n.PortDeleted? <==> reason == OFPPR_DELETE
    ensures n.PortModified? <==> reason == OFPPR_MODIFY
  {
    if reason == OFPPR_ADD then PortAdded(portNo)
    else if reason == OFPPR_DELETE then PortDeleted(portNo)
    else if reason == OFPPR_MODIFY then PortModified(portNo)
    else IllegalPortState(portNo, reason)
  }

  // ---------------------------------------------------------------------------
  // The controller
  // ---------------------------------------------------------------------------

  class Controller {
    /** Learning tables, keyed by datapath id. */
    var macToPort: Tables
    /** Number of packet-ins seen to or from host 1. */
    var hostCounter: nat

    function State(): SwitchState
      reads this
    {
      SwitchState(macToPort, hostCounter)
    }

    constructor ()
      ensures State() == InitialState()
    {
      macToPort := map[];
      hostCounter := 0;
    }

    /** Send a forwarding rule for frames to `dst` arriving on `inPort`. */
    method AddFlow(dp: Datapath, inPort: PortNo, dst: Mac, actions: seq<Action>)
      modifies dp
      ensures dp.sent == old(dp.sent) + [ForwardRule(inPort, dst, actions)]
    {
      var flowMatch := Match(Some(inPort), None, None, Some(dst));
      var mod := FlowMod(flowMatch, 0, OFPFC_ADD, 0, 0, OFP_DEFAULT_PRIORITY, OFPFF_SEND_FLOW_REM, actions);
      dp.SendMsg(mod);
    }

    /** The packet-in handler, for a frame whose Ethernet header carries `src` and `dst`. */
    method PacketIn(dp: Datapath, inPort: PortNo, bufferId: BufferId, src: Mac, dst: Mac)
      modifies this, dp
      ensures State() == AfterPacketIn(old(State()), dp.id, src, dst, inPort)
      ensures dp.sent == old(dp.sent) + PacketInSends(old(State()), dp.id, src, dst, inPort, bufferId)
    {
      var dpid := dp.id;
      ghost var tables0 := macToPort;
      if dpid !in macToPort {
        macToPort := macToPort[dpid := map[]];
      }
      if dst == HOST1 || src == HOST1 {
        hostCounter := hostCounter + 1;
      }
      var table: Table := macToPort[dpid][src := inPort];
      macToPort := macToPort[dpid := table];
      var outPort;
      if dst in macToPort[dpid] {
        outPort := macToPort[dpid][dst];
      } else {
        outPort := OFPP_FLOOD;
      }
      assert macToPort == Learn(tables0, dpid, src, inPort);
      assert outPort == OutPort(tables0, dpid, src, dst, inPort);
      var actions := [Output(outPort)];
      if outPort != OFPP_FLOOD && !(dst == HOST1 || src == HOST1) {
        AddFlow(dp, inPort, dst, actions);
      }
      dp.SendMsg(PacketOut(bufferId, inPort, actions));
    }

    /** The port-status handler: it sends nothing and changes nothing; `note` is the line it logs. */
    method PortStatus(dp: Datapath, reason: nat, portNo: PortNo) returns (note: PortNote)
      ensures note == PortNoteFor(reason, portNo)
    {
      if reason == OFPPR_ADD {
        note := PortAdded(portNo);
      } else if reason == OFPPR_DELETE {
        note := PortDeleted(portNo);
      } else if reason == OFPPR_MODIFY {
        note := PortModified(portNo);
      } else {
        note := IllegalPortState(portNo, reason);
      }
    }

    /** Send the two drop rules for IPv4 traffic from host 2 to host 3. */
    method BlockTrafficByDefault(dp: Datapath)
      modifies dp
      ensures dp.sent == old(dp.sent) + BlockRules()
    {
      var firstMatch := Match(None, Some(ETH_TYPE_IP), Some(HOST2), Some(HOST3));
      dp.SendMsg(FlowMod(firstMatch, 0, OFPFC_ADD, 0, 0, OFP_DEFAULT_PRIORITY, 0, []));
      var secondMatch := Match(None, Some(ETH_TYPE_IP), Some(HOST2), Some(HOST3));
      dp.SendMsg(FlowMod(secondMatch, 0, OFPFC_ADD, 0, 0, OFP_DEFAULT_PRIORITY, 0, []));
    }

    /** The handler for a datapath entering the main state: install the block rules. */
    method OnStartupEvent(dp: Datapath)
      modifies dp
      ensures dp.sent == old(dp.sent) + BlockRules()
    {
      BlockTrafficByDefault(dp);
    }
  }
}
