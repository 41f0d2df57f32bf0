# OpenFlow 1.0 learning switch with a host-1 counter and a static block rule

A Dafny model of `SimpleSwitch`, a Ryu controller application for OpenFlow 1.0
switches. The application keeps one MAC-to-port learning table per datapath. It
counts the packet-ins to or from host `00:00:00:00:00:01`, and on each packet-in
it sends at most one flow-add and exactly one packet-out. When a datapath
becomes active it installs two drop rules for IPv4 traffic from host `...:02`
to host `...:03`.

Layout:

- `openflow.dfy`, module `OpenFlow`: the protocol constants the application
  uses and the fields of the messages it sends. These follow sections 5.2.1,
  5.3.3, 5.3.6 and 5.4.3 of the OpenFlow Switch Specification 1.0.0
  (`OFPP_FLOOD = 0xfffb`, `OFPFC_ADD = 0`, `OFP_DEFAULT_PRIORITY = 0x8000`,
  `OFPFF_SEND_FLOW_REM = 1`, reasons ADD/DELETE/MODIFY = 0/1/2). The module
  also holds a `Datapath` class whose `SendMsg` appends to a log of sent
  messages.
- `simple_switch.dfy`, module `SimpleSwitch`: two halves. First, what each
  handler does, as functions of the controller state (`mac_to_port`,
  `hostCounter`) and the event's fields. Second, the `Controller` class, which
  mirrors the Python class field for field and handler for handler. Each of its
  methods is proved to produce the state and messages those functions give.
- `switch_properties.dfy`, module `SwitchProperties`: properties of one
  packet-in or one connection event.
- `switch_traces.dfy`, module `SwitchTraces`: the handlers driven by a sequence
  of events, one at a time, as the Ryu runtime delivers them. It proves
  inductive properties of every run and a concrete connect-then-learn scenario.

Points where the code does less than one might expect; the model follows the code:

- The comment at simple_switch.py:134 says the rules block IP traffic between
  h2 and h3. The two rules built at simple_switch.py:138 and simple_switch.py:141
  both match the same direction, IPv4 from `...:02` to `...:03`. Nothing blocks
  `...:03` to `...:02` (`SwitchProperties.BlockRulesOneDirection`).
- The packet-out at simple_switch.py:111-113 carries only the buffer id, the
  in-port and the actions. No raw payload goes with it, even for an unbuffered
  packet.
- The gate at simple_switch.py:106 installs a flow rule only when the output
  port is not `OFPP_FLOOD`. A flooded first packet therefore gets only a
  packet-out (`SwitchTraces.ConnectThenLearn`).
- The code has no guard for a frame without an Ethernet header: `eth.dst` at
  simple_switch.py:84 would fail. The model's packet-in takes the parsed `src`
  and `dst` as arguments, so a parsed header is its precondition.

## Model

| member | source | states |
|---|---|---|
| `OpenFlow.Datapath.SendMsg` | simple_switch.py:114 | `send_msg` appends the message to the datapath's log and changes nothing else |
| `SimpleSwitch.Learn` | simple_switch.py:88-97 | the table of `dpid` is created if absent; `src` is bound to `in_port`, overwriting any earlier binding; every other MAC of that table and every other datapath's table are unchanged |
| `SimpleSwitch.CountHost1` | simple_switch.py:92-93 | the counter grows by exactly one if and only if `src` or `dst` is host 1, and is unchanged otherwise |
| `SimpleSwitch.PacketInSends` | simple_switch.py:98-114 | a packet-in sends one or two messages. The last is always the packet-out (`buffer_id`, `in_port`, `[Output(out_port)]`). A flow-mod comes first if and only if `out_port` is not `OFPP_FLOOD` and host 1 is not involved. It matches `(in_port, dl_dst = dst)`, with cookie 0, ADD, timeouts 0, default priority, `SEND_FLOW_REM` and the packet-out's actions |
| `SimpleSwitch.BlockRules` | simple_switch.py:135-143 | two flow-mods, each with cookie 0, ADD, no idle or hard timeout, default priority, no flags and an empty action list, matching IPv4 from host 2 to host 3 |
| `SimpleSwitch.PortNoteFor` | simple_switch.py:125-132 | the log line of a port-status event: added, deleted or modified for reasons 0, 1, 2, and "illegal" with the reason for any other value |
| `SimpleSwitch.Controller.constructor` | simple_switch.py:41-44 | a new controller has empty learning tables and a zero counter |
| `SimpleSwitch.Controller.AddFlow` | simple_switch.py:45-55 | sends exactly one forwarding flow-mod for `(in_port, dst)` with the given actions |
| `SimpleSwitch.Controller.PacketIn` | simple_switch.py:84-114 | the new state is the old one after learning `src` and counting host 1; the datapath's log grows by exactly `PacketInSends` of the old state |
| `SimpleSwitch.Controller.PortStatus` | simple_switch.py:118-132 | chooses the log line `PortNoteFor(reason, port_no)`; it has no `modifies` clause, so it changes no state and sends no message |
| `SimpleSwitch.Controller.BlockTrafficByDefault` | simple_switch.py:135-143 | the datapath's log grows by exactly the two block rules; the controller's state is untouched |
| `SimpleSwitch.Controller.OnStartupEvent` | simple_switch.py:146-150 | a connection event sends the two block rules and nothing else |
| `SwitchProperties.OutPortLearnsFirst` | simple_switch.py:97-101 | learning happens before lookup, so `src == dst` resolves to `in_port`. Otherwise the output port is the destination's earlier binding, or `OFPP_FLOOD` when it has none |
| `SwitchProperties.LearnKeepsNoFloodBindings` | simple_switch.py:97 | learning an in-port other than `OFPP_FLOOD` keeps `OFPP_FLOOD` out of every learned binding |
| `SwitchProperties.FlowSentIffDestinationKnown` | simple_switch.py:98-107 | when no learned port and not the in-port is `OFPP_FLOOD` (true of every port a switch reports, `OFPP_LOCAL` included), a flow-mod is sent if and only if the destination is known (earlier, or as the source itself) and neither end is host 1 |
| `SwitchProperties.PacketInChangesOneEntry` | simple_switch.py:88-97 | a packet-in changes only the entry `(dpid, src)`: every other datapath's table and every other MAC keep their presence and port |
| `SwitchProperties.PacketInIsolation` | simple_switch.py:88-97 | a packet-in leaves the table of every other datapath equal to what it was |
| `SwitchProperties.RelearnOverwrites` | simple_switch.py:97 | last write wins: a MAC seen on port 1 and then on port 2 resolves to port 2 |
| `SwitchProperties.RepeatedPacketInIdempotent` | simple_switch.py:97-114 | repeating the same packet-in leaves the tables unchanged and sends the same messages again |
| `SwitchProperties.CounterDoesNotSteer` | simple_switch.py:92-114 | the counter never influences forwarding: equal tables give equal messages and equal new tables whatever the counters |
| `SwitchProperties.Host1NeverOffloaded` | simple_switch.py:92-93 | traffic to or from host 1 raises the counter by one and gets only the packet-out, never a flow-mod |
| `SwitchProperties.UnknownDestinationFloods` | simple_switch.py:98-101 | on a fresh controller a frame to another host is flooded and no flow-mod is sent |
| `SwitchProperties.BlockRulesOneDirection` | simple_switch.py:138-142 | the two block rules are identical, and neither matches traffic from host 3 |
| `SwitchTraces.RunCountsHost1` | simple_switch.py:92-93 | after any sequence of events, the counter has grown by exactly the number of packet-ins that touch host 1 |
| `SwitchTraces.OnePacketOutPerSends` | simple_switch.py:111-114 | each packet-in sends exactly one packet-out |
| `SwitchTraces.NoPacketOutInBlockRules` | simple_switch.py:135-143 | the connection handler sends no packet-out |
| `SwitchTraces.RunOnePacketOutPerPacketIn` | simple_switch.py:111-114 | after any run, the number of packet-outs in a datapath's log has grown by exactly the number of its packet-ins |
| `SwitchTraces.RunLearnsLastPort` | simple_switch.py:97 | after any run, a MAC with a packet-in on a datapath is bound there to the in-port of its last packet-in; a MAC without one keeps its earlier binding or absence |
| `SwitchTraces.RunIsolation` | simple_switch.py:88-97 | events of other datapaths leave a datapath's table and message log exactly as they were |
| `SwitchTraces.SafePacketInSends` | simple_switch.py:103-107 | when no learned port and not the in-port is `OFPP_FLOOD`, every flow-mod a packet-in sends forwards to one port, never floods, and is not for host 1 |
| `SwitchTraces.AppendSafe` | simple_switch.py:55 | appending safe messages to one datapath's log keeps every log safe |
| `SwitchTraces.RunSendsSafeRules` | simple_switch.py:97-143 | if no packet-in reports `OFPP_FLOOD` as its in-port, every run keeps `OFPP_FLOOD` out of the tables. Every flow-mod ever sent is then a drop rule or a forwarding rule to one port other than `OFPP_FLOOD`, not for host 1 |
| `SwitchTraces.ConnectThenLearn` | simple_switch.py:97-150 | connect, X to unknown Y on port 1, then Y to X on port 2. The datapath gets the two block rules, a flooded packet-out, a flow-mod for `(port 2, X)` to port 1, and a packet-out to port 1 |
| `SwitchTraces.ConnectThenLearnOnController` | simple_switch.py:84-150 | the same scenario through the `Controller` methods, with a port-status event between the two packet-ins, yields the same log, table and counter, using only their contracts. So the port-status handler leaves the log, the table and the counter alone |

## Left out

- Ryu plumbing (`RyuApp`, `@set_ev_cls`, `MAIN_DISPATCHER`): the handlers are methods called directly. A sequence of events is modelled by `SwitchTraces.Run`.
- Packet parsing (`packet.Packet`, `get_protocol`) and `haddr_to_bin`: these are library calls. `src` and `dst` are inputs, and MAC addresses are their text form.
- The ARP/IPv4/LLDP classification at simple_switch.py:62-80: it only chooses what to log.
- Logging: the `logger.info` calls are not modelled. The exception is the port-status handler: its only effect is choosing a log line, so that choice is its result (`PortNote`).
- Wire encoding and transport of `OFPFlowMod` and `OFPPacketOut`: a send appends an abstract record to the datapath's log. The flow-mod fields that the code leaves at the library's defaults (`buffer_id`, `out_port`) are not modelled. The ones it sets are (match, cookie, command, timeouts, priority, flags, actions). The block rules' idle timeout and flags are the library defaults, 0.
- Integer widths: ports, datapath ids and buffer ids are naturals. The fact that matters, that no in-port is `OFPP_FLOOD`, is a hypothesis of the lemmas that need it, not a precondition of the handler.
- `hostCounter` is a class attribute that `+=` shadows with an instance attribute. The model has one field per controller.
- Flow-table behaviour at the switch (matching, priority ties with the block rules, duplicate inserts), eviction and concurrency: the code has none of these.
