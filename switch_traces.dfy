/**
 The controller over a sequence of events, delivered one at a time as the Ryu
 runtime does: the three handlers as one step function over the controller's
 state and the per-datapath logs of sent messages, and what holds after any
 sequence of events.
 */
module SwitchTraces {
  import opened OpenFlow
  import opened SimpleSwitch
  import opened SwitchProperties

  /** The three events the application handles. */
  datatype Event =
    | PacketInEvent(dpid: Dpid, inPort: PortNo, bufferId: BufferId, src: Mac, dst: Mac)
    | PortStatusEvent(dpid: Dpid, reason: nat, portNo: PortNo)
    | StateChangeEvent(dpid: Dpid)

  /** The controller's state together with the log of messages sent to each datapath. */
  datatype Network = Network(sw: SwitchState, logs: map<Dpid, seq<Message>>)

  function InitialNetwork(): Network
  {
    Network(InitialState(), map[])
  }

  /** The messages sent so far to datapath `d`. */
  function LogOf(logs: map<Dpid, seq<Message>>, d: Dpid): seq<Message>
  {
    if d in logs then logs[d] else []
  }

  /** Handling one event. */
  function Step(n: Network, e: Event): Network
  {
    match e
    case PacketInEvent(d, inPort, bufferId, src, dst) =>
      Network(AfterPacketIn(n.sw, d, src, dst, inPort),
              n.logs[d := LogOf(n.logs, d) + PacketInSends(n.sw, d, src, dst, inPort, bufferId)])
    case PortStatusEvent(_, _, _) => n
    case StateChangeEvent(d) => Network(n.sw, n.logs[d := LogOf(n.logs, d) + BlockRules()])
  }

  /** Handling the events of `evs` in order. */
  function Run(n: Network, evs: seq<Event>): Network
    decreases |evs|
  {
    if evs == [] then n else Step(Run(n, evs[..|evs| - 1]), evs[|evs| - 1])
  }

  // ---------------------------------------------------------------------------
  // Counting
  // ---------------------------------------------------------------------------

  /** Number of packet-ins in `evs` to or from host 1. */
  function Host1PacketIns(evs: seq<Event>): nat
    decreases |evs|
  {
    if evs == [] then 0
    else
      var e := evs[|evs| - 1];
      Host1PacketIns(evs[..|evs| - 1]) + if e.PacketInEvent? && TouchesHost1(e.src, e.dst) then 1 else 0
  }

  /** Number of packet-ins in `evs` from datapath `d`. */
  function PacketInsOn(evs: seq<Event>, d: Dpid): nat
    decreases |evs|
  {
    if evs == [] then 0
    else
      var e := evs[|evs| - 1];
      PacketInsOn(evs[..|evs| - 1], d) + if e.PacketInEvent? && e.dpid == d then 1 else 0
  }

  /** Number of packet-outs in `msgs`. */
  function PacketOuts(msgs: seq<Message>): nat
    decreases |msgs|
  {
    if msgs == [] then 0
    else PacketOuts(msgs[..|msgs| - 1]) + if msgs[|msgs| - 1].PacketOut? then 1 else 0
  }

  lemma {:induction false} PacketOutsAppend(a: seq<Message>, b: seq<Message>)
    ensures PacketOuts(a + b) == PacketOuts(a) + PacketOuts(b)
    decreases |b|
  {
    if b != [] {
      assert (a + b)[..|a + b| - 1] == a + b[..|b| - 1];
      PacketOutsAppend(a, b[..|b| - 1]);
    } else {
      assert a + b == a;
    }
  }

  /** The port of the last packet-in in `evs` on datapath `d` whose source is `m`, if there is one. */
  function LastPortOf(evs: seq<Event>, d: Dpid, m: Mac): Option<PortNo>
    decreases |evs|
  {
    if evs == [] then None
    else
      var e := evs[|evs| - 1];
      if e.PacketInEvent? && e.dpid == d && e.src == m then Some(e.inPort) else LastPortOf(evs[..|evs| - 1], d, m)
  }

  // ---------------------------------------------------------------------------
  // What holds after any sequence of events
  // ---------------------------------------------------------------------------

  /** The counter grows by exactly the number of packet-ins that touch host 1. */
  lemma {:induction false} RunCountsHost1(n: Network, evs: seq<Event>)
    ensures Run(n, evs).sw.hostCounter == n.sw.hostCounter + Host1PacketIns(evs)
    decreases |evs|
  {
    if evs != [] {
      RunCountsHost1(n, evs[..|evs| - 1]);
    }
  }

  /** A packet-in sends exactly one packet-out. */
  lemma OnePacketOutPerSends(s: SwitchState, dpid: Dpid, src: Mac, dst: Mac, inPort: PortNo, bufferId: BufferId)
    ensures PacketOuts(PacketInSends(s, dpid, src, dst, inPort, bufferId)) == 1
  {
    var sends := PacketInSends(s, dpid, src, dst, inPort, bufferId);
    var flow := sends[..|sends| - 1];
    assert flow == [] || flow == [sends[0]];
    if flow != [] {
      assert flow[..0] == [] && sends[0].FlowMod?;
    }
    assert PacketOuts(flow) == 0;
  }

  /** The block rules contain no packet-out. */
  lemma NoPacketOutInBlockRules()
    ensures PacketOuts(BlockRules()) == 0
  {
  }

  /** Each packet-in on `d` adds exactly one packet-out to the log of `d`; no other event adds any. */
  lemma {:induction false} RunOnePacketOutPerPacketIn(n: Network, evs: seq<Event>, d: Dpid)
    ensures PacketOuts(LogOf(Run(n, evs).logs, d)) == PacketOuts(LogOf(n.logs, d)) + PacketInsOn(evs, d)
    decreases |evs|
  {
    if evs != [] {
      var prev := Run(n, evs[..|evs| - 1]);
      RunOnePacketOutPerPacketIn(n, evs[..|evs| - 1], d);
      match evs[|evs| - 1]
      case PacketInEvent(d', inPort, bufferId, src, dst) =>
        if d' == d {
          var sends := PacketInSends(prev.sw, d, src, dst, inPort, bufferId);
          PacketOutsAppend(LogOf(prev.logs, d), sends);
          OnePacketOutPerSends(prev.sw, d, src, dst, inPort, bufferId);
        }
      case PortStatusEvent(_, _, _) =>
      case StateChangeEvent(d') =>
        if d' == d {
          PacketOutsAppend(LogOf(prev.logs, d), BlockRules());
          NoPacketOutInBlockRules();
        }
    }
  }

  /** Last write wins over a whole run: a MAC is bound to the port of its last packet-in on that datapath,
      and a MAC with no packet-in keeps its earlier binding (or lack of one). */
  lemma {:induction false} RunLearnsLastPort(n: Network, evs: seq<Event>, d: Dpid, m: Mac)
    ensures var t := TableOf(Run(n, evs).sw.macToPort, d);
      match LastPortOf(evs, d, m)
      case Some(p) => m in t && t[m] == p
      case None =>
        && (m in t <==> m in TableOf(n.sw.macToPort, d))
        && (m in t ==> t[m] == TableOf(n.sw.macToPort, d)[m])
    decreases |evs|
  {
    if evs != [] {
      RunLearnsLastPort(n, evs[..|evs| - 1], d, m);
    }
  }

  /** Datapaths are isolated: events of other datapaths leave the table and the log of `d` as they were. */
  lemma {:induction false} RunIsolation(n: Network, evs: seq<Event>, d: Dpid)
    requires forall i :: 0 <= i < |evs| ==> evs[i].dpid != d
    ensures TableOf(Run(n, evs).sw.macToPort, d) == TableOf(n.sw.macToPort, d)
    ensures LogOf(Run(n, evs).logs, d) == LogOf(n.logs, d)
    decreases |evs|
  {
    if evs != [] {
      RunIsolation(n, evs[..|evs| - 1], d);
    }
  }

  /** No packet-in in `evs` claims to have arrived on the flood pseudo-port. */
  predicate NoFloodInPorts(evs: seq<Event>)
  {
    forall i :: 0 <= i < |evs| && evs[i].PacketInEvent? ==> evs[i].inPort != OFPP_FLOOD
  }

  /** A flow rule the controller may send: one of the drop rules, or a forwarding rule to a single port
      that is not the flood pseudo-port, for frames not addressed to host 1. */
  predicate SafeRule(msg: Message)
  {
    msg.FlowMod? ==>
      || msg == BlockRule(FirstBlockMatch())
      || (msg.flowMatch.dlDst != Some(HOST1) && |msg.actions| == 1 && msg.actions[0].port != OFPP_FLOOD)
  }

  predicate SafeLogs(logs: map<Dpid, seq<Message>>)
  {
    forall d, i :: d in logs && 0 <= i < |logs[d]| ==> SafeRule(logs[d][i])
  }

  /** Starting from tables without the flood pseudo-port and safe logs, a run keeps the flood pseudo-port out
      of the tables and never sends a flow rule that floods or that carries traffic to host 1. */
  lemma {:induction false} RunSendsSafeRules(n: Network, evs: seq<Event>)
    requires NoFloodBindings(n.sw.macToPort) && SafeLogs(n.logs)
    requires NoFloodInPorts(evs)
    ensures NoFloodBindings(Run(n, evs).sw.macToPort)
    ensures SafeLogs(Run(n, evs).logs)
    decreases |evs|
  {
    if evs != [] {
      var prefix := evs[..|evs| - 1];
      assert NoFloodInPorts(prefix) by {
        forall i | 0 <= i < |prefix| && prefix[i].PacketInEvent?
          ensures prefix[i].inPort != OFPP_FLOOD
        {
          assert prefix[i] == evs[i];
        }
      }
      RunSendsSafeRules(n, prefix);
      var prev := Run(n, prefix);
      var e := evs[|evs| - 1];
      match e
      case PacketInEvent(d, inPort, bufferId, src, dst) =>
        LearnKeepsNoFloodBindings(prev.sw.macToPort, d, src, inPort);
        SafePacketInSends(prev.sw, d, src, dst, inPort, bufferId);
        AppendSafe(prev.logs, d, PacketInSends(prev.sw, d, src, dst, inPort, bufferId));
      case PortStatusEvent(_, _, _) =>
      case StateChangeEvent(d) =>
        AppendSafe(prev.logs, d, BlockRules());
    }
  }

  /** Without the flood pseudo-port in the tables or as in-port, every flow rule a packet-in sends is safe. */
  lemma SafePacketInSends(s: SwitchState, dpid: Dpid, src: Mac, dst: Mac, inPort: PortNo, bufferId: BufferId)
    requires NoFloodBindings(s.macToPort) && inPort != OFPP_FLOOD
    ensures forall i :: 0 <= i < |PacketInSends(s, dpid, src, dst, inPort, bufferId)| ==>
      SafeRule(PacketInSends(s, dpid, src, dst, inPort, bufferId)[i])
  {
  }

  /** Appending safe messages to one datapath's log keeps all logs safe. */
  lemma AppendSafe(logs: map<Dpid, seq<Message>>, d: Dpid, msgs: seq<Message>)
    requires SafeLogs(logs)
    requires forall i :: 0 <= i < |msgs| ==> SafeRule(msgs[i])
    ensures SafeLogs(logs[d := LogOf(logs, d) + msgs])
  {
  }

  // ---------------------------------------------------------------------------
  // A scenario
  // ---------------------------------------------------------------------------

  const HOST_X: Mac := "00:00:00:00:00:0a"
  const HOST_Y: Mac := "00:00:00:00:00:0b"

  /** Datapath 1 connects; X on port 1 sends to the unknown Y (flooded, no flow rule); Y on port 2 answers X,
      which is now known on port 1, so a flow rule for (port 2, X) goes out before the packet-out. */
  lemma ConnectThenLearn()
    ensures var evs := [StateChangeEvent(1), PacketInEvent(1, 1, 100, HOST_X, HOST_Y),
                        PacketInEvent(1, 2, 101, HOST_Y, HOST_X)];
      var n := Run(InitialNetwork(), evs);
      && LogOf(n.logs, 1) == BlockRules() + [PacketOut(100, 1, [Output(OFPP_FLOOD)]),
                                             ForwardRule(2, HOST_X, [Output(1)]),
                                             PacketOut(101, 2, [Output(1)])]
      && TableOf(n.sw.macToPort, 1) == map[HOST_X := 1, HOST_Y := 2]
      && n.sw.hostCounter == 0
  {
    var e0, e1, e2 := StateChangeEvent(1), PacketInEvent(1, 1, 100, HOST_X, HOST_Y), PacketInEvent(1, 2, 101, HOST_Y, HOST_X);
    var evs := [e0, e1, e2];
    assert evs[..2] == [e0, e1] && [e0, e1][..1] == [e0] && [e0][..0] == [];
    var n1 := Step(InitialNetwork(), e0);
    assert Run(InitialNetwork(), [e0]) == n1;
    var n2 := Step(n1, e1);
    assert Run(InitialNetwork(), [e0, e1]) == n2;
    assert HOST_Y !in Learn(map[], 1, HOST_X, 1)[1];
    assert HOST_X[16] != HOST1[16] && HOST_Y[16] != HOST1[16];
  }

  /** The same scenario driven through the `Controller` class, relying only on its methods' contracts. */
  method ConnectThenLearnOnController() returns (log: seq<Message>, table: Table, counter: nat)
    ensures log == BlockRules() + [PacketOut(100, 1, [Output(OFPP_FLOOD)]),
                                   ForwardRule(2, HOST_X, [Output(1)]),
                                   PacketOut(101, 2, [Output(1)])]
    ensures table == map[HOST_X := 1, HOST_Y := 2]
    ensures counter == 0
  {
    var c := new Controller();
    var dp := new Datapath(1);
    c.OnStartupEvent(dp);
    c.PacketIn(dp, 1, 100, HOST_X, HOST_Y);
    assert HOST_Y !in Learn(map[], 1, HOST_X, 1)[1];
    var note := c.PortStatus(dp, OFPPR_MODIFY, 3);
    assert note == PortModified(3);
    c.PacketIn(dp, 2, 101, HOST_Y, HOST_X);
    log, table, counter := dp.sent, c.macToPort[1], c.hostCounter;
  }
}
