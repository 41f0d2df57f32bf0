/**
 Properties of one handler call: how a packet-in learns and forwards, what it
 leaves alone, and what the connection handler installs.
 */
module SwitchProperties {
  import opened OpenFlow
  import opened SimpleSwitch

  /** Learning happens before lookup: a frame to itself goes back out of its own port; otherwise the
      destination's port is the one learned before the frame arrived, or flood when there was none. */
  lemma OutPortLearnsFirst(tables: Tables, dpid: Dpid, src: Mac, dst: Mac, inPort: PortNo)
    ensures dst == src ==> OutPort(tables, dpid, src, dst, inPort) == inPort
    ensures dst != src && dst in TableOf(tables, dpid) ==>
      OutPort(tables, dpid, src, dst, inPort) == TableOf(tables, dpid)[dst]
    ensures dst != src && dst !in TableOf(tables, dpid) ==> OutPort(tables, dpid, src, dst, inPort) == OFPP_FLOOD
  {
  }

  /** Learning a port other than the flood pseudo-port keeps the flood pseudo-port out of the tables. */
  lemma LearnKeepsNoFloodBindings(tables: Tables, dpid: Dpid, src: Mac, inPort: PortNo)
    requires NoFloodBindings(tables) && inPort != OFPP_FLOOD
    ensures NoFloodBindings(Learn(tables, dpid, src, inPort))
  {
  }

  /** When no learned port and not the in-port is the flood pseudo-port, a flow rule is sent
      exactly when the destination is known (learned earlier, or the source itself) and host 1 is not involved. */
  lemma FlowSentIffDestinationKnown(s: SwitchState, dpid: Dpid, src: Mac, dst: Mac, inPort: PortNo, bufferId: BufferId)
    requires NoFloodBindings(s.macToPort) && inPort != OFPP_FLOOD
    ensures |PacketInSends(s, dpid, src, dst, inPort, bufferId)| == 2 <==>
      (dst == src || dst in TableOf(s.macToPort, dpid)) && !TouchesHost1(src, dst)
  {
  }

  /** A packet-in changes the table of its own datapath only, and there only the entry of its source. */
  lemma PacketInChangesOneEntry(s: SwitchState, dpid: Dpid, src: Mac, dst: Mac, inPort: PortNo, d: Dpid, m: Mac)
    requires d != dpid || m != src
    ensures var t := AfterPacketIn(s, dpid, src, dst, inPort).macToPort;
      && (m in TableOf(t, d) <==> m in TableOf(s.macToPort, d))
      && (m in TableOf(t, d) ==> TableOf(t, d)[m] == TableOf(s.macToPort, d)[m])
  {
  }

  /** Per-datapath isolation: a packet-in leaves the table of every other datapath exactly as it was. */
  lemma PacketInIsolation(s: SwitchState, dpid: Dpid, src: Mac, dst: Mac, inPort: PortNo, d: Dpid)
    requires d != dpid
    ensures TableOf(AfterPacketIn(s, dpid, src, dst, inPort).macToPort, d) == TableOf(s.macToPort, d)
  {
  }

  /** Last write wins: seeing a MAC on a second port overwrites the first binding. */
  lemma RelearnOverwrites(s: SwitchState, dpid: Dpid, mac: Mac, dst1: Mac, dst2: Mac, port1: PortNo, port2: PortNo)
    ensures var s2 := AfterPacketIn(AfterPacketIn(s, dpid, mac, dst1, port1), dpid, mac, dst2, port2);
      mac in TableOf(s2.macToPort, dpid) && TableOf(s2.macToPort, dpid)[mac] == port2
  {
  }

  /** Repeating a packet-in leaves the tables as the first one left them and sends the same messages again. */
  lemma RepeatedPacketInIdempotent(s: SwitchState, dpid: Dpid, src: Mac, dst: Mac, inPort: PortNo, bufferId: BufferId)
    ensures var s1 := AfterPacketIn(s, dpid, src, dst, inPort);
      && AfterPacketIn(s1, dpid, src, dst, inPort).macToPort == s1.macToPort
      && PacketInSends(s1, dpid, src, dst, inPort, bufferId) == PacketInSends(s, dpid, src, dst, inPort, bufferId)
  {
    var t := Learn(s.macToPort, dpid, src, inPort);
    var t2 := Learn(t, dpid, src, inPort);
    assert t2[dpid] == t[dpid];
    assert t2 == t;
  }

  /** The host-1 counter never steers forwarding: two states with the same tables send the same messages. */
  lemma CounterDoesNotSteer(s1: SwitchState, s2: SwitchState, dpid: Dpid, src: Mac, dst: Mac, inPort: PortNo,
                            bufferId: BufferId)
    requires s1.macToPort == s2.macToPort
    ensures PacketInSends(s1, dpid, src, dst, inPort, bufferId) == PacketInSends(s2, dpid, src, dst, inPort, bufferId)
    ensures AfterPacketIn(s1, dpid, src, dst, inPort).macToPort == AfterPacketIn(s2, dpid, src, dst, inPort).macToPort
  {
  }

  /** A frame to or from host 1 is counted and never gets a flow rule, but still gets its packet-out. */
  lemma Host1NeverOffloaded(s: SwitchState, dpid: Dpid, src: Mac, dst: Mac, inPort: PortNo, bufferId: BufferId)
    requires src == HOST1 || dst == HOST1
    ensures AfterPacketIn(s, dpid, src, dst, inPort).hostCounter == s.hostCounter + 1
    ensures PacketInSends(s, dpid, src, dst, inPort, bufferId)
         == [PacketOut(bufferId, inPort, [Output(OutPort(s.macToPort, dpid, src, dst, inPort))])]
  {
  }

  /** A frame to a destination never seen on a fresh controller is flooded, and no flow rule is sent. */
  lemma UnknownDestinationFloods(dpid: Dpid, src: Mac, dst: Mac, inPort: PortNo, bufferId: BufferId)
    requires src != dst
    ensures PacketInSends(InitialState(), dpid, src, dst, inPort, bufferId)
         == [PacketOut(bufferId, inPort, [Output(OFPP_FLOOD)])]
  {
  }

  /** The block rules as written drop one direction only: both are host 2 to host 3, none host 3 to host 2. */
  lemma BlockRulesOneDirection()
    ensures BlockRules()[0] == BlockRules()[1]
    ensures forall i :: 0 <= i < |BlockRules()| ==> BlockRules()[i].flowMatch.dlSrc != Some(HOST3)
  {
  }
}
