/** The transmit process of a node with collision avoidance as the simulator runs it:
    the loop body tests the node's state twelve times in a row (schedule_tx first,
    start_nav last), each test handling its state and possibly yielding a timeout; a
    run resumes where the process last yielded and goes on to the next timeout, each
    sweep of the body ending with the test for the end of the simulation. */
module Process {
  import opened Params
  import opened Rand
  import opened Phy
  import opened Backoff
  import opened Packets
  import opened Sim
  import opened Retry
  import opened Transmit

  /** Whether the k-th state test handles state s: both listening states are tested
      twice (no RTS heard, then an RTS heard). */
  predicate Handles(k: nat, s: CaState)
  {
    StateBlock(s) <= k <= StateBlock(s) + (if s == Phase1Listen || s == Phase2Listen then 1 else 0)
  }

  /** A sweep that reaches the k-th test has not yet passed the node's state (rts: an
      RTS was heard): the state is handled at k or later, or only by the next sweep
      (schedule_tx and want_transmit, which a later test may lead back to). */
  predicate Ahead(k: nat, s: CaState, rts: bool)
  {
    || s == ScheduleTx || s == WantTransmit || k <= StateBlock(s)
    || (k == StateBlock(s) + 1 && rts && (s == Phase1Listen || s == Phase2Listen))
  }

  /** What a run of the process keeps of the network and the node. */
  ghost predicate Fit(c: Config, net: Network, node: Node)
    reads net`packetsAtBS, node`nRetry, node`retryBin, node`retryRtsBin, node`wbusyBE, node`nRetryRts, node`caState
    reads node.packet`ptype, node.packet`pl, node.packet`rectime
  {
    net.Valid() && c == net.cfg && ValidConfig(c) && c.ca && node in net.nodes && node.Inv(c) && node.CaShape()
  }

  /** The first CCA probe of the draws reads the channel flags as they are. */
  predicate FirstProbe(net: Network, d: Draws)
    requires |d.probes| > 0
    reads net`channelBusyRts, net`channelBusyData
  {
    d.probes[0].busyRts == net.channelBusyRts && d.probes[0].busyData == net.channelBusyData
  }

  /** What a state test that handles the node's state keeps and how it leaves the
      node: after it, unless it yields, the sweep has passed the node's state; when it
      yields, the node is where it resumes. */
  ghost predicate Moved(c: Config, net: Network, node: Node, k: nat, out: Outcome)
    reads net`packetsAtBS, node`nRetry, node`retryBin, node`retryRtsBin, node`wbusyBE, node`nRetryRts, node`caState
    reads node`receiveRts, node.packet`ptype, node.packet`pl, node.packet`rectime
  {
    && Fit(c, net, node)
    && (out == Continue || (out.Yield? && node.Suspended(out.at)))
    && (out == Continue ==> Ahead(k + 1, node.caState, node.receiveRts))
  }

  /** What any state test keeps and how it leaves the node (Moved); a test that does
      not handle the node's state does nothing. */
  twostate predicate Stepped(c: Config, net: Network, node: Node, k: nat, out: Outcome)
    reads net, node, node.packet
  {
    && Moved(c, net, node, k, out)
    && (!Handles(k, old(node.caState)) ==>
          out == Continue && node.caState == old(node.caState) && node.nRetry == old(node.nRetry)
          && node.receiveRts == old(node.receiveRts))
  }

  /** The k-th state test of the loop body, with the draws d at time now:
      1 schedule_tx, 2 want_transmit, 3 start_CA, 4 / 5 start_phase1_listen without /
      with an RTS heard, 6 start_phase2_backoff, 7 start_phase2_rts, 8 / 9
      start_phase2_listen without / with an RTS heard, 10 start_phase3_backoff, 11
      start_phase3_transmit, 12 start_nav (see Stepped). Schedule_tx and start_CA
      always yield; want_transmit with no retry left aborts and stays, with a fresh
      budget; with one left it yields or moves on to start_CA. */
  method Step(c: Config, net: Network, node: Node, k: nat, now: real, d: Draws) returns (out: Outcome)
    requires Fit(c, net, node) && 1 <= k <= 12 && Ahead(k, node.caState, node.receiveRts) && DrawsFit(c, node, d)
    requires k == 6 && node.caState == Phase2Backoff && |d.probes| > 0 ==> FirstProbe(net, d)
    modifies net`packetsAtBS, net`channelBusyRts, net`channelBusyData, net.nodes, net.NodePackets()
    ensures Stepped(c, net, node, k, out)
    ensures k <= 5 ==> net.channelBusyRts == old(net.channelBusyRts) && net.channelBusyData == old(net.channelBusyData)
    ensures k == 1 && old(node.caState) == ScheduleTx ==> out.Yield?
    ensures k == 2 && old(node.caState) == WantTransmit && old(node.nRetry) == 0 ==>
              out == Continue && node.caState == WantTransmit && node.nRetry == c.nRetry
    ensures k == 2 && old(node.caState) == WantTransmit && old(node.nRetry) != 0 ==>
              out.Yield? || node.caState == StartCA
    ensures k == 3 && old(node.caState) == StartCA ==> out.Yield?
  {
    var s := node.caState;
    if !Handles(k, s) {
      out := Continue;
    } else if k <= 3 {
      out := EarlyStep(c, net, node, k, now, d);
    } else if k == 4 || k == 5 || k == 8 || k == 9 {
      out := ListenStep(c, net, node, k, now, d);
    } else {
      out := LateStep(c, net, node, k, now, d);
    }
  }

  /** The tests of schedule_tx, want_transmit and start_CA. */
  method EarlyStep(c: Config, net: Network, node: Node, k: nat, now: real, d: Draws) returns (out: Outcome)
    requires Fit(c, net, node) && 1 <= k <= 3 && Handles(k, node.caState) && DrawsFit(c, node, d)
    modifies node, node.packet
    ensures Moved(c, net, node, k, out)
    ensures k == 1 ==> out.Yield?
    ensures k == 2 && old(node.nRetry) == 0 ==>
              out == Continue && node.caState == WantTransmit && node.nRetry == c.nRetry
    ensures k == 2 && old(node.nRetry) != 0 ==> out.Yield? || node.caState == StartCA
    ensures k == 3 ==> out.Yield?
  {
    if k == 1 {
      out := OnSchedule(c, net, node, now, d);
    } else if k == 2 {
      out := OnWant(c, net, node, now, d);
    } else {
      out := OnStartCa(c, net, node, now, d);
    }
  }

  /** schedule_tx: the node waits for its next packet and yields. */
  method OnSchedule(c: Config, net: Network, node: Node, now: real, d: Draws) returns (out: Outcome)
    requires Fit(c, net, node) && node.caState == ScheduleTx && DrawsFit(c, node, d)
    modifies node`cycle, node`caState
    ensures Moved(c, net, node, 1, out)
    ensures node.cycle == old(node.cycle) + 1 && node.caState == WantTransmit
    ensures out == Yield([TransmitWait(c, old(node.cycle), node.period, now, node.nodeid, d.wait)], Block(2))
  {
    out := Schedule(c, node, now, d.wait);
  }

  /** want_transmit: with no retry left the node aborts and stays, with a fresh
      budget; otherwise it yields or moves on to start_CA. */
  method OnWant(c: Config, net: Network, node: Node, now: real, d: Draws) returns (out: Outcome)
    requires Fit(c, net, node) && node.caState == WantTransmit
    modifies node`nAborted, node`nRetry, node`wbusyBE, node`cca, node`nav, node`w2, node`wantTransmitTime
    modifies node`nCca, node`nBusyRts, node`nBusyRtsP1, node`nBusyData, node`backoff, node`myP, node`caState
    modifies node.packet`ptype, node.packet`pl, node.packet`rectime
    ensures Moved(c, net, node, 2, out)
    ensures old(node.nRetry) == 0 ==> out == Continue && node.caState == WantTransmit && node.nRetry == c.nRetry
    ensures old(node.nRetry) != 0 ==> out.Yield? || node.caState == StartCA
    ensures (node.ToView(), out)
              == Want(c, old(node.ToView()), node.packet.tpream, now,
                      Probe(net.channelBusyRts, net.channelBusyData, d.cca, d.backoff), d.myP)
  {
    out := Attempt(c, node, now, Probe(net.channelBusyRts, net.channelBusyData, d.cca, d.backoff), d.myP);
  }

  /** start_CA: the node starts listening or backing off, and yields. */
  method OnStartCa(c: Config, net: Network, node: Node, now: real, d: Draws) returns (out: Outcome)
    requires Fit(c, net, node) && node.caState == StartCA
    modifies node`caState, node`caListenStartTime, node`caListenEndTime, node`backoff
    ensures Moved(c, net, node, 3, out) && out.Yield?
    ensures node.myP > node.P ==>
              && node.caState == Phase1Listen && node.caListenStartTime == now
              && node.caListenEndTime == now + ListenWindow(c, node.packet.tpream, node.packet.rectime)
              && out == Yield([ListenWindow(c, node.packet.tpream, node.packet.rectime)], Block(4))
    ensures node.myP <= node.P ==>
              && node.caState == Phase2Backoff && node.backoff == RandInt(0, c.w2, d.w2)
              && out == Yield([Difs(node.backoff, node.packet.tpream)], Block(4))
  {
    out := EnterCa(c, node, now, d.w2);
  }

  /** The four tests of the listening states. */
  method ListenStep(c: Config, net: Network, node: Node, k: nat, now: real, d: Draws) returns (out: Outcome)
    requires Fit(c, net, node) && (k == 4 || k == 5 || k == 8 || k == 9) && Handles(k, node.caState)
    requires Ahead(k, node.caState, node.receiveRts)
    modifies node
    ensures Moved(c, net, node, k, out)
  {
    out := Continue;
    if (k == 4 || k == 8) && !node.receiveRts && node.receiveData {
      out := OnHeardData(c, net, node, k, now, d);
    } else if (k == 4 || k == 8) && !node.receiveRts {
      out := OnHeardNothing(c, net, node, k, d);
    } else if (k == 5 || k == 9) && node.receiveRts {
      out := OnListenRts(c, net, node, k, now, d);
    }
  }

  /** The end of a listening period with a DATA header but no RTS heard. */
  method OnHeardData(c: Config, net: Network, node: Node, k: nat, now: real, d: Draws) returns (out: Outcome)
    requires Fit(c, net, node) && (k == 4 || k == 8) && node.caState == (if k == 4 then Phase1Listen else Phase2Listen)
    requires !node.receiveRts && node.receiveData
    modifies node`totalListenTime, node`receiveData, node`nReceiveNavDataP1, node`nReceiveNavDataP2, node`caState
    ensures Moved(c, net, node, k, out)
    ensures !node.receiveRts && !node.receiveData && node.caState == StartNav
    ensures node.totalListenTime == old(node.totalListenTime) + (node.receiveDataTime - node.caListenStartTime)
    ensures node.nReceiveNavDataP1 == old(node.nReceiveNavDataP1) + (if k == 4 then 1 else 0)
    ensures node.nReceiveNavDataP2 == old(node.nReceiveNavDataP2) + (if k == 4 then 0 else 1)
    ensures var p := node.packet;
            var ds := DataNavDelays(node.receiveDataTime, Airtime(p.sf, p.cr, node.nav, p.bw),
                                    ExtraNav(c, d.nav), p.tpream, now);
            out == (if ds == [] then Continue else Yield(ds, Block(k + 1)))
  {
    out := HeardData(c, node, now, k == 4, d.nav);
  }

  /** The end of a listening period with nothing heard. */
  method OnHeardNothing(c: Config, net: Network, node: Node, k: nat, d: Draws) returns (out: Outcome)
    requires Fit(c, net, node) && (k == 4 || k == 8) && node.caState == (if k == 4 then Phase1Listen else Phase2Listen)
    requires !node.receiveRts && !node.receiveData
    modifies node`caState, node`backoff
    ensures Moved(c, net, node, k, out)
    ensures node.caState == (if k == 4 then Phase2Backoff else Phase3Backoff)
    ensures node.backoff == RandInt(0, if k == 4 then c.w2 else c.w3, if k == 4 then d.w2 else d.w3)
    ensures out == Yield([Difs(node.backoff, node.packet.tpream)], Block(k + 1))
  {
    out := HeardNothing(c, node, k == 4, if k == 4 then d.w2 else d.w3);
  }

  /** The end of a listening period in which an RTS was heard. */
  method OnListenRts(c: Config, net: Network, node: Node, k: nat, now: real, d: Draws) returns (out: Outcome)
    requires Fit(c, net, node) && (k == 5 || k == 9) && node.caState == (if k == 5 then Phase1Listen else Phase2Listen)
    requires node.receiveRts
    modifies node`receiveRts, node`totalListenTime, node`nReceiveNavRtsP1, node`nReceiveNavRtsP2, node`caState
    ensures Moved(c, net, node, k, out)
    ensures !node.receiveRts && node.caState == StartNav
    ensures node.totalListenTime == old(node.totalListenTime) + (node.receiveRtsTime - node.caListenStartTime)
    ensures node.nReceiveNavRtsP1 == old(node.nReceiveNavRtsP1) + (if k == 5 then 1 else 0)
    ensures node.nReceiveNavRtsP2 == old(node.nReceiveNavRtsP2) + (if k == 5 then 0 else 1)
    ensures var p := node.packet;
            out == Yield([RtsNavDelay(c, p.tpream, p.rectime, Airtime(p.sf, p.cr, node.nav, p.bw),
                                      ExtraNav(c, d.nav), node.receiveRtsTime, now)], Block(k + 1))
  {
    out := EndListenRts(c, node, now, k == 5, d.nav);
  }

  /** The tests from start_phase2_backoff on, but for the listening ones. */
  method LateStep(c: Config, net: Network, node: Node, k: nat, now: real, d: Draws) returns (out: Outcome)
    requires Fit(c, net, node) && k in {6, 7, 10, 11, 12} && Handles(k, node.caState) && DrawsFit(c, node, d)
    modifies net`packetsAtBS, net`channelBusyRts, net`channelBusyData, net.nodes, net.NodePackets()
    ensures Moved(c, net, node, k, out)
  {
    if k == 6 {
      out := OnRtsBackoff(c, net, node, now, d);
    } else if k == 7 {
      out := OnRtsSent(c, net, node, now, d);
    } else if k == 10 {
      out := OnDataBackoff(c, net, node);
    } else if k == 11 {
      out := OnDataTransmit(c, net, node, now, d);
    } else {
      out := OnNavEnd(c, net, node);
    }
  }

  /** start_phase2_backoff: the RTS goes out after its retry loop. */
  method OnRtsBackoff(c: Config, net: Network, node: Node, now: real, d: Draws) returns (out: Outcome)
    requires Fit(c, net, node) && node.caState == Phase2Backoff && DrawsFit(c, node, d)
    modifies node`caState, node`wbusyBE, node`nRetryRts, node`cca
    modifies node`nCca, node`nBusyRts, node`nBusyRtsP1, node`nBusyData, node`backoff
    modifies node`nRtsSent, node`totalRetryRts, node`retryRtsBin, net`channelBusyRts, net`channelBusyData
    modifies net`packetsAtBS, node.packet`lost, node.packet`addTime
    modifies node.packet`collided, node.packet`processed, net.NodePackets()`collided
    modifies net.nodes`receiveRts, net.nodes`receiveRtsFrom, net.nodes`receiveRtsTime
    modifies net.nodes`receiveData, net.nodes`receiveDataFrom, net.nodes`receiveDataTime, net.nodes`nav
    ensures Moved(c, net, node, 6, out) && !node.cca
    ensures var n := RtsBusies(c, InitialRtsRetries(c), d.probes);
            && node.wbusyBE == BEAfter(c, c.wbusyBE, n)
            && node.nRetryRts == InitialRtsRetries(c) - (if c.nRetryRts > 0 then n else 0)
            && out == if n == 0 then Yield([node.packet.rectime], RtsOnAir)
                      else Yield(Scaled(Backoffs(c, c.wbusyBE, d.probes, n), node.packet.tpream, 0.0), RtsRetryDone)
    ensures node.Stats() == CountCcas(old(node.Stats()), c.checkBusyRts, true, d.probes, RtsReads(c, InitialRtsRetries(c), d.probes))
    ensures out.Yield? && out.at == RtsOnAir ==>
              && node.nRtsSent == old(node.nRtsSent) + 1
              && (node.totalRetryRts, node.retryRtsBin)
                   == RtsRecord(c.nRetryRts, node.nRetryRts, old(node.totalRetryRts), old(node.retryRtsBin))
              && net.channelBusyRts && net.channelBusyData == old(net.channelBusyData)
    ensures out.Yield? && out.at == RtsRetryDone ==>
              && node.nRtsSent == old(node.nRtsSent) && net.packetsAtBS == old(net.packetsAtBS)
              && net.channelBusyRts == old(net.channelBusyRts) && net.channelBusyData == old(net.channelBusyData)
  {
    out := RtsPhase(c, net, node, now, d.probes);
  }

  /** start_phase2_rts: the node backs off before its DATA packet or listens again. */
  method OnRtsSent(c: Config, net: Network, node: Node, now: real, d: Draws) returns (out: Outcome)
    requires Fit(c, net, node) && node.caState == Phase2Rts
    modifies node`caState, node`backoff, node`caListenStartTime, node`caListenEndTime
    ensures Moved(c, net, node, 7, out)
    ensures c.ca1 ==>
              && node.caState == Phase3Backoff && node.backoff == RandInt(0, c.w3, d.w3)
              && out == Yield([Difs(node.backoff, node.packet.tpream)], Block(8))
    ensures !c.ca1 ==>
              && node.caState == Phase2Listen && node.caListenStartTime == now
              && node.caListenEndTime == now + ListenWindow(c, node.packet.tpream, node.packet.rectime)
              && out == Yield([ListenWindow(c, node.packet.tpream, node.packet.rectime)], Block(8))
  {
    out := AfterRts(c, node, now, d.w3);
  }

  /** start_phase3_backoff: the DATA packet is next. */
  method OnDataBackoff(c: Config, net: Network, node: Node) returns (out: Outcome)
    requires Fit(c, net, node) && node.caState == Phase3Backoff
    modifies node`caState, node.packet`ptype, node.packet`pl, node.packet`rectime
    ensures Moved(c, net, node, 10, out) && out == Continue
    ensures node.caState == Phase3Transmit && node.packet.ptype == Data && node.packet.rectime == node.packet.dataToa
  {
    StartPhase3(c, node);
    out := Continue;
  }

  /** start_phase3_transmit: the DATA packet goes out unless the CCA finds the
      channel busy. */
  method OnDataTransmit(c: Config, net: Network, node: Node, now: real, d: Draws) returns (out: Outcome)
    requires Fit(c, net, node) && node.caState == Phase3Transmit
    modifies node`nCca, node`nBusyRts, node`nBusyRtsP1, node`nBusyData, node`cca, node`nRetry, node`caState
    modifies node`nDataSent, node`totalRetry, node`retryBin, node`latency, net`channelBusyRts, net`channelBusyData
    modifies net`packetsAtBS, node.packet`lost, node.packet`addTime
    modifies node.packet`collided, node.packet`processed, net.NodePackets()`collided
    modifies net.nodes`receiveRts, net.nodes`receiveRtsFrom, net.nodes`receiveRtsTime
    modifies net.nodes`receiveData, net.nodes`receiveDataFrom, net.nodes`receiveDataTime, net.nodes`nav
    ensures Moved(c, net, node, 11, out)
    ensures node.Stats() == CountCca(old(node.Stats()), c.checkBusy, true,
                                     Probe(old(net.channelBusyRts), old(net.channelBusyData), d.cca3, 0), false)
    ensures out == Continue <==>
              ProbeBusy(c, c.checkBusy, true, Probe(old(net.channelBusyRts), old(net.channelBusyData), d.cca3, 0))
    ensures out == Continue ==>
              && node.cca && node.nRetry == old(node.nRetry) - 1 && node.caState == WantTransmit
              && node.nDataSent == old(node.nDataSent) && net.packetsAtBS == old(net.packetsAtBS)
              && net.channelBusyRts == old(net.channelBusyRts) && net.channelBusyData == old(net.channelBusyData)
    ensures out != Continue ==>
              && node.cca == old(node.cca) && node.nRetry == old(node.nRetry) && node.caState == Phase3Transmit
              && node.nDataSent == old(node.nDataSent) + 1
              && (node.totalRetry, node.retryBin) == RetryRecord(c.nRetry, node.nRetry, old(node.totalRetry), old(node.retryBin))
              && node.latency == old(node.latency) + (now - node.wantTransmitTime)
              && net.channelBusyData && net.channelBusyRts == old(net.channelBusyRts)
              && out == Yield([node.packet.rectime], DataOnAir)
  {
    out := DataPhase(c, net, node, now, d.cca3);
  }

  /** start_nav: the NAV is over and the node wants to transmit its DATA packet. */
  method OnNavEnd(c: Config, net: Network, node: Node) returns (out: Outcome)
    requires Fit(c, net, node) && node.caState == StartNav
    modifies node`caState, node`nRetry, node.packet`ptype, node.packet`pl, node.packet`rectime
    ensures Moved(c, net, node, 12, out) && out == Continue
    ensures node.caState == WantTransmit && node.packet.ptype == Data && node.nRetry == old(node.nRetry) - 1
  {
    EndNav(c, node);
    out := Continue;
  }

  /** The state tests of the loop body from the from-th on, with the draws d at time
      now, until one yields: the rest of a sweep of the loop body. A sweep that does
      not yield leaves the node in schedule_tx or want_transmit, and a full sweep
      (from the first test, which the node reaches in one of those two states) does
      not yield only when want_transmit found no retry left and aborted: the node
      then wants to transmit again with a fresh budget. */
  method Sweep(c: Config, net: Network, node: Node, from: nat, now: real, d: Draws) returns (out: Outcome)
    requires Fit(c, net, node) && 1 <= from <= 12 && Ahead(from, node.caState, node.receiveRts) && DrawsFit(c, node, d)
    requires from == 1 ==> node.caState == ScheduleTx || node.caState == WantTransmit
    requires from > 1 && from <= 6 && |d.probes| > 0 ==> FirstProbe(net, d)
    modifies net`packetsAtBS, net`channelBusyRts, net`channelBusyData, net.nodes, net.NodePackets()
    ensures Fit(c, net, node)
    ensures out == Continue || (out.Yield? && node.Suspended(out.at))
    ensures out == Continue ==> node.caState == ScheduleTx || node.caState == WantTransmit
    ensures from == 1 && out == Continue ==>
              && old(node.caState) == WantTransmit && old(node.nRetry) == 0
              && node.caState == WantTransmit && node.nRetry == c.nRetry
  {
    out := Continue;
    var k := from;
    ghost var s0, r0 := node.caState, node.nRetry;
    while k <= 12 && out == Continue
      invariant from <= k <= 13 && Fit(c, net, node)
      invariant out == Continue || (out.Yield? && node.Suspended(out.at))
      invariant out == Continue ==> Ahead(k, node.caState, node.receiveRts)
      invariant out == Continue && from > 1 && k <= 6 && |d.probes| > 0 ==> FirstProbe(net, d)
      invariant from == 1 && k == 1 ==> node.caState == s0 && node.nRetry == r0
      invariant from == 1 && out == Continue && k == 2 ==>
                  s0 == WantTransmit && node.caState == WantTransmit && node.nRetry == r0
      invariant from == 1 && out == Continue && k == 3 ==>
                  s0 == WantTransmit && (node.caState == StartCA || (r0 == 0 && node.caState == WantTransmit && node.nRetry == c.nRetry))
      invariant from == 1 && out == Continue && k >= 4 ==>
                  s0 == WantTransmit && r0 == 0 && node.caState == WantTransmit && node.nRetry == c.nRetry
      decreases 13 - k
    {
      out := Step(c, net, node, k, now, d);
      k := k + 1;
    }
  }

  /** The rest of the sweep of the loop body in which the process was suspended at
      r, at time now, and the end test if it does not yield: resumed with its RTS
      (DATA packet) on air, the packet leaves the air and the sweep goes on at the
      test of start_phase2_rts (start_nav), the node scheduling its next packet after
      a DATA packet (ResetAfterData); resumed at a state test, the sweep goes on
      there. */
  method Resumed(c: Config, net: Network, node: Node, r: Resume, now: real, d: Draws) returns (out: Outcome)
    requires Fit(c, net, node) && node.Suspended(r) && r != RtsRetryDone && DrawsFit(c, node, d)
    requires |d.probes| > 0 ==> FirstProbe(net, d)
    modifies net`packetsAtBS, net`channelBusyRts, net`channelBusyData, net`endSim, net`tally, net`rtsTally
    modifies net.nodes, net.NodePackets()
    ensures Fit(c, net, node)
    ensures out == Continue || out == Return || (out.Yield? && node.Suspended(out.at))
    ensures out == Continue ==> node.caState == ScheduleTx || node.caState == WantTransmit
    ensures out == Continue ==> net.tally.processed <= c.targetSentPacket
    ensures out == Return ==> net.tally.processed > c.targetSentPacket && net.endSim == now
    ensures out != Return ==> net.endSim == old(net.endSim)
  {
    if r == RtsOnAir || r == DataOnAir {
      out := Landed(c, net, node, r == RtsOnAir, now, d);
    } else {
      out := Sweep(c, net, node, r.k, now, d);
    }
    if out == Continue {
      var over := EndCheck(c, net, now);
      if over {
        out := Return;
      }
    }
  }

  /** Resumed with its RTS (DATA packet) on air: the packet leaves the air and the
      sweep goes on at the test of start_phase2_rts (start_nav), the node scheduling
      its next packet after a DATA packet (ResetAfterData). */
  method Landed(c: Config, net: Network, node: Node, rts: bool, now: real, d: Draws) returns (out: Outcome)
    requires Fit(c, net, node) && node.caState == (if rts then Phase2Rts else Phase3Transmit) && DrawsFit(c, node, d)
    modifies net`packetsAtBS, net`channelBusyRts, net`channelBusyData, net`tally, net`rtsTally
    modifies net.nodes, net.NodePackets()
    ensures Fit(c, net, node)
    ensures out == Continue || (out.Yield? && node.Suspended(out.at))
    ensures out == Continue ==> node.caState == ScheduleTx || node.caState == WantTransmit
    ensures var t := (if rts then old(net.rtsTally) else old(net.tally))
                       .Count(old(node.packet.lost), old(node.packet.collided), old(node.packet.processed));
            if rts then net.rtsTally == t && net.tally == old(net.tally)
            else net.tally == t && net.rtsTally == old(net.rtsTally)
  {
    Land(c, net, node, rts);
    if rts {
      out := Sweep(c, net, node, 7, now, d);
    } else {
      ResetAfterData(c, node);
      out := Sweep(c, net, node, 12, now, d);
    }
  }

  /** Resumed after the backoffs of its RTS retry loop, the node sends its RTS. */
  method RtsAfterBackoffs(c: Config, net: Network, node: Node, now: real) returns (out: Outcome)
    requires Fit(c, net, node) && node.caState == Phase2Rts
    modifies node`nRtsSent, node`totalRetryRts, node`retryRtsBin, net`channelBusyRts, net`channelBusyData
    modifies net`packetsAtBS, node.packet`lost, node.packet`addTime
    modifies node.packet`collided, node.packet`processed, net.NodePackets()`collided
    modifies net.nodes`receiveRts, net.nodes`receiveRtsFrom, net.nodes`receiveRtsTime
    modifies net.nodes`receiveData, net.nodes`receiveDataFrom, net.nodes`receiveDataTime, net.nodes`nav
    ensures Fit(c, net, node) && out.Yield? && node.Suspended(out.at)
    ensures node.nRtsSent == old(node.nRtsSent) + 1
    ensures (node.totalRetryRts, node.retryRtsBin)
              == RtsRecord(c.nRetryRts, node.nRetryRts, old(node.totalRetryRts), old(node.retryRtsBin))
    ensures net.channelBusyRts && net.channelBusyData == old(net.channelBusyData)
    ensures out == Yield([node.packet.rectime], RtsOnAir)
  {
    out := SendRts(c, net, node, now);
  }

  /** A full sweep of the loop body, at time now, and the end test if it does not
      yield; the node starts it in schedule_tx or want_transmit. */
  method NextSweep(c: Config, net: Network, node: Node, now: real, d: Draws) returns (out: Outcome)
    requires Fit(c, net, node) && DrawsFit(c, node, d)
    requires node.caState == ScheduleTx || node.caState == WantTransmit
    modifies net`packetsAtBS, net`channelBusyRts, net`channelBusyData, net`endSim, net.nodes, net.NodePackets()
    ensures Fit(c, net, node)
    ensures out == Continue || out == Return || (out.Yield? && node.Suspended(out.at))
    ensures out == Continue ==>
              && old(node.caState) == WantTransmit && old(node.nRetry) == 0
              && node.caState == WantTransmit && node.nRetry == c.nRetry
    ensures out == Continue ==> net.tally.processed <= c.targetSentPacket
    ensures out == Return ==> net.tally.processed > c.targetSentPacket && net.endSim == now
    ensures out != Return ==> net.endSim == old(net.endSim)
  {
    out := Sweep(c, net, node, 1, now, d);
    if out == Continue {
      var over := EndCheck(c, net, now);
      if over {
        out := Return;
      }
    }
  }

  /** The sweeps of the loop body after one that did not yield, at time now, with
      the draws d1 and d2: the node is in schedule_tx or want_transmit, so the first
      yields unless want_transmit aborts for want of retries, and the second yields
      unless the retry budget n_retry is 0 (Spin: the process would go round the loop
      body for ever). */
  method Restart(c: Config, net: Network, node: Node, now: real, d1: Draws, d2: Draws) returns (out: Outcome)
    requires Fit(c, net, node) && DrawsFit(c, node, d1) && DrawsFit(c, node, d2)
    requires node.caState == ScheduleTx || node.caState == WantTransmit
    modifies net`packetsAtBS, net`channelBusyRts, net`channelBusyData, net`endSim, net.nodes, net.NodePackets()
    ensures Fit(c, net, node)
    ensures out == Return || out == Spin || (out.Yield? && node.Suspended(out.at))
    ensures out == Return ==> net.tally.processed > c.targetSentPacket && net.endSim == now
    ensures out != Return ==> net.endSim == old(net.endSim)
    ensures out == Spin ==> c.nRetry == 0 && node.caState == WantTransmit && net.tally.processed <= c.targetSentPacket
  {
    out := NextSweep(c, net, node, now, d1);
    if out == Continue {
      out := NextSweep(c, net, node, now, d2);
      if out == Continue {
        out := Spin;
      }
    }
  }

  /** One run of the transmit process of a node with collision avoidance, at time now,
      from where it was suspended (node.resume) until it yields again, where it then
      resumes; or until it returns, at the test that ends the simulation once more
      than targetSentPacket DATA packets were processed at the end of a sweep of the
      loop body; or until it would go round the loop body for ever without yielding
      (Spin), which it does only when its retry budget n_retry is 0. Resumed after its
      backoffs, the RTS goes out. d0 serves the resumed sweep, d1 and d2 the two after
      it. */
  method Run(c: Config, net: Network, node: Node, now: real, d0: Draws, d1: Draws, d2: Draws) returns (out: Outcome)
    requires net.Valid() && c == net.cfg && c.ca && node in net.nodes && node.Ready(c)
    requires DrawsFit(c, node, d0) && DrawsFit(c, node, d1) && DrawsFit(c, node, d2)
    requires |d0.probes| > 0 ==> FirstProbe(net, d0)
    modifies net, net.nodes, net.NodePackets()
    ensures Fit(c, net, node)
    ensures out.Yield? || out == Return || out == Spin
    ensures out.Yield? ==> node.Ready(c) && node.resume == out.at
    ensures out == Return ==> net.tally.processed > c.targetSentPacket && net.endSim == now
    ensures out != Return ==> net.endSim == old(net.endSim)
    ensures out == Spin ==> c.nRetry == 0 && node.caState == WantTransmit && net.tally.processed <= c.targetSentPacket
  {
    out := Advance(c, net, node, now, d0, d1, d2);
    if out.Yield? {
      node.resume := out.at;
    }
  }

  /** Run, but for recording where the process resumes. */
  method Advance(c: Config, net: Network, node: Node, now: real, d0: Draws, d1: Draws, d2: Draws) returns (out: Outcome)
    requires Fit(c, net, node) && node.Suspended(node.resume)
    requires DrawsFit(c, node, d0) && DrawsFit(c, node, d1) && DrawsFit(c, node, d2)
    requires |d0.probes| > 0 ==> FirstProbe(net, d0)
    modifies net`packetsAtBS, net`channelBusyRts, net`channelBusyData, net`endSim, net`tally, net`rtsTally
    modifies net.nodes, net.NodePackets()
    ensures Fit(c, net, node)
    ensures out == Return || out == Spin || (out.Yield? && node.Suspended(out.at))
    ensures out == Return ==> net.tally.processed > c.targetSentPacket && net.endSim == now
    ensures out != Return ==> net.endSim == old(net.endSim)
    ensures out == Spin ==> c.nRetry == 0 && node.caState == WantTransmit && net.tally.processed <= c.targetSentPacket
  {
    var r := node.resume;
    if r == RtsRetryDone {
      out := RtsAfterBackoffs(c, net, node, now);
    } else {
      out := Resumed(c, net, node, r, now, d0);
      if out == Continue {
        out := Restart(c, net, node, now, d1, d2);
      }
    }
  }
}
