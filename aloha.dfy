/** The transmit process of a node without collision avoidance (the ALOHA-like
    behaviour): wait for the next packet, back off while carrier sense finds the
    channel busy with a DATA packet and retries are left, then abort the packet or
    send it, and after its time on air start over with a fresh retry budget and
    backoff window. */
module Aloha {
  import opened Params
  import opened Phy
  import opened Packets
  import opened Backoff
  import opened Sim
  import opened Air
  import opened Retry
  import opened Transmit

  /** What a run of the process keeps of the network and the node. */
  ghost predicate AlohaFit(c: Config, net: Network, node: Node)
    reads net`packetsAtBS, node`nRetry, node`retryBin, node`retryRtsBin, node`wbusyBE, node`nRetryRts, node`caState
    reads node.packet`ptype, node.packet`pl, node.packet`rectime
  {
    net.Valid() && c == net.cfg && !c.ca && node in net.nodes && node.Inv(c) && node.caState == ScheduleTx
  }

  /** The extra time of each busy-channel backoff: the time on air of a payload of
      max_payload_size bytes with Wbusy_add_max_toa, none otherwise. */
  function BackoffExtra(c: Config, p: Packet): (e: real)
    requires ValidRadio(p.sf, p.bw, p.cr)
    ensures e >= 0.0 && (e > 0.0 <==> c.wbusyAddMaxToa)
    ensures c.wbusyAddMaxToa ==> e == Airtime(p.sf, p.cr, c.maxPayloadSize, p.bw)
  {
    AirtimePositive(p.sf, p.cr, c.maxPayloadSize, p.bw);
    if c.wbusyAddMaxToa then Airtime(p.sf, p.cr, c.maxPayloadSize, p.bw) else 0.0
  }

  /** The top of the loop body: the node waits for its next packet (transmit_wait)
      and counts it in its cycle. */
  method Wait(c: Config, node: Node, now: real, draw: real) returns (out: Outcome)
    modifies node`cycle
    ensures node.cycle == old(node.cycle) + 1
    ensures out == Yield([TransmitWait(c, old(node.cycle), node.period, now, node.nodeid, draw)], AlohaReady)
  {
    out := Yield([TransmitWait(c, node.cycle, node.period, now, node.nodeid, draw)], AlohaReady);
    node.cycle := node.cycle + 1;
  }

  /** The wait is over: the node wants to transmit from now on and runs its retry
      loop over the probes from a full retry budget and the initial window
      (DataRetries). When it backed off, it waits for its backoffs, each
      backoff * Tpream plus BackoffExtra; otherwise it goes on at once (Continue). */
  method Retries(c: Config, node: Node, now: real, probes: seq<Probe>) returns (out: Outcome)
    requires ValidConfig(c) && node.Inv(c) && node.nRetry == c.nRetry && node.wbusyBE == c.wbusyBE
    requires DataReads(c, c.nRetry, probes) <= |probes|
    modifies node`wantTransmitTime, node`nCca, node`nBusyRts, node`nBusyRtsP1, node`nBusyData
    modifies node`backoff, node`wbusyBE, node`nRetry
    ensures node.Inv(c) && node.wantTransmitTime == now
    ensures var b := DataBusies(c, c.nRetry, probes);
            && node.nRetry == c.nRetry - b && node.wbusyBE == BEAfter(c, c.wbusyBE, b)
            && out == (if b == 0 then Continue
                       else Yield(Scaled(Backoffs(c, c.wbusyBE, probes, b), node.packet.tpream,
                                         BackoffExtra(c, node.packet)), AlohaRetryDone))
    ensures node.Stats() == CountCcas(old(node.Stats()), c.checkBusy, false, probes, DataReads(c, c.nRetry, probes))
  {
    node.wantTransmitTime := now;
    var backoffs := DataRetries(c, node, probes);
    ghost var lead := LeadingBusy(c, c.checkBusy, false, probes);
    RetryLoopShape(true, c.nRetry, lead);
    BEAfterBounds(c, c.wbusyBE, Busies(true, c.nRetry, lead));
    Pow2Monotone(c.wbusyBE, node.wbusyBE);
    if backoffs != [] {
      out := Yield(Scaled(backoffs, node.packet.tpream, BackoffExtra(c, node.packet)), AlohaRetryDone);
    } else {
      out := Continue;
    }
  }

  /** The retry loop is over: with no retry left the packet is aborted and the
      budget and window are reset (Continue); otherwise the DATA packet goes out
      (SendData, whose verdict from the gateway replaces the collided flag). */
  method Transmission(c: Config, net: Network, node: Node, now: real) returns (out: Outcome)
    requires AlohaFit(c, net, node)
    modifies node`nAborted, node`nRetry, node`wbusyBE
    modifies node`nDataSent, node`totalRetry, node`retryBin, node`latency, net`channelBusyRts, net`channelBusyData
    modifies net`packetsAtBS, node.packet`lost, node.packet`addTime
    modifies node.packet`collided, node.packet`processed, net.NodePackets()`collided
    modifies net.nodes`receiveRts, net.nodes`receiveRtsFrom, net.nodes`receiveRtsTime
    modifies net.nodes`receiveData, net.nodes`receiveDataFrom, net.nodes`receiveDataTime, net.nodes`nav
    ensures AlohaFit(c, net, node)
    ensures out == Continue <==> old(node.nRetry) == 0
    ensures out == Continue ==>
              && node.nAborted == old(node.nAborted) + 1 && node.nRetry == c.nRetry && node.wbusyBE == c.wbusyBE
              && node.nDataSent == old(node.nDataSent) && node.totalRetry == old(node.totalRetry)
              && node.retryBin == old(node.retryBin) && node.latency == old(node.latency)
              && net.packetsAtBS == old(net.packetsAtBS)
              && net.channelBusyRts == old(net.channelBusyRts) && net.channelBusyData == old(net.channelBusyData)
    ensures out != Continue ==>
              && node.nAborted == old(node.nAborted) && node.nRetry == old(node.nRetry) >= 1
              && node.wbusyBE == old(node.wbusyBE)
              && node.nDataSent == old(node.nDataSent) + 1
              && (node.totalRetry, node.retryBin)
                   == RetryRecord(c.nRetry, old(node.nRetry), old(node.totalRetry), old(node.retryBin))
              && node.latency == old(node.latency) + (now - node.wantTransmitTime)
              && net.channelBusyData && net.channelBusyRts == old(net.channelBusyRts)
              && out == Yield([node.packet.rectime], AlohaOnAir)
  {
    if node.nRetry == 0 {
      Abandon(c, node);
      out := Continue;
    } else {
      out := SendData(c, net, node, now);
    }
  }

  /** The packet is aborted: counted, with the retry budget and window reset. */
  method Abandon(c: Config, node: Node)
    requires ValidConfig(c) && node.Inv(c)
    modifies node`nAborted, node`nRetry, node`wbusyBE
    ensures node.Inv(c)
    ensures node.nAborted == old(node.nAborted) + 1 && node.nRetry == c.nRetry && node.wbusyBE == c.wbusyBE
  {
    node.nAborted := node.nAborted + 1;
    node.nRetry := c.nRetry;
    node.wbusyBE := c.wbusyBE;
  }

  /** The DATA packet has been on air for its time on air: it leaves the air (Land)
      and the retry budget and window are reset. */
  method Finish(c: Config, net: Network, node: Node)
    requires AlohaFit(c, net, node)
    modifies net`channelBusyRts, net`channelBusyData, net`packetsAtBS, net`tally, net`rtsTally
    modifies node.packet`collided, node.packet`processed, node.packet`lost, node`nRetry, node`wbusyBE
    ensures AlohaFit(c, net, node)
    ensures !net.channelBusyData && node !in net.packetsAtBS
    ensures net.channelBusyRts == old(net.channelBusyRts)
    ensures !node.packet.collided && !node.packet.processed && !node.packet.lost
    ensures net.tally == old(net.tally).Count(old(node.packet.lost), old(node.packet.collided), old(node.packet.processed))
    ensures net.rtsTally == old(net.rtsTally)
    ensures node.nRetry == c.nRetry && node.wbusyBE == c.wbusyBE
  {
    Land(c, net, node, false);
    node.nRetry := c.nRetry;
    node.wbusyBE := c.wbusyBE;
  }

  /** The rest of the loop body from where the process was suspended at r, at time
      now, with the probes of its retry loop: resumed after the wait, the retry loop
      (which may yield its backoffs); after the backoffs, the packet is aborted or
      sent (which yields its time on air); after the time on air, the packet leaves
      the air. Continue: the loop body is over. The first CCA of the retry loop,
      made at once, reads the channel flags as they are now. */
  method Body(c: Config, net: Network, node: Node, r: Resume, now: real, probes: seq<Probe>) returns (out: Outcome)
    requires AlohaFit(c, net, node) && (r == AlohaReady || r == AlohaRetryDone || r == AlohaOnAir)
    requires r == AlohaReady ==> node.nRetry == c.nRetry && node.wbusyBE == c.wbusyBE
    requires DataReads(c, c.nRetry, probes) <= |probes|
    requires r == AlohaReady && |probes| > 0 ==>
               probes[0].busyData == net.channelBusyData && probes[0].busyRts == net.channelBusyRts
    modifies node, net`channelBusyRts, net`channelBusyData, net`packetsAtBS, net`tally, net`rtsTally
    modifies node.packet`lost, node.packet`addTime, node.packet`collided, node.packet`processed
    modifies net.NodePackets()`collided
    modifies net.nodes`receiveRts, net.nodes`receiveRtsFrom, net.nodes`receiveRtsTime
    modifies net.nodes`receiveData, net.nodes`receiveDataFrom, net.nodes`receiveDataTime, net.nodes`nav
    ensures AlohaFit(c, net, node)
    ensures out == Continue || out == Yield([node.packet.rectime], AlohaOnAir) || (out.Yield? && out.at == AlohaRetryDone)
    ensures out == Continue ==> node.nRetry == c.nRetry && node.wbusyBE == c.wbusyBE
    ensures out.Yield? && out.at == AlohaOnAir ==> node.nRetry >= 1
  {
    if r == AlohaOnAir {
      Finish(c, net, node);
      out := Continue;
    } else {
      out := Continue;
      if r == AlohaReady {
        out := Retries(c, node, now, probes);
      }
      if out == Continue {
        out := Transmission(c, net, node, now);
      }
    }
  }

  /** One run of the transmit process of a node without collision avoidance, at
      time now, from where it was suspended (node.resume) until it yields again,
      where it then resumes, or returns: the end of the loop body tests for the end
      of the simulation (EndCheck), and the next loop body starts with the wait for
      the next packet (draw: its wait). */
  method AlohaRun(c: Config, net: Network, node: Node, now: real, draw: real, probes: seq<Probe>)
    returns (out: Outcome)
    requires net.Valid() && c == net.cfg && !c.ca && node in net.nodes && node.Ready(c)
    requires WaitFits(false, node.distrib, node.period, draw)
    requires DataReads(c, c.nRetry, probes) <= |probes|
    requires node.resume == AlohaReady && |probes| > 0 ==>
               probes[0].busyData == net.channelBusyData && probes[0].busyRts == net.channelBusyRts
    modifies node, net`channelBusyRts, net`channelBusyData, net`packetsAtBS, net`tally, net`rtsTally, net`endSim
    modifies node.packet`lost, node.packet`addTime, node.packet`collided, node.packet`processed
    modifies net.NodePackets()`collided
    modifies net.nodes`receiveRts, net.nodes`receiveRtsFrom, net.nodes`receiveRtsTime
    modifies net.nodes`receiveData, net.nodes`receiveDataFrom, net.nodes`receiveDataTime, net.nodes`nav
    ensures AlohaFit(c, net, node)
    ensures out.Yield? || out == Return
    ensures out.Yield? ==> node.Ready(c) && node.resume == out.at
    ensures out == Return ==> net.tally.processed > c.targetSentPacket && net.endSim == now
    ensures out != Return ==> net.endSim == old(net.endSim)
    ensures old(node.resume) != AlohaTop && out.Yield? && out.at == AlohaReady ==>
              net.tally.processed <= c.targetSentPacket
  {
    var r := node.resume;
    out := Continue;
    if r != AlohaTop {
      out := Body(c, net, node, r, now, probes);
      if out == Continue {
        var over := EndCheck(c, net, now);
        if over {
          out := Return;
        }
      }
    }
    if out == Continue {
      out := Wait(c, node, now, draw);
    }
    if out.Yield? {
      node.resume := out.at;
    }
  }

  /** The retry loop backs off at most once per retry, and aborts the packet exactly
      when every one of the n_retry CCAs found the channel busy. */
  lemma AbortIffAllBusy(c: Config, probes: seq<Probe>)
    requires c.nRetry >= 0 && DataReads(c, c.nRetry, probes) <= |probes|
    ensures DataBusies(c, c.nRetry, probes) <= c.nRetry
    ensures c.nRetry - DataBusies(c, c.nRetry, probes) == 0 <==>
              c.nRetry <= |probes| && forall j :: 0 <= j < c.nRetry ==> ProbeBusy(c, c.checkBusy, false, probes[j])
  {
    var lead := LeadingBusy(c, c.checkBusy, false, probes);
    RetryLoopShape(true, c.nRetry, lead);
    RetriesExhaustedIffAllBusy(c.nRetry, lead);
    if c.nRetry > lead && lead < |probes| {
      assert !ProbeBusy(c, c.checkBusy, false, probes[lead]);
    }
  }
}
