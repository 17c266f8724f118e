/** The transmit process of a node with collision avoidance (CA): the states of the
    node from schedule_tx to start_nav, one method per state test of the loop body,
    and the run of the process from the point where it was suspended to the next
    timeout it yields. Times are in milliseconds; the DIFS is the preamble time. */
module Transmit {
  import opened Params
  import opened Rand
  import opened Phy
  import opened Packets
  import opened Backoff
  import opened Sim
  import opened Air
  import opened Retry

  /** How a run of the loop body ends: it went through all the state tests without
      yielding (Continue), it yielded the timeouts `delays` in a row and resumes at
      `at`, or the process returned (the run is over). Spin: the process would go
      round the loop body for ever without yielding. */
  datatype Outcome = Continue | Yield(delays: seq<real>, at: Resume) | Return | Spin

  /** The random draws a run of the process may make, as inputs: the wait before the
      next packet, the seeds of its randint calls (CCA reliability and backoff at
      want_transmit, my_P, the W2 and W3 backoffs, the extra NAV DIFS, the CCA
      reliability before the DATA packet) and the CCA probes of a retry loop. */
  datatype Draws = Draws(wait: real, cca: nat, backoff: nat, myP: nat, w2: nat, w3: nat,
                         nav: nat, cca3: nat, probes: seq<Probe>)

  function RMin(a: real, b: real): real
  {
    if a <= b then a else b
  }

  function RMax(a: real, b: real): real
  {
    if a >= b then a else b
  }

  /** The wait is a value the simulator can draw: random.expovariate is never
      negative and random.uniform(a, b) lies between a and b; with collision
      avoidance a node of uniform distribution draws from
      [max(2000, period - 5000), period + 5000], otherwise the wait is exponential. */
  predicate WaitFits(ca: bool, distrib: Distrib, period: real, wait: real)
  {
    if ca && distrib == Uniform then
      var a, b := RMax(2000.0, period - 5000.0), period + 5000.0;
      RMin(a, b) <= wait <= RMax(a, b)
    else wait >= 0.0
  }

  /** The draws suit the node: the wait is possible and the probes last until the
      RTS retry loop (from a fresh budget) ends. */
  ghost predicate DrawsFit(c: Config, node: Node, d: Draws)
  {
    && WaitFits(true, node.distrib, node.period, d.wait)
    && RtsReads(c, InitialRtsRetries(c), d.probes) <= |d.probes|
  }

  /** transmit_wait: in experiments 6 and 7 the nodes are synchronised on their
      cycle (offset by 100 / 500 ms per node id); otherwise the draw. */
  function TransmitWait(c: Config, cycle: nat, period: real, now: real, nodeid: int, draw: real): real
  {
    if c.experiment == 6 then cycle as real * period - now + (nodeid * 100) as real
    else if c.experiment == 7 then cycle as real * period - now + (nodeid * 500) as real
    else draw
  }

  /** In experiments 6 and 7 node i wakes up 100 i (500 i) ms into its cycle,
      whenever it went to sleep. */
  lemma SynchronisedWake(c: Config, cycle: nat, period: real, now: real, nodeid: int, draw: real)
    requires c.experiment == 6 || c.experiment == 7
    ensures now + TransmitWait(c, cycle, period, now, nodeid, draw)
              == cycle as real * period + (nodeid * (if c.experiment == 6 then 100 else 500)) as real
  {
  }

  /** The wait is negative, which env.timeout refuses, exactly when in experiment 6
      or 7 the node is behind its cycle: now is past cycle * period plus its
      offset. A drawn wait is never negative. */
  lemma NegativeWaitIffBehind(c: Config, ca: bool, distrib: Distrib, cycle: nat, period: real, now: real,
                              nodeid: int, draw: real)
    requires period >= 0.0 && WaitFits(ca, distrib, period, draw)
    ensures TransmitWait(c, cycle, period, now, nodeid, draw) < 0.0 <==>
              && (c.experiment == 6 || c.experiment == 7)
              && now > cycle as real * period + (nodeid * (if c.experiment == 6 then 100 else 500)) as real
  {
  }

  /** schedule_tx: wait for the next packet, then want_transmit. The cycle counts
      the packets scheduled. */
  method Schedule(c: Config, node: Node, now: real, draw: real) returns (out: Outcome)
    requires node.Inv(c) && node.CaShape() && node.caState == ScheduleTx
    modifies node`cycle, node`caState
    ensures node.Inv(c) && node.CaShape()
    ensures node.cycle == old(node.cycle) + 1 && node.caState == WantTransmit
    ensures out == Yield([TransmitWait(c, old(node.cycle), node.period, now, node.nodeid, draw)], Block(2))
  {
    var wait := TransmitWait(c, node.cycle, node.period, now, node.nodeid, draw);
    node.cycle := node.cycle + 1;
    node.caState := WantTransmit;
    out := Yield([wait], Block(2));
  }

  /** n DIFS, the unit of every backoff. */
  function Difs(n: int, tpream: real): real
  {
    n as real * tpream
  }

  /** Why the node is at want_transmit: back from a busy CCA (the flag is cleared),
      back from a NAV (the NAV is cleared and W2 becomes W2afterNAV, by either
      branch), or for a new packet, whose latency counts from now. */
  function Rearmed(c: Config, v: View, now: real): (r: View)
    ensures !r.cca
    ensures r.nav == (if v.cca then v.nav else 0)
    ensures r.w2 == (if !v.cca && v.nav != 0 then c.w2AfterNav else v.w2)
    ensures r.wantTransmitTime == (if !v.cca && v.nav == 0 then now else v.wantTransmitTime)
    ensures r.(cca := v.cca, nav := v.nav, w2 := v.w2, wantTransmitTime := v.wantTransmitTime) == v
  {
    if v.cca then v.(cca := false)
    else if v.nav != 0 then v.(nav := 0, w2 := c.w2AfterNav)
    else v.(wantTransmitTime := now)
  }

  /** want_transmit, with a DATA packet, from the node v, the flags and draws of the
      CCA (pr) and the seed of my_P, to the node after it and what it yields:
      - no retry left: the attempt is aborted, the node starts over with a fresh
        retry budget and backoff window, stays in want_transmit and yields nothing;
      - otherwise the node is rearmed and does one CCA, which the statistics count;
        busy, it backs off randint(Wbusy_min, 2^BE) DIFS, widens the window, uses a
        retry and comes back to want_transmit; free, it draws my_P in [0, 100],
        enters start_CA and its packet becomes an RTS. */
  function Want(c: Config, v: View, tpream: real, now: real, pr: Probe, pSeed: nat): (r: (View, Outcome))
    requires c.wbusyMin <= Pow2(v.be)
    ensures v.nRetry == 0 ==>
              && r.1 == Continue && r.0.caState == v.caState && r.0.nAborted == v.nAborted + 1
              && r.0.nRetry == c.nRetry && r.0.be == c.wbusyBE
    ensures v.nRetry != 0 && ProbeBusy(c, c.checkBusy, true, pr) ==>
              && r.1 == Yield([Difs(r.0.backoff, tpream)], Block(3)) && c.wbusyMin <= r.0.backoff <= Pow2(v.be)
              && r.0.caState == v.caState && r.0.cca && r.0.nAborted == v.nAborted
              && r.0.nRetry == v.nRetry - 1 && v.be <= r.0.be <= Max(v.be, c.wbusyMaxBE)
    ensures v.nRetry != 0 && !ProbeBusy(c, c.checkBusy, true, pr) ==>
              && r.1 == Continue && r.0.caState == StartCA && r.0.ptype == Rts && 0 <= r.0.myP <= 100
              && r.0.nRetry == v.nRetry && r.0.be == v.be && r.0.nAborted == v.nAborted
  {
    if v.nRetry == 0 then
      (v.(nAborted := v.nAborted + 1, nRetry := c.nRetry, be := c.wbusyBE, cca := false, nav := 0), Continue)
    else
      var u := Rearmed(c, v, now).(stats := CountCca(v.stats, c.checkBusy, true, pr, true));
      if ProbeBusy(c, c.checkBusy, true, pr) then
        var b := BusyBackoff(c, v.be, pr.backoff);
        (u.(backoff := b, cca := true, be := NextBE(c, v.be), nRetry := v.nRetry - 1), Yield([Difs(b, tpream)], Block(3)))
      else
        (u.(myP := RandInt(0, 100, pSeed), caState := StartCA, ptype := Rts), Continue)
  }

  /** want_transmit again and again while it backs off, over one probe per round:
      the node after the rounds, and how many of them backed off. */
  function Rounds(c: Config, v: View, tpream: real, now: real, probes: seq<Probe>, pSeed: nat): (r: (View, nat))
    requires c.wbusyMin <= Pow2(v.be)
    decreases |probes|
  {
    if probes == [] then (v, 0)
    else
      var (u, out) := Want(c, v, tpream, now, probes[0], pSeed);
      if out.Yield? then
        Pow2Monotone(v.be, u.be);
        var (w, n) := Rounds(c, u, tpream, now, probes[1..], pSeed);
        (w, n + 1)
      else (u, 0)
  }

  /** Retries bound the backoffs at want_transmit: every round that backs off uses a
      retry and widens the window no further than Wbusy_maxBE; when the channel is
      found busy at every CCA, the node backs off exactly n_retry times and then
      aborts the packet, with its retries and window reset. */
  lemma {:induction false} BusyRoundsAbort(c: Config, v: View, tpream: real, now: real, probes: seq<Probe>, pSeed: nat)
    requires c.wbusyMin <= Pow2(v.be) && v.nRetry >= 0
    ensures var (w, n) := Rounds(c, v, tpream, now, probes, pSeed);
            && n <= v.nRetry && n <= |probes|
            && (w.nAborted == v.nAborted ==> w.nRetry == v.nRetry - n && v.be <= w.be <= Max(v.be, c.wbusyMaxBE))
    ensures v.nRetry < |probes| && (forall j :: 0 <= j < |probes| ==> ProbeBusy(c, c.checkBusy, true, probes[j])) ==>
              var (w, n) := Rounds(c, v, tpream, now, probes, pSeed);
              && n == v.nRetry && w.nAborted == v.nAborted + 1 && w.nRetry == c.nRetry && w.be == c.wbusyBE
    decreases |probes|
  {
    if probes != [] {
      var (u, out) := Want(c, v, tpream, now, probes[0], pSeed);
      if out.Yield? {
        Pow2Monotone(v.be, u.be);
        BusyRoundsAbort(c, u, tpream, now, probes[1..], pSeed);
        var (w, n) := Rounds(c, u, tpream, now, probes[1..], pSeed);
        assert Rounds(c, v, tpream, now, probes, pSeed) == (w, n + 1);
        if forall j :: 0 <= j < |probes| ==> ProbeBusy(c, c.checkBusy, true, probes[j]) {
          assert forall j :: 0 <= j < |probes[1..]| ==> ProbeBusy(c, c.checkBusy, true, probes[1..][j]);
        }
      }
    }
  }

  method Abort(c: Config, node: Node)
    requires ValidConfig(c) && node.Inv(c) && node.CaShape() && node.caState == WantTransmit
    modifies node`nAborted, node`nRetry, node`wbusyBE, node`cca, node`nav
    ensures node.Inv(c) && node.CaShape()
    ensures node.ToView() == old(node.ToView()).(nAborted := old(node.nAborted) + 1, nRetry := c.nRetry, be := c.wbusyBE, cca := false, nav := 0)
  {
    node.nAborted := node.nAborted + 1;
    node.nRetry := c.nRetry;
    node.wbusyBE := c.wbusyBE;
    node.cca := false;
    node.nav := 0;
  }

  method Rearm(c: Config, node: Node, now: real)
    modifies node`cca, node`nav, node`w2, node`wantTransmitTime
    ensures node.ToView() == Rearmed(c, old(node.ToView()), now)
  {
    if node.cca {
      node.cca := false;
    } else if node.nav != 0 {
      node.nav := 0;
      if c.w2AfterNav != c.w2 {
        node.w2 := c.w2AfterNav;
      } else {
        node.w2 := c.w2;
      }
    } else {
      node.wantTransmitTime := now;
    }
  }

  method BackOff(c: Config, node: Node, seed: nat) returns (delay: real)
    requires ValidConfig(c) && node.Inv(c) && node.CaShape() && node.caState == WantTransmit && node.nRetry != 0
    modifies node`backoff, node`cca, node`wbusyBE, node`nRetry
    ensures node.Inv(c) && node.CaShape() && c.wbusyMin <= Pow2(old(node.wbusyBE))
    ensures node.ToView() == old(node.ToView()).(backoff := BusyBackoff(c, old(node.wbusyBE), seed), cca := true,
                                             be := NextBE(c, old(node.wbusyBE)), nRetry := old(node.nRetry) - 1)
    ensures delay == Difs(node.backoff, node.packet.tpream)
  {
    node.backoff := BusyBackoff(c, node.wbusyBE, seed);
    node.cca := true;
    node.wbusyBE := NextBE(c, node.wbusyBE);
    node.nRetry := node.nRetry - 1;
    delay := Difs(node.backoff, node.packet.tpream);
    Pow2Monotone(old(node.wbusyBE), node.wbusyBE);
  }

  method Proceed(c: Config, node: Node, pSeed: nat)
    requires ValidConfig(c) && node.Inv(c) && node.CaShape() && node.caState == WantTransmit && node.nRetry != 0
    modifies node`myP, node`caState, node.packet`ptype, node.packet`pl, node.packet`rectime
    ensures node.Inv(c) && node.CaShape()
    ensures node.ToView() == old(node.ToView()).(myP := RandInt(0, 100, pSeed), caState := StartCA, ptype := Rts)
  {
    node.myP := RandInt(0, 100, pSeed);
    node.caState := StartCA;
    node.packet.SetPacketType(Rts);
  }

  /** want_transmit on the node, as Want states. */
  method Attempt(c: Config, node: Node, now: real, pr: Probe, pSeed: nat) returns (out: Outcome)
    requires ValidConfig(c) && node.Inv(c) && node.CaShape()
    requires node.caState == WantTransmit && node.packet.ptype == Data
    modifies node`nAborted, node`nRetry, node`wbusyBE, node`cca, node`nav, node`w2, node`wantTransmitTime
    modifies node`nCca, node`nBusyRts, node`nBusyRtsP1, node`nBusyData, node`backoff, node`myP, node`caState
    modifies node.packet`ptype, node.packet`pl, node.packet`rectime
    ensures node.Inv(c) && node.CaShape()
    ensures (node.ToView(), out) == Want(c, old(node.ToView()), node.packet.tpream, now, pr, pSeed)
  {
    if node.nRetry == 0 {
      Abort(c, node);
      out := Continue;
    } else {
      Rearm(c, node, now);
      var busy := Cca(c, c.checkBusy, node, pr, true);
      if busy {
        var delay := BackOff(c, node, pr.backoff);
        out := Yield([delay], Block(3));
      } else {
        Proceed(c, node, pSeed);
        out := Continue;
      }
    }
  }

  /** The listening period of the CA procedure: WL DIFS and the time on air of an RTS. */
  function ListenWindow(c: Config, tpream: real, rtsAirtime: real): real
  {
    Difs(c.wl, tpream) + rtsAirtime
  }

  /** start_CA, with an RTS: when my_P exceeds P the node starts in phase 1 and
      listens for a listening period; otherwise it starts in phase 2 and backs off
      randint(0, W2) DIFS (the CA2 variant draws from the same window). */
  method EnterCa(c: Config, node: Node, now: real, w2Seed: nat) returns (out: Outcome)
    requires c.w2 >= 0 && node.Inv(c) && node.CaShape() && node.caState == StartCA
    modifies node`caState, node`caListenStartTime, node`caListenEndTime, node`backoff
    ensures node.Inv(c) && node.CaShape()
    ensures node.myP > node.P ==>
              && node.caState == Phase1Listen && node.caListenStartTime == now
              && node.caListenEndTime == now + ListenWindow(c, node.packet.tpream, node.packet.rectime)
              && node.backoff == old(node.backoff)
              && out == Yield([ListenWindow(c, node.packet.tpream, node.packet.rectime)], Block(4))
    ensures node.myP <= node.P ==>
              && node.caState == Phase2Backoff && node.backoff == RandInt(0, c.w2, w2Seed)
              && node.caListenStartTime == old(node.caListenStartTime)
              && node.caListenEndTime == old(node.caListenEndTime)
              && out == Yield([Difs(node.backoff, node.packet.tpream)], Block(4))
  {
    if node.myP > node.P {
      node.caState := Phase1Listen;
      node.caListenStartTime := now;
      node.caListenEndTime := now + ListenWindow(c, node.packet.tpream, node.packet.rectime);
      out := Yield([ListenWindow(c, node.packet.tpream, node.packet.rectime)], Block(4));
    } else {
      node.caState := Phase2Backoff;
      // The CA2 variant draws from the same W2 window as the others.
      node.backoff := RandInt(0, c.w2, w2Seed);
      out := Yield([Difs(node.backoff, node.packet.tpream)], Block(4));
    }
  }

  /** extra_nav_difs: randint(0, Wnav) more DIFS of NAV, none when Wnav is 0. */
  function ExtraNav(c: Config, seed: nat): (e: int)
    requires c.wnav >= 0
    ensures 0 <= e <= c.wnav
  {
    if c.wnav != 0 then RandInt(0, c.wnav, seed) else 0
  }

  /** A NAV of navPeriod and extra DIFS counted from a reception at rxTime. */
  function NavEnd(rxTime: real, navPeriod: real, extra: int, tpream: real): real
  {
    rxTime + navPeriod + Difs(extra, tpream)
  }

  /** The timeout that ends a NAV set by a DATA header heard at rxTime: none when the
      NAV is over by now (the listening period outlasted it), otherwise its rest. */
  function DataNavDelays(rxTime: real, navPeriod: real, extra: int, tpream: real, now: real): seq<real>
  {
    if rxTime + navPeriod + Difs(extra, tpream) <= now then []
    else [navPeriod + Difs(extra, tpream) - (now - rxTime)]
  }

  /** After a DATA header the node wakes up exactly when the NAV ends, or at once
      if it has ended; it never waits for nothing. */
  lemma DataNavWakesAtNavEnd(rxTime: real, navPeriod: real, extra: int, tpream: real, now: real)
    ensures var ds := DataNavDelays(rxTime, navPeriod, extra, tpream, now);
            && |ds| <= 1
            && (ds == [] <==> NavEnd(rxTime, navPeriod, extra, tpream) <= now)
            && (forall j :: 0 <= j < |ds| ==> ds[j] > 0.0 && now + ds[j] == NavEnd(rxTime, navPeriod, extra, tpream))
  {
  }

  /** The NAV after an RTS: a listening period, W3 DIFS and the time on air of the
      DATA packet the RTS announces. */
  function RtsNavPeriod(c: Config, tpream: real, rtsAirtime: real, dataAirtime: real): real
  {
    ListenWindow(c, tpream, rtsAirtime) + Difs(c.w3, tpream) + dataAirtime
  }

  /** The timeout that ends a NAV set by an RTS heard at rxTime. */
  function RtsNavDelay(c: Config, tpream: real, rtsAirtime: real, dataAirtime: real, extra: int, rxTime: real, now: real): real
  {
    RtsNavPeriod(c, tpream, rtsAirtime, dataAirtime) + Difs(extra, tpream) - (now - rxTime)
  }

  /** An RTS heard during a listening period that ends now sets a NAV that ends
      later than now, at the end counted from the RTS: the timeout is positive. */
  lemma {:induction false} RtsNavWakesAfterListening(c: Config, tpream: real, rtsAirtime: real, dataAirtime: real,
                                                     extra: int, listenStart: real, rxTime: real, now: real)
    requires c.w3 >= 0 && extra >= 0 && tpream > 0.0 && dataAirtime > 0.0
    requires listenStart <= rxTime && now == listenStart + ListenWindow(c, tpream, rtsAirtime)
    ensures RtsNavDelay(c, tpream, rtsAirtime, dataAirtime, extra, rxTime, now) > 0.0
    ensures now + RtsNavDelay(c, tpream, rtsAirtime, dataAirtime, extra, rxTime, now)
              == NavEnd(rxTime, RtsNavPeriod(c, tpream, rtsAirtime, dataAirtime), extra, tpream)
  {
    NonNegativeProduct(c.w3 as real, tpream);
    NonNegativeProduct(extra as real, tpream);
  }

  lemma NonNegativeProduct(a: real, b: real)
    requires a >= 0.0 && b >= 0.0
    ensures a * b >= 0.0
  {
  }

  /** The end of a listening period (start_phase1_listen or start_phase2_listen) with
      no RTS heard but a DATA header heard: the listening time counts until the
      header, the NAV is the time on air of a payload of node.nav bytes plus the extra
      DIFS, and the node goes into start_nav, waiting for the rest of the NAV if any
      (DataNavDelays). */
  method HeardData(c: Config, node: Node, now: real, phase1: bool, navSeed: nat) returns (out: Outcome)
    requires ValidConfig(c) && node.Inv(c) && node.CaShape()
    requires node.caState == (if phase1 then Phase1Listen else Phase2Listen) && !node.receiveRts && node.receiveData
    modifies node`totalListenTime, node`receiveData, node`nReceiveNavDataP1, node`nReceiveNavDataP2, node`caState
    ensures node.Inv(c) && node.CaShape() && !node.receiveRts && !node.receiveData && node.caState == StartNav
    ensures node.totalListenTime == old(node.totalListenTime) + (node.receiveDataTime - node.caListenStartTime)
    ensures node.nReceiveNavDataP1 == old(node.nReceiveNavDataP1) + (if phase1 then 1 else 0)
    ensures node.nReceiveNavDataP2 == old(node.nReceiveNavDataP2) + (if phase1 then 0 else 1)
    ensures var p := node.packet;
            var ds := DataNavDelays(node.receiveDataTime, Airtime(p.sf, p.cr, node.nav, p.bw),
                                    ExtraNav(c, navSeed), p.tpream, now);
            out == (if ds == [] then Continue else Yield(ds, Block(if phase1 then 5 else 9)))
  {
    var p := node.packet;
    node.totalListenTime := node.totalListenTime + (node.receiveDataTime - node.caListenStartTime);
    node.receiveData := false;
    if phase1 {
      node.nReceiveNavDataP1 := node.nReceiveNavDataP1 + 1;
    } else {
      node.nReceiveNavDataP2 := node.nReceiveNavDataP2 + 1;
    }
    node.caState := StartNav;
    var ds := DataNavDelays(node.receiveDataTime, Airtime(p.sf, p.cr, node.nav, p.bw), ExtraNav(c, navSeed), p.tpream, now);
    out := if ds == [] then Continue else Yield(ds, Block(if phase1 then 5 else 9));
  }

  /** The end of a listening period with nothing heard: in phase 1 the node backs off
      randint(0, W2) DIFS before its RTS, in phase 2 randint(0, W3) DIFS before its
      DATA packet. */
  method HeardNothing(c: Config, node: Node, phase1: bool, wSeed: nat) returns (out: Outcome)
    requires ValidConfig(c) && node.Inv(c) && node.CaShape()
    requires node.caState == (if phase1 then Phase1Listen else Phase2Listen) && !node.receiveRts && !node.receiveData
    modifies node`caState, node`backoff
    ensures node.Inv(c) && node.CaShape() && !node.receiveRts
    ensures node.caState == (if phase1 then Phase2Backoff else Phase3Backoff)
    ensures node.backoff == RandInt(0, if phase1 then c.w2 else c.w3, wSeed)
    ensures out == Yield([Difs(node.backoff, node.packet.tpream)], Block(if phase1 then 5 else 9))
  {
    node.backoff := RandInt(0, if phase1 then c.w2 else c.w3, wSeed);
    node.caState := if phase1 then Phase2Backoff else Phase3Backoff;
    out := Yield([Difs(node.backoff, node.packet.tpream)], Block(if phase1 then 5 else 9));
  }

  /** The end of a listening period in which an RTS was heard: the listening time
      counts until the RTS, and the node goes into start_nav for the NAV the RTS
      sets (RtsNavDelay), counted from when it was heard. */
  method EndListenRts(c: Config, node: Node, now: real, phase1: bool, navSeed: nat) returns (out: Outcome)
    requires ValidConfig(c) && node.Inv(c) && node.CaShape()
    requires node.caState == (if phase1 then Phase1Listen else Phase2Listen) && node.receiveRts
    modifies node`receiveRts, node`totalListenTime, node`nReceiveNavRtsP1, node`nReceiveNavRtsP2, node`caState
    ensures node.Inv(c) && node.CaShape()
    ensures !node.receiveRts && node.caState == StartNav
    ensures node.totalListenTime == old(node.totalListenTime) + (node.receiveRtsTime - node.caListenStartTime)
    ensures node.nReceiveNavRtsP1 == old(node.nReceiveNavRtsP1) + (if phase1 then 1 else 0)
    ensures node.nReceiveNavRtsP2 == old(node.nReceiveNavRtsP2) + (if phase1 then 0 else 1)
    ensures var p := node.packet;
            out == Yield([RtsNavDelay(c, p.tpream, p.rectime, Airtime(p.sf, p.cr, node.nav, p.bw),
                                      ExtraNav(c, navSeed), node.receiveRtsTime, now)],
                         Block(if phase1 then 6 else 10))
  {
    var p := node.packet;
    node.receiveRts := false;
    node.totalListenTime := node.totalListenTime + (node.receiveRtsTime - node.caListenStartTime);
    if phase1 {
      node.nReceiveNavRtsP1 := node.nReceiveNavRtsP1 + 1;
    } else {
      node.nReceiveNavRtsP2 := node.nReceiveNavRtsP2 + 1;
    }
    var navPeriod := RtsNavPeriod(c, p.tpream, p.rectime, Airtime(p.sf, p.cr, node.nav, p.bw));
    var extra := ExtraNav(c, navSeed);
    node.caState := StartNav;
    out := Yield([RtsNavDelay(c, p.tpream, p.rectime, Airtime(p.sf, p.cr, node.nav, p.bw), extra, node.receiveRtsTime, now)],
                 Block(if phase1 then 6 else 10));
  }

  /** start_phase2_backoff, before its retry loop: the node enters start_phase2_rts
      with a fresh backoff window, a fresh RTS retry budget (kept when n_retry_rts is
      not positive: it is never decremented then) and the busy flag cleared. */
  method PrepareRts(c: Config, node: Node)
    requires ValidConfig(c) && node.Inv(c) && node.CaShape() && node.caState == Phase2Backoff
    modifies node`caState, node`wbusyBE, node`nRetryRts, node`cca
    ensures node.Inv(c) && node.CaShape()
    ensures node.caState == Phase2Rts && node.wbusyBE == c.wbusyBE && !node.cca
    ensures node.nRetryRts == InitialRtsRetries(c)
  {
    node.caState := Phase2Rts;
    node.wbusyBE := c.wbusyBE;
    if c.nRetryRts > 0 {
      node.nRetryRts := c.nRetryRts;
    }
    node.cca := false;
  }

  /** start_phase2_backoff: PrepareRts, then the RTS retry loop over the probes (see
      RtsRetries), from the fresh budget and window. The node stays in
      start_phase2_rts with its RTS retries and window where the loop leaves them. */
  method StartRts(c: Config, node: Node, probes: seq<Probe>) returns (backoffs: seq<int>)
    requires ValidConfig(c) && node.Inv(c) && node.CaShape() && node.caState == Phase2Backoff
    requires RtsReads(c, InitialRtsRetries(c), probes) <= |probes|
    modifies node`caState, node`wbusyBE, node`nRetryRts, node`cca
    modifies node`nCca, node`nBusyRts, node`nBusyRtsP1, node`nBusyData, node`backoff
    ensures node.Inv(c) && node.CaShape() && node.caState == Phase2Rts && !node.cca
    ensures var n := RtsBusies(c, InitialRtsRetries(c), probes);
            && backoffs == Backoffs(c, c.wbusyBE, probes, n)
            && node.wbusyBE == BEAfter(c, c.wbusyBE, n)
            && node.nRetryRts == InitialRtsRetries(c) - (if c.nRetryRts > 0 then n else 0)
    ensures node.Stats() == CountCcas(old(node.Stats()), c.checkBusyRts, true, probes, RtsReads(c, InitialRtsRetries(c), probes))
  {
    PrepareRts(c, node);
    ghost var left := node.nRetryRts;
    backoffs := RtsRetries(c, node, probes);
    ghost var lead := LeadingBusy(c, c.checkBusyRts, true, probes);
    RetryLoopShape(c.nRetryRts > 0, left, lead);
    BEAfterBounds(c, c.wbusyBE, Busies(c.nRetryRts > 0, left, lead));
    Pow2Monotone(c.wbusyBE, node.wbusyBE);
  }

  /** The packet has been on air for its time on air: the channel is no longer busy
      with a packet of its kind, and the gateway's counters of its kind count it
      (Retire); the node's MAC state is untouched. */
  method Land(c: Config, net: Network, node: Node, rts: bool)
    requires net.Valid() && c == net.cfg && node in net.nodes && node.Inv(c)
    modifies net`channelBusyRts, net`channelBusyData, net`packetsAtBS, net`tally, net`rtsTally
    modifies node.packet`collided, node.packet`processed, node.packet`lost
    ensures net.Valid() && node.Inv(c)
    ensures node.caState == old(node.caState) && node.nRetry == old(node.nRetry) && node.packet.ptype == old(node.packet.ptype)
    ensures (if rts then !net.channelBusyRts else !net.channelBusyData)
    ensures (if rts then net.channelBusyData == old(net.channelBusyData) else net.channelBusyRts == old(net.channelBusyRts))
    ensures var t := (if rts then old(net.rtsTally) else old(net.tally))
                       .Count(old(node.packet.lost), old(node.packet.collided), old(node.packet.processed));
            if rts then net.rtsTally == t && net.tally == old(net.tally)
            else net.tally == t && net.rtsTally == old(net.rtsTally)
    ensures node !in net.packetsAtBS && !node.packet.collided && !node.packet.processed && !node.packet.lost
  {
    net.SetBusy(rts, false);
    Retire(net, node, rts);
  }

  /** start_phase2_rts, once the RTS is sent: with the CA1 variant the node skips the
      second listening period and backs off randint(0, W3) DIFS before its DATA
      packet; otherwise it listens for a listening period from now. */
  method AfterRts(c: Config, node: Node, now: real, w3Seed: nat) returns (out: Outcome)
    requires c.w3 >= 0 && node.Inv(c) && node.CaShape() && node.caState == Phase2Rts
    modifies node`caState, node`backoff, node`caListenStartTime, node`caListenEndTime
    ensures node.Inv(c) && node.CaShape()
    ensures c.ca1 ==>
              && node.caState == Phase3Backoff && node.backoff == RandInt(0, c.w3, w3Seed)
              && node.caListenStartTime == old(node.caListenStartTime)
              && node.caListenEndTime == old(node.caListenEndTime)
              && out == Yield([Difs(node.backoff, node.packet.tpream)], Block(8))
    ensures !c.ca1 ==>
              && node.caState == Phase2Listen && node.caListenStartTime == now
              && node.caListenEndTime == now + ListenWindow(c, node.packet.tpream, node.packet.rectime)
              && node.backoff == old(node.backoff)
              && out == Yield([ListenWindow(c, node.packet.tpream, node.packet.rectime)], Block(8))
  {
    if c.ca1 {
      node.caState := Phase3Backoff;
      node.backoff := RandInt(0, c.w3, w3Seed);
      out := Yield([Difs(node.backoff, node.packet.tpream)], Block(8));
    } else {
      node.caState := Phase2Listen;
      node.caListenStartTime := now;
      node.caListenEndTime := now + ListenWindow(c, node.packet.tpream, node.packet.rectime);
      out := Yield([ListenWindow(c, node.packet.tpream, node.packet.rectime)], Block(8));
    }
  }

  /** start_phase3_backoff: the backoff is over, the node moves on to transmit its
      DATA packet, whose type (and so length and time on air) the packet takes back. */
  method StartPhase3(c: Config, node: Node)
    requires node.Inv(c) && node.CaShape() && node.caState == Phase3Backoff
    modifies node`caState, node.packet`ptype, node.packet`pl, node.packet`rectime
    ensures node.Inv(c) && node.CaShape() && node.caState == Phase3Transmit
    ensures node.packet.ptype == Data && node.packet.rectime == node.packet.dataToa
  {
    node.caState := Phase3Transmit;
    node.packet.SetPacketType(Data);
  }

  /** The retries a DATA packet used are recorded when it goes out: the total grows
      by n_retry - node.n_retry and that entry of the histogram is incremented. With
      at least one retry left the entry lies in [0, n_retry - 1], so it exists; the
      other entries keep their counts. */
  function RetryRecord(cfgRetries: int, left: int, total: int, bin: seq<int>): (r: (int, seq<int>))
    requires 1 <= left <= cfgRetries && |bin| == cfgRetries
    ensures 0 <= cfgRetries - left <= cfgRetries - 1
    ensures r.0 - total == cfgRetries - left && |r.1| == |bin|
    ensures forall j :: 0 <= j < |bin| ==> r.1[j] == bin[j] + (if j == cfgRetries - left then 1 else 0)
  {
    var used := cfgRetries - left;
    (total + used, bin[used := bin[used] + 1])
  }

  /** The DATA packet is counted when it goes out: one more sent, its retries
      recorded (RetryRecord) and its latency, from the moment the node wanted to
      transmit it, added up. */
  method CountData(c: Config, node: Node, now: real)
    requires node.Inv(c) && node.nRetry >= 1
    modifies node`nDataSent, node`totalRetry, node`retryBin, node`latency
    ensures node.Inv(c)
    ensures node.nDataSent == old(node.nDataSent) + 1
    ensures (node.totalRetry, node.retryBin) == RetryRecord(c.nRetry, node.nRetry, old(node.totalRetry), old(node.retryBin))
    ensures node.latency == old(node.latency) + (now - node.wantTransmitTime)
  {
    var r := RetryRecord(c.nRetry, node.nRetry, node.totalRetry, node.retryBin);
    node.nDataSent := node.nDataSent + 1;
    node.totalRetry, node.retryBin := r.0, r.1;
    node.latency := node.latency + (now - node.wantTransmitTime);
  }

  /** The DATA packet goes out (start_phase3_transmit with the channel found free,
      or the ALOHA-like transmission): it is counted (CountData), the gateway
      receives it (Deliver; without collision avoidance its verdict replaces the
      collided flag), the channel is busy with DATA, and the node waits for its
      time on air. */
  method SendData(c: Config, net: Network, node: Node, now: real) returns (out: Outcome)
    requires net.Valid() && c == net.cfg && node in net.nodes
    requires node.Inv(c) && node.nRetry >= 1
    modifies node`nDataSent, node`totalRetry, node`retryBin, node`latency, net`channelBusyRts, net`channelBusyData
    modifies net`packetsAtBS, node.packet`lost, node.packet`addTime
    modifies node.packet`collided, node.packet`processed, net.NodePackets()`collided
    modifies net.nodes`receiveRts, net.nodes`receiveRtsFrom, net.nodes`receiveRtsTime
    modifies net.nodes`receiveData, net.nodes`receiveDataFrom, net.nodes`receiveDataTime, net.nodes`nav
    ensures net.Valid() && node.Inv(c)
    ensures node.caState == old(node.caState) && node.nRetry == old(node.nRetry) && node.cca == old(node.cca)
    ensures node.packet.ptype == old(node.packet.ptype) && node.wbusyBE == old(node.wbusyBE)
    ensures node.Stats() == old(node.Stats())
    ensures node.nDataSent == old(node.nDataSent) + 1
    ensures (node.totalRetry, node.retryBin) == RetryRecord(c.nRetry, node.nRetry, old(node.totalRetry), old(node.retryBin))
    ensures node.latency == old(node.latency) + (now - node.wantTransmitTime)
    ensures net.channelBusyData && net.channelBusyRts == old(net.channelBusyRts)
    ensures out == Yield([node.packet.rectime], if c.ca then DataOnAir else AlohaOnAir)
  {
    var _ := Broadcast(c, net, node, now, !c.ca);
    CountData(c, node, now);
    net.SetBusy(false, true);
    out := Yield([node.packet.rectime], if c.ca then DataOnAir else AlohaOnAir);
  }

  /** The channel was found busy before the DATA packet: the node uses a retry and
      starts over from want_transmit, with the busy flag set. */
  method LosePriority(c: Config, node: Node)
    requires node.Inv(c) && node.CaShape() && node.caState == Phase3Transmit
    modifies node`cca, node`nRetry, node`caState
    ensures node.Inv(c) && node.CaShape()
    ensures node.cca && node.nRetry == old(node.nRetry) - 1 && node.caState == WantTransmit
  {
    node.cca := true;
    node.nRetry := node.nRetry - 1;
    node.caState := WantTransmit;
  }

  /** start_phase3_transmit, with its DATA packet: one CCA (an RTS on air counts as
      busy), counted in the statistics. Found busy, the node has lost its priority:
      it uses a retry and starts over from want_transmit, with the busy flag set.
      Found free, the node stays in start_phase3_transmit and the DATA packet goes
      out (SendData). */
  method DataCca(c: Config, node: Node, pr: Probe) returns (busy: bool)
    requires node.Inv(c) && node.CaShape() && node.caState == Phase3Transmit
    modifies node`nCca, node`nBusyRts, node`nBusyRtsP1, node`nBusyData, node`cca, node`nRetry, node`caState
    ensures node.Inv(c) && node.CaShape()
    ensures busy == ProbeBusy(c, c.checkBusy, true, pr)
    ensures node.Stats() == CountCca(old(node.Stats()), c.checkBusy, true, pr, false)
    ensures busy ==> node.cca && node.nRetry == old(node.nRetry) - 1 && node.caState == WantTransmit
    ensures !busy ==> node.cca == old(node.cca) && node.nRetry == old(node.nRetry) && node.caState == Phase3Transmit
  {
    busy := Cca(c, c.checkBusy, node, pr, false);
    if busy {
      LosePriority(c, node);
    }
  }

  /** start_phase3_transmit on the node: the CCA with the channel flags as they are
      now (DataCca); found free, the DATA packet goes out (SendData) and the node
      waits in start_phase3_transmit for its time on air; found busy, the node is
      back at want_transmit and the sweep goes on. */
  method DataPhase(c: Config, net: Network, node: Node, now: real, ccaSeed: nat) returns (out: Outcome)
    requires net.Valid() && c == net.cfg && c.ca && node in net.nodes
    requires node.Inv(c) && node.CaShape() && node.caState == Phase3Transmit
    modifies node`nCca, node`nBusyRts, node`nBusyRtsP1, node`nBusyData, node`cca, node`nRetry, node`caState
    modifies node`nDataSent, node`totalRetry, node`retryBin, node`latency, net`channelBusyRts, net`channelBusyData
    modifies net`packetsAtBS, node.packet`lost, node.packet`addTime
    modifies node.packet`collided, node.packet`processed, net.NodePackets()`collided
    modifies net.nodes`receiveRts, net.nodes`receiveRtsFrom, net.nodes`receiveRtsTime
    modifies net.nodes`receiveData, net.nodes`receiveDataFrom, net.nodes`receiveDataTime, net.nodes`nav
    ensures net.Valid() && node.Inv(c) && node.CaShape()
    ensures out == Continue <==>
              ProbeBusy(c, c.checkBusy, true, Probe(old(net.channelBusyRts), old(net.channelBusyData), ccaSeed, 0))
    ensures node.Stats() == CountCca(old(node.Stats()), c.checkBusy, true,
                                     Probe(old(net.channelBusyRts), old(net.channelBusyData), ccaSeed, 0), false)
    ensures out == Continue ==>
              && node.cca && node.nRetry == old(node.nRetry) - 1 && node.caState == WantTransmit
              && node.nDataSent == old(node.nDataSent) && net.packetsAtBS == old(net.packetsAtBS)
              && net.channelBusyRts == old(net.channelBusyRts) && net.channelBusyData == old(net.channelBusyData)
    ensures out != Continue ==>
              && node.cca == old(node.cca) && node.nRetry == old(node.nRetry) && node.caState == Phase3Transmit
              && node.nDataSent == old(node.nDataSent) + 1
              && (node.totalRetry, node.retryBin) == RetryRecord(c.nRetry, node.nRetry, old(node.totalRetry), old(node.retryBin))
              && node.latency == old(node.latency) + (now - node.wantTransmitTime)
              && net.channelBusyData && net.channelBusyRts == old(net.channelBusyRts)
              && out == Yield([node.packet.rectime], DataOnAir)
  {
    var busy := DataCca(c, node, Probe(net.channelBusyRts, net.channelBusyData, ccaSeed, 0));
    if busy {
      out := Continue;
    } else {
      out := SendData(c, net, node, now);
    }
  }

  /** After its DATA packet, the node, with a fresh retry budget, the busy flag and
      the NAV cleared, schedules its next packet. The backoff window is left as it
      is. */
  method ResetAfterData(c: Config, node: Node)
    requires node.Inv(c) && node.CaShape() && node.caState == Phase3Transmit
    modifies node`nRetry, node`cca, node`nav, node`caState
    ensures node.Inv(c) && node.CaShape()
    ensures node.caState == ScheduleTx && node.nRetry == c.nRetry && !node.cca && node.nav == 0
  {
    node.nRetry := c.nRetry;
    node.cca := false;
    node.nav := 0;
    node.caState := ScheduleTx;
  }

  /** start_nav: the NAV is over; the node uses a retry and starts over from
      want_transmit with its DATA packet. */
  method EndNav(c: Config, node: Node)
    requires node.Inv(c) && node.CaShape() && node.caState == StartNav
    modifies node`caState, node`nRetry, node.packet`ptype, node.packet`pl, node.packet`rectime
    ensures node.Inv(c) && node.CaShape()
    ensures node.caState == WantTransmit && node.packet.ptype == Data && node.nRetry == old(node.nRetry) - 1
  {
    node.caState := WantTransmit;
    node.packet.SetPacketType(Data);
    node.nRetry := node.nRetry - 1;
  }

  /** start_phase2_backoff on the node: the RTS retry loop (StartRts); when it backed
      off, the node waits for its backoffs, in DIFS, before the RTS goes out, and
      otherwise the RTS goes out at once (SendRts). */
  method RtsPhase(c: Config, net: Network, node: Node, now: real, probes: seq<Probe>) returns (out: Outcome)
    requires net.Valid() && c == net.cfg && ValidConfig(c) && node in net.nodes
    requires node.Inv(c) && node.CaShape() && node.caState == Phase2Backoff
    requires RtsReads(c, InitialRtsRetries(c), probes) <= |probes|
    modifies node`caState, node`wbusyBE, node`nRetryRts, node`cca
    modifies node`nCca, node`nBusyRts, node`nBusyRtsP1, node`nBusyData, node`backoff
    modifies node`nRtsSent, node`totalRetryRts, node`retryRtsBin, net`channelBusyRts, net`channelBusyData
    modifies net`packetsAtBS, node.packet`lost, node.packet`addTime
    modifies node.packet`collided, node.packet`processed, net.NodePackets()`collided
    modifies net.nodes`receiveRts, net.nodes`receiveRtsFrom, net.nodes`receiveRtsTime
    modifies net.nodes`receiveData, net.nodes`receiveDataFrom, net.nodes`receiveDataTime, net.nodes`nav
    ensures net.Valid() && node.Inv(c) && node.CaShape() && node.caState == Phase2Rts && !node.cca
    ensures var n := RtsBusies(c, InitialRtsRetries(c), probes);
            && node.wbusyBE == BEAfter(c, c.wbusyBE, n)
            && node.nRetryRts == InitialRtsRetries(c) - (if c.nRetryRts > 0 then n else 0)
            && out == if n == 0 then Yield([node.packet.rectime], RtsOnAir)
                      else Yield(Scaled(Backoffs(c, c.wbusyBE, probes, n), node.packet.tpream, 0.0), RtsRetryDone)
    ensures node.Stats() == CountCcas(old(node.Stats()), c.checkBusyRts, true, probes, RtsReads(c, InitialRtsRetries(c), probes))
    ensures out.Yield? && out.at == RtsOnAir ==>
              && node.nRtsSent == old(node.nRtsSent) + 1
              && (node.totalRetryRts, node.retryRtsBin)
                   == RtsRecord(c.nRetryRts, node.nRetryRts, old(node.totalRetryRts), old(node.retryRtsBin))
              && net.channelBusyRts && net.channelBusyData == old(net.channelBusyData)
    ensures out.Yield? && out.at == RtsRetryDone ==>
              && node.nRtsSent == old(node.nRtsSent) && net.packetsAtBS == old(net.packetsAtBS)
              && net.channelBusyRts == old(net.channelBusyRts) && net.channelBusyData == old(net.channelBusyData)
  {
    var backoffs := StartRts(c, node, probes);
    if backoffs != [] {
      out := Yield(Scaled(backoffs, node.packet.tpream, 0.0), RtsRetryDone);
    } else {
      out := SendRts(c, net, node, now);
    }
  }

  /** An option, for the result of an indexing that may fail. */
  datatype Option<T> = None | Some(value: T)

  /** Python's indexing of a list of len entries: a negative index counts from the
      end, and an index outside [-len, len) raises IndexError (None). */
  function PyIndex(len: nat, i: int): (r: Option<nat>)
    ensures r.Some? <==> -(len as int) <= i < len
    ensures r.Some? ==> r.value < len && (r.value == i || r.value == len + i)
  {
    if 0 <= i < len then Some(i)
    else if -(len as int) <= i < 0 then Some(len + i)
    else None
  }

  /** The RTS bookkeeping when the RTS goes out, as written: total_retry_rts grows by
      n_retry_rts - node.n_retry_rts and that entry of retry_rts_bin is incremented,
      with Python's indexing (None: IndexError). */
  function RtsRecordAsWritten(cfgRetries: int, left: int, total: int, bin: seq<int>): (r: Option<(int, seq<int>)>)
    ensures r.None? <==> !(-|bin| <= cfgRetries - left < |bin|)
    ensures r.Some? ==> r.value.0 == total + (cfgRetries - left) && |r.value.1| == |bin|
    ensures r.Some? && 0 <= cfgRetries - left ==> r.value.1[cfgRetries - left] == bin[cfgRetries - left] + 1
  {
    match PyIndex(|bin|, cfgRetries - left)
    case None => None
    case Some(j) => Some((total + (cfgRetries - left), bin[j := bin[j] + 1]))
  }

  /** With n_retry_rts not positive the node keeps one unused RTS retry, and the
      bookkeeping as written goes wrong at the first RTS: for n_retry_rts < 0 the
      histogram is empty and the index raises IndexError; for n_retry_rts = 0 the
      index -1 wraps to the only entry and total_retry_rts falls by one. */
  lemma {:induction false} RtsRecordAsWrittenFails(c: Config, total: int)
    requires c.nRetryRts <= 0
    ensures var r := RtsRecordAsWritten(c.nRetryRts, InitialRtsRetries(c), total, Zeros(Max(c.nRetryRts + 1, 0)));
            && (c.nRetryRts < 0 ==> r == None)
            && (c.nRetryRts == 0 ==> r == Some((total - 1, [1])))
  {
    assert InitialRtsRetries(c) == 1;
    if c.nRetryRts == 0 {
      assert Zeros(1) == [0];
      assert PyIndex(1, -1) == Some(0);
      assert [0][0 := 1] == [1];
    }
  }

  /** The RTS bookkeeping as intended: with a limited budget (n_retry_rts > 0), the
      retries used are counted, in the total and in their histogram entry, exactly as
      written; with an unlimited budget no retries are counted, so nothing is
      recorded. The total never falls and the histogram keeps its length. */
  function RtsRecord(cfgRetries: int, left: int, total: int, bin: seq<int>): (r: (int, seq<int>))
    requires cfgRetries > 0 ==> 0 <= left <= cfgRetries && |bin| == cfgRetries + 1
    ensures r.0 >= total && |r.1| == |bin|
    ensures cfgRetries > 0 ==> RtsRecordAsWritten(cfgRetries, left, total, bin) == Some(r)
    ensures cfgRetries <= 0 ==> r == (total, bin)
  {
    if cfgRetries > 0 then (total + (cfgRetries - left), bin[cfgRetries - left := bin[cfgRetries - left] + 1])
    else (total, bin)
  }

  /** The RTS is counted with its retries. */
  method CountRts(c: Config, node: Node)
    requires node.Inv(c)
    modifies node`nRtsSent, node`totalRetryRts, node`retryRtsBin
    ensures node.Inv(c)
    ensures node.nRtsSent == old(node.nRtsSent) + 1
    ensures (node.totalRetryRts, node.retryRtsBin)
              == RtsRecord(c.nRetryRts, node.nRetryRts, old(node.totalRetryRts), old(node.retryRtsBin))
  {
    var r := RtsRecord(c.nRetryRts, node.nRetryRts, node.totalRetryRts, node.retryRtsBin);
    node.nRtsSent := node.nRtsSent + 1;
    node.totalRetryRts, node.retryRtsBin := r.0, r.1;
  }

  /** The node's packet goes on air and the gateway receives it (Deliver, whose
      contract states the verdict of checkcollision); the node's retry counters,
      window, state and packet type are untouched. */
  method Broadcast(c: Config, net: Network, node: Node, now: real, aloha: bool) returns (col: bool)
    requires net.Valid() && c == net.cfg && node in net.nodes && node.Inv(c)
    modifies net`packetsAtBS, node.packet`lost, node.packet`addTime
    modifies node.packet`collided, node.packet`processed, net.NodePackets()`collided
    modifies net.nodes`receiveRts, net.nodes`receiveRtsFrom, net.nodes`receiveRtsTime
    modifies net.nodes`receiveData, net.nodes`receiveDataFrom, net.nodes`receiveDataTime, net.nodes`nav
    ensures net.Valid() && node.Inv(c)
    ensures node.caState == old(node.caState) && node.nRetry == old(node.nRetry) && node.cca == old(node.cca)
    ensures node.packet.ptype == old(node.packet.ptype) && node.wbusyBE == old(node.wbusyBE)
    ensures node.Stats() == old(node.Stats())
  {
    col := Deliver(net, node, now, aloha);
    node.InvKept(c);
  }

  /** The RTS goes out at the end of start_phase2_backoff (after its retries, or
      anyway when they ran out): it is counted with its retries (RtsRecord), the
      gateway receives it (Deliver), the channel is busy with an RTS, and the node
      waits for its time on air. */
  method SendRts(c: Config, net: Network, node: Node, now: real) returns (out: Outcome)
    requires net.Valid() && c == net.cfg && node in net.nodes
    requires node.Inv(c) && node.CaShape() && node.caState == Phase2Rts
    modifies node`nRtsSent, node`totalRetryRts, node`retryRtsBin, net`channelBusyRts, net`channelBusyData
    modifies net`packetsAtBS, node.packet`lost, node.packet`addTime
    modifies node.packet`collided, node.packet`processed, net.NodePackets()`collided
    modifies net.nodes`receiveRts, net.nodes`receiveRtsFrom, net.nodes`receiveRtsTime
    modifies net.nodes`receiveData, net.nodes`receiveDataFrom, net.nodes`receiveDataTime, net.nodes`nav
    ensures net.Valid() && node.Inv(c) && node.CaShape() && node.caState == Phase2Rts
    ensures node.cca == old(node.cca) && node.wbusyBE == old(node.wbusyBE) && node.nRetryRts == old(node.nRetryRts)
    ensures node.Stats() == old(node.Stats())
    ensures node.nRtsSent == old(node.nRtsSent) + 1
    ensures (node.totalRetryRts, node.retryRtsBin)
              == RtsRecord(c.nRetryRts, node.nRetryRts, old(node.totalRetryRts), old(node.retryRtsBin))
    ensures net.channelBusyRts && net.channelBusyData == old(net.channelBusyData)
    ensures out == Yield([node.packet.rectime], RtsOnAir)
  {
    var _ := Broadcast(c, net, node, now, false);
    CountRts(c, node);
    net.SetBusy(true, true);
    out := Yield([node.packet.rectime], RtsOnAir);
  }

  /** The test at the end of the loop body: once more than targetSentPacket DATA
      packets were processed, the simulation ends now (endSim) and the process
      returns. */
  method EndCheck(c: Config, net: Network, now: real) returns (over: bool)
    requires c == net.cfg
    modifies net`endSim
    ensures over == (net.tally.processed > c.targetSentPacket)
    ensures net.endSim == if over then now else old(net.endSim)
  {
    over := net.tally.processed > c.targetSentPacket;
    if over {
      net.endSim := now;
    }
  }
}
