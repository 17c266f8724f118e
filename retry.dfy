/** The carrier-sense points of the transmit process on a node: the single CCA before
    a DATA packet in the collision-avoidance procedure, and the two retry loops that
    back off while the channel is found busy (before the RTS, and before the DATA
    packet without collision avoidance). The CCAs of a loop happen at successive
    instants separated by its backoffs; the channel flags and random draws the node
    meets at each are the loop's run of probes. */
module Retry {
  import opened Params
  import opened Rand
  import opened Phy
  import opened Packets
  import opened Backoff
  import opened Sim

  /** One CCA before a DATA packet of the collision-avoidance procedure, with carrier
      sense `check` against the flags and draw of pr: the statistics count it
      (CountCca), and the channel is found busy exactly when it is busy and CCA
      notices it. */
  method Cca(c: Config, check: bool, node: Node, pr: Probe, phase1: bool) returns (busy: bool)
    requires node.Inv(c) && node.CaShape()
    modifies node`nCca, node`nBusyRts, node`nBusyRtsP1, node`nBusyData
    ensures node.Inv(c) && node.CaShape()
    ensures busy == ProbeBusy(c, check, true, pr)
    ensures node.Stats() == CountCca(old(node.Stats()), check, true, pr, phase1)
    ensures node.ToView() == old(node.ToView()).(stats := CountCca(old(node.Stats()), check, true, pr, phase1))
  {
    busy := false;
    if check {
      node.nCca := node.nCca + 1;
      if pr.busyRts || pr.busyData {
        if pr.busyRts {
          node.nBusyRts := node.nBusyRts + 1;
          if phase1 {
            node.nBusyRtsP1 := node.nBusyRtsP1 + 1;
          }
        } else {
          node.nBusyData := node.nBusyData + 1;
        }
        busy := CcaDetects(c, pr.cca);
      }
    }
  }

  /** The probe at k, at most lead, is found busy exactly when it is not the end of the
      leading busy run. */
  lemma LeadingBusyAt(c: Config, check: bool, rtsToo: bool, probes: seq<Probe>, k: nat)
    requires k < |probes| && k <= LeadingBusy(c, check, rtsToo, probes)
    ensures ProbeBusy(c, check, rtsToo, probes[k]) <==> k < LeadingBusy(c, check, rtsToo, probes)
  {
  }

  /** The backoffs a retry loop makes and the probes it reads, from `left` retries,
      with carrier sense `check`, rtsToo when an RTS on air counts as busy, and
      limited when its retries are decremented. */
  function LoopBusies(c: Config, check: bool, rtsToo: bool, limited: bool, left: nat, probes: seq<Probe>): nat
  {
    Busies(limited, left, LeadingBusy(c, check, rtsToo, probes))
  }

  function LoopReads(c: Config, check: bool, rtsToo: bool, limited: bool, left: nat, probes: seq<Probe>): nat
  {
    Iterations(limited, left, LeadingBusy(c, check, rtsToo, probes))
  }

  /** The retry loop before the RTS: carrier sense check_busy_rts, an RTS on air is
      busy too, and the retries are limited when n_retry_rts is positive. */
  function RtsBusies(c: Config, left: nat, probes: seq<Probe>): nat
  {
    LoopBusies(c, c.checkBusyRts, true, c.nRetryRts > 0, left, probes)
  }

  function RtsReads(c: Config, left: nat, probes: seq<Probe>): nat
  {
    LoopReads(c, c.checkBusyRts, true, c.nRetryRts > 0, left, probes)
  }

  /** The retry loop before a DATA packet without collision avoidance: carrier sense
      check_busy, only a DATA packet on air is busy, and the retries are limited. */
  function DataBusies(c: Config, left: nat, probes: seq<Probe>): nat
  {
    LoopBusies(c, c.checkBusy, false, true, left, probes)
  }

  function DataReads(c: Config, left: nat, probes: seq<Probe>): nat
  {
    LoopReads(c, c.checkBusy, false, true, left, probes)
  }

  /** The retry loop before the RTS (start_phase2_backoff): while retries are left
      (never decremented when n_retry_rts is not positive) and the channel is found
      busy, back off randint(Wbusy_min, 2^Wbusy_BE) DIFS and widen the window. With
      lead the busy results at the head of the probes, the loop backs off
      b = Busies(limited, left, lead) times and reads n = Iterations(..) probes:
      it waits the first b backoff draws, each in DIFS, the window is BEAfter(b), the
      retries left drop by b (when limited), and the CCA statistics count the n
      probes read. */
  method RtsRetries(c: Config, node: Node, probes: seq<Probe>) returns (backoffs: seq<int>)
    requires c.wbusyMin <= Pow2(node.wbusyBE) && node.nRetryRts >= 0
    requires c.nRetryRts <= 0 ==> node.nRetryRts != 0
    requires RtsReads(c, node.nRetryRts, probes) <= |probes|
    modifies node`nCca, node`nBusyRts, node`nBusyRtsP1, node`nBusyData, node`backoff, node`wbusyBE, node`nRetryRts
    ensures backoffs == Backoffs(c, old(node.wbusyBE), probes, RtsBusies(c, old(node.nRetryRts), probes))
    ensures node.wbusyBE == BEAfter(c, old(node.wbusyBE), RtsBusies(c, old(node.nRetryRts), probes))
    ensures node.nRetryRts == old(node.nRetryRts) - (if c.nRetryRts > 0 then RtsBusies(c, old(node.nRetryRts), probes) else 0)
    ensures node.backoff == (if backoffs == [] then old(node.backoff) else backoffs[|backoffs| - 1])
    ensures node.Stats() == CountCcas(old(node.Stats()), c.checkBusyRts, true, probes, RtsReads(c, old(node.nRetryRts), probes))
  {
    var retries, be, backoff, stats;
    backoffs, retries, be, backoff, stats :=
      RetryLoop(c, c.checkBusyRts, true, c.nRetryRts > 0, node.wbusyBE, node.nRetryRts, node.backoff, node.Stats(), probes);
    node.nRetryRts, node.wbusyBE, node.backoff := retries, be, backoff;
    node.nCca, node.nBusyRts, node.nBusyRtsP1, node.nBusyData := stats.cca, stats.busyRts, stats.busyRtsP1, stats.busyData;
  }

  /** The retry loop before a DATA packet without collision avoidance: while retries
      are left and the channel is found busy (a DATA packet on air, noticed by CCA),
      back off randint(Wbusy_min, 2^Wbusy_BE) DIFS, widen the window and use a retry.
      With b = DataBusies(..) and n = DataReads(..): the node waits the first b backoff
      draws, the window is BEAfter(b), the retries left drop by b, and the CCA
      statistics count the n probes read. */
  method DataRetries(c: Config, node: Node, probes: seq<Probe>) returns (backoffs: seq<int>)
    requires c.wbusyMin <= Pow2(node.wbusyBE) && node.nRetry >= 0
    requires DataReads(c, node.nRetry, probes) <= |probes|
    modifies node`nCca, node`nBusyRts, node`nBusyRtsP1, node`nBusyData, node`backoff, node`wbusyBE, node`nRetry
    ensures backoffs == Backoffs(c, old(node.wbusyBE), probes, DataBusies(c, old(node.nRetry), probes))
    ensures node.wbusyBE == BEAfter(c, old(node.wbusyBE), DataBusies(c, old(node.nRetry), probes))
    ensures node.nRetry == old(node.nRetry) - DataBusies(c, old(node.nRetry), probes)
    ensures node.backoff == (if backoffs == [] then old(node.backoff) else backoffs[|backoffs| - 1])
    ensures node.Stats() == CountCcas(old(node.Stats()), c.checkBusy, false, probes, DataReads(c, old(node.nRetry), probes))
  {
    var retries, be, backoff, stats;
    backoffs, retries, be, backoff, stats :=
      RetryLoop(c, c.checkBusy, false, true, node.wbusyBE, node.nRetry, node.backoff, node.Stats(), probes);
    node.nRetry, node.wbusyBE, node.backoff := retries, be, backoff;
    node.nCca, node.nBusyRts, node.nBusyRtsP1, node.nBusyData := stats.cca, stats.busyRts, stats.busyRtsP1, stats.busyData;
  }

  /** A retry loop on values: from window be0, left retries, last backoff backoff0
      and statistics stats0, with carrier sense check, rtsToo when an RTS on air
      counts as busy, and limited when the retries are decremented (an unlimited loop
      is entered with a retry that is never used). */
  method RetryLoop(c: Config, check: bool, rtsToo: bool, limited: bool, be0: nat, left: int, backoff0: int,
                   stats0: CcaStats, probes: seq<Probe>)
    returns (backoffs: seq<int>, retries: int, be: nat, backoff: int, stats: CcaStats)
    requires c.wbusyMin <= Pow2(be0) && left >= 0
    requires !limited ==> left != 0
    requires LoopReads(c, check, rtsToo, limited, left, probes) <= |probes|
    ensures var b := LoopBusies(c, check, rtsToo, limited, left, probes);
            && backoffs == Backoffs(c, be0, probes, b)
            && be == BEAfter(c, be0, b)
            && retries == left - (if limited then b else 0)
    ensures backoff == (if backoffs == [] then backoff0 else backoffs[|backoffs| - 1])
    ensures stats == CountCcas(stats0, check, rtsToo, probes, LoopReads(c, check, rtsToo, limited, left, probes))
  {
    ghost var lead := LeadingBusy(c, check, rtsToo, probes);
    retries, be, backoff, stats := left, be0, backoff0, stats0;
    backoffs := [];
    var findBusy := true;
    var k := 0;
    ghost var n := 0;
    while retries != 0 && findBusy
      invariant 0 <= k <= lead && (limited ==> k <= left)
      invariant !findBusy ==> k == lead && k < |probes| && (limited ==> k < left)
      invariant retries == left - (if limited then k else 0)
      invariant backoffs == Backoffs(c, be0, probes, k)
      invariant be == BEAfter(c, be0, k) && c.wbusyMin <= Pow2(be)
      invariant backoff == (if backoffs == [] then backoff0 else backoffs[|backoffs| - 1])
      invariant n == k + (if findBusy then 0 else 1) && n <= |probes|
      invariant stats == CountCcas(stats0, check, rtsToo, probes, n)
      decreases |probes| - k, if findBusy then 1 else 0
    {
      var pr := probes[k];
      LeadingBusyAt(c, check, rtsToo, probes, k);
      stats := CountCca(stats, check, rtsToo, pr, false);
      findBusy := ProbeBusy(c, check, rtsToo, pr);
      n := n + 1;
      if findBusy {
        BusyStep(c, be0, probes, k);
        backoff := BusyBackoff(c, be, pr.backoff);
        be := NextBE(c, be);
        if limited {
          retries := retries - 1;
        }
        backoffs := backoffs + [backoff];
        k := k + 1;
      }
    }
    assert k == LoopBusies(c, check, rtsToo, limited, left, probes);
    assert n == LoopReads(c, check, rtsToo, limited, left, probes);
  }

  /** One more busy result of a retry loop appends a draw from the current window and
      widens the window, which stays at least Wbusy_min wide. */
  lemma BusyStep(c: Config, be0: nat, probes: seq<Probe>, k: nat)
    requires k < |probes| && c.wbusyMin <= Pow2(be0)
    ensures c.wbusyMin <= Pow2(BEAfter(c, be0, k)) && c.wbusyMin <= Pow2(BEAfter(c, be0, k + 1))
    ensures Backoffs(c, be0, probes, k + 1)
              == Backoffs(c, be0, probes, k) + [BusyBackoff(c, BEAfter(c, be0, k), probes[k].backoff)]
    ensures BEAfter(c, be0, k + 1) == NextBE(c, BEAfter(c, be0, k))
  {
    BackoffsSnoc(c, be0, probes, k);
    BEAfterSnoc(c, be0, k);
    BEAfterBounds(c, be0, k + 1);
    Pow2Monotone(be0, BEAfter(c, be0, k + 1));
  }
}
