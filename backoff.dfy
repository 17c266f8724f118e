/** The busy-channel procedure shared by every carrier-sense point of the MAC: CCA
    reliability, the backoff window [Wbusy_min, 2^Wbusy_BE] and its exponential growth,
    and, on values, what a retry loop does with a run of CCA probes. */
module Backoff {
  import opened Params
  import opened Rand

  /** What a node meets at one CCA of a retry loop: the two global channel flags at that
      instant (channel_busy_rts, channel_busy_data), and the seeds of its CCA reliability
      draw and of its backoff draw. */
  datatype Probe = Probe(busyRts: bool, busyData: bool, cca: nat, backoff: nat)

  /** With the channel busy, CCA notices it when randint(1, 100) <= CCA_prob, CCA_prob != 0. */
  predicate CcaDetects(c: Config, seed: nat)
  {
    RandInt(1, 100, seed) <= c.ccaProb && c.ccaProb != 0
  }

  /** CCA_prob = 100 is a fully reliable CCA; CCA_prob = 0 never detects activity. */
  lemma CcaReliabilityExtremes(c: Config, seed: nat)
    ensures c.ccaProb >= 100 ==> CcaDetects(c, seed)
    ensures c.ccaProb <= 0 ==> !CcaDetects(c, seed)
  {
  }

  /** channel_find_busy after one CCA: carrier sense on, the channel busy, and detected.
      A free channel is never reported busy. */
  predicate FindsBusy(c: Config, check: bool, busy: bool, seed: nat)
  {
    check && busy && CcaDetects(c, seed)
  }

  /** The CCA outcome of a probe; rtsToo when the CA mechanism also counts an RTS on
      the air as a busy channel. */
  predicate ProbeBusy(c: Config, check: bool, rtsToo: bool, pr: Probe)
  {
    FindsBusy(c, check, (rtsToo && pr.busyRts) || pr.busyData, pr.cca)
  }

  /** A CCA reports a busy channel only with carrier sense on, a channel flag up and
      CCA_prob > 0; with CCA_prob = 100 it reports exactly that. */
  lemma CcaOutcome(c: Config, check: bool, rtsToo: bool, pr: Probe)
    ensures ProbeBusy(c, check, rtsToo, pr) ==>
              check && ((rtsToo && pr.busyRts) || pr.busyData) && c.ccaProb > 0
    ensures c.ccaProb >= 100 ==>
              (ProbeBusy(c, check, rtsToo, pr) <==> check && ((rtsToo && pr.busyRts) || pr.busyData))
  {

  }

  /** Wbusy_BE after one busy result: +1 with exponential backoff, up to Wbusy_maxBE. */
  function NextBE(c: Config, be: nat): (r: nat)
    ensures be <= r <= be + 1
    ensures r <= Max(be, c.wbusyMaxBE)
  {
    if c.wbusyExpBackoff && be < c.wbusyMaxBE then be + 1 else be
  }

  /** Wbusy_BE after k busy results in a row. */
  function BEAfter(c: Config, be: nat, k: nat): nat
    decreases k
  {
    if k == 0 then be else BEAfter(c, NextBE(c, be), k - 1)
  }

  /** Each busy result raises Wbusy_BE by one until it reaches Wbusy_maxBE; a window that
      starts at or above the cap, or fixed backoff, never moves. */
  lemma {:induction false} BEAfterClosedForm(c: Config, be: nat, k: nat)
    ensures BEAfter(c, be, k) ==
              if c.wbusyExpBackoff && be < c.wbusyMaxBE then Min(be + k, c.wbusyMaxBE) else be
    decreases k
  {
    if k > 0 {
      BEAfterClosedForm(c, NextBE(c, be), k - 1);
    }
  }

  /** Wbusy_BE never falls and never passes the larger of its start and Wbusy_maxBE. */
  lemma BEAfterBounds(c: Config, be: nat, k: nat)
    ensures be <= BEAfter(c, be, k) <= Max(be, c.wbusyMaxBE)
  {
    BEAfterClosedForm(c, be, k);
  }

  lemma {:induction false} Pow2Monotone(a: nat, b: nat)
    requires a <= b
    ensures Pow2(a) <= Pow2(b)
  {
    if a < b {
      Pow2Monotone(a, b - 1);
    }
  }

  /** randint(Wbusy_min, 2**Wbusy_BE). */
  function BusyBackoff(c: Config, be: nat, seed: nat): (b: int)
    requires c.wbusyMin <= Pow2(be)
    ensures c.wbusyMin <= b <= Pow2(be)
  {
    RandInt(c.wbusyMin, Pow2(be), seed)
  }

  /** Number of busy CCA results at the head of a run of probes. */
  function LeadingBusy(c: Config, check: bool, rtsToo: bool, probes: seq<Probe>): (k: nat)
    ensures k <= |probes|
    ensures forall j :: 0 <= j < k ==> ProbeBusy(c, check, rtsToo, probes[j])
    ensures k < |probes| ==> !ProbeBusy(c, check, rtsToo, probes[k])
  {
    if |probes| == 0 || !ProbeBusy(c, check, rtsToo, probes[0]) then 0
    else 1 + LeadingBusy(c, check, rtsToo, probes[1..])
  }

  /** A channel found free at every CCA never causes a backoff. */
  lemma AlwaysFreeNeverBacksOff(c: Config, check: bool, rtsToo: bool, probes: seq<Probe>)
    requires forall j :: 0 <= j < |probes| ==> !ProbeBusy(c, check, rtsToo, probes[j])
    ensures LeadingBusy(c, check, rtsToo, probes) == 0
  {
  }

  /** The backoff counts drawn for the first k busy results, starting from window be;
      the j-th is drawn in [Wbusy_min, 2^BE] with BE the window after j busy results. */
  function Backoffs(c: Config, be: nat, probes: seq<Probe>, k: nat): (r: seq<int>)
    requires k <= |probes| && c.wbusyMin <= Pow2(be)
    ensures |r| == k
    decreases k
  {
    if k == 0 then []
    else
      Pow2Monotone(be, NextBE(c, be));
      [BusyBackoff(c, be, probes[0].backoff)] + Backoffs(c, NextBE(c, be), probes[1..], k - 1)
  }

  /** The j-th backoff of a run lies in the window [Wbusy_min, 2^BE] of the exponent BE
      reached after j busy results. */
  lemma {:induction false} BackoffsInWindow(c: Config, be: nat, probes: seq<Probe>, k: nat)
    requires k <= |probes| && c.wbusyMin <= Pow2(be)
    ensures forall j :: 0 <= j < k ==> c.wbusyMin <= Backoffs(c, be, probes, k)[j] <= Pow2(BEAfter(c, be, j))
    decreases k
  {
    if k > 0 {
      Pow2Monotone(be, NextBE(c, be));
      BackoffsInWindow(c, NextBE(c, be), probes[1..], k - 1);
      var r := Backoffs(c, be, probes, k);
      forall j | 0 <= j < k
        ensures c.wbusyMin <= r[j] <= Pow2(BEAfter(c, be, j))
      {
        if j > 0 {
          assert r[j] == Backoffs(c, NextBE(c, be), probes[1..], k - 1)[j - 1];
        }
      }
    }
  }

  /** Extending a run by one busy result appends one draw from the current window. */
  lemma {:induction false} BackoffsSnoc(c: Config, be: nat, probes: seq<Probe>, k: nat)
    requires k < |probes| && c.wbusyMin <= Pow2(be)
    ensures c.wbusyMin <= Pow2(BEAfter(c, be, k))
    ensures Backoffs(c, be, probes, k + 1)
              == Backoffs(c, be, probes, k) + [BusyBackoff(c, BEAfter(c, be, k), probes[k].backoff)]
    decreases k
  {
    BEAfterBounds(c, be, k);
    Pow2Monotone(be, BEAfter(c, be, k));
    if k > 0 {
      Pow2Monotone(be, NextBE(c, be));
      BackoffsSnoc(c, NextBE(c, be), probes[1..], k - 1);
    }
  }

  /** BEAfter unrolled at the end. */
  lemma {:induction false} BEAfterSnoc(c: Config, be: nat, k: nat)
    ensures BEAfter(c, be, k + 1) == NextBE(c, BEAfter(c, be, k))
    decreases k
  {
    if k > 0 {
      BEAfterSnoc(c, NextBE(c, be), k - 1);
    }
  }

  /** A node's carrier-sense statistics: n_cca, n_busy_rts, n_busy_rts_p1, n_busy_data. */
  datatype CcaStats = CcaStats(cca: nat, busyRts: nat, busyRtsP1: nat, busyData: nat)

  /** The statistics after one CCA with carrier sense `check`: the CCA is counted; when
      the channel is busy, the kind on air is counted: with rtsToo an RTS first (and
      in n_busy_rts_p1 when phase1), else a DATA packet; without rtsToo only a DATA
      packet on air counts as busy. */
  function CountCca(s: CcaStats, check: bool, rtsToo: bool, pr: Probe, phase1: bool): CcaStats
  {
    if !check then s
    else if rtsToo && pr.busyRts then
      s.(cca := s.cca + 1, busyRts := s.busyRts + 1, busyRtsP1 := s.busyRtsP1 + (if phase1 then 1 else 0))
    else if pr.busyData then s.(cca := s.cca + 1, busyData := s.busyData + 1)
    else s.(cca := s.cca + 1)
  }

  /** The statistics after the first n CCAs of a retry loop. */
  function CountCcas(s: CcaStats, check: bool, rtsToo: bool, probes: seq<Probe>, n: nat): CcaStats
    requires n <= |probes|
  {
    if n == 0 then s else CountCca(CountCcas(s, check, rtsToo, probes, n - 1), check, rtsToo, probes[n - 1], false)
  }

  /** Among the first n probes, those on which a DATA packet was on air, those on which
      an RTS was, and those on which only a DATA packet was. */
  function BusyDataAmong(probes: seq<Probe>, n: nat): nat
    requires n <= |probes|
  {
    if n == 0 then 0 else BusyDataAmong(probes, n - 1) + (if probes[n - 1].busyData then 1 else 0)
  }

  function BusyRtsAmong(probes: seq<Probe>, n: nat): nat
    requires n <= |probes|
  {
    if n == 0 then 0 else BusyRtsAmong(probes, n - 1) + (if probes[n - 1].busyRts then 1 else 0)
  }

  function BusyDataOnlyAmong(probes: seq<Probe>, n: nat): nat
    requires n <= |probes|
  {
    if n == 0 then 0
    else BusyDataOnlyAmong(probes, n - 1) + (if !probes[n - 1].busyRts && probes[n - 1].busyData then 1 else 0)
  }

  /** What n CCAs of a retry loop add to the statistics: with carrier sense on, one CCA
      each; before an RTS, each probe with an RTS on air to n_busy_rts and each with
      only a DATA packet to n_busy_data; before a DATA packet without collision
      avoidance, each probe with a DATA packet on air to n_busy_data. n_busy_rts_p1 is
      never touched by a loop, and without carrier sense nothing is counted. */
  lemma {:induction false} CountCcasCounts(s: CcaStats, check: bool, rtsToo: bool, probes: seq<Probe>, n: nat)
    requires n <= |probes|
    ensures var t := CountCcas(s, check, rtsToo, probes, n);
            && t.cca == s.cca + (if check then n else 0)
            && t.busyRtsP1 == s.busyRtsP1
            && (rtsToo ==> t.busyRts == s.busyRts + (if check then BusyRtsAmong(probes, n) else 0))
            && (rtsToo ==> t.busyData == s.busyData + (if check then BusyDataOnlyAmong(probes, n) else 0))
            && (!rtsToo ==> t.busyRts == s.busyRts)
            && (!rtsToo ==> t.busyData == s.busyData + (if check then BusyDataAmong(probes, n) else 0))
  {
    if n > 0 {
      CountCcasCounts(s, check, rtsToo, probes, n - 1);
    }
  }

  /** The busy results a retry loop goes through: it stops at the first free result,
      or, when its retries are limited, once `left` of them are used up. lead is the
      number of busy results at the head of the run (LeadingBusy). */
  function Busies(limited: bool, left: nat, lead: nat): nat
  {
    if limited && left <= lead then left else lead
  }

  /** The iterations of a retry loop: one per busy result, and one more for the free
      result that ends it, unless its retries ran out first. */
  function Iterations(limited: bool, left: nat, lead: nat): nat
  {
    if limited && left <= lead then left else lead + 1
  }

  /** A retry loop never backs off more often than it has retries, reads one probe per
      iteration, and ends on a free result exactly when it does not run out. */
  lemma RetryLoopShape(limited: bool, left: nat, lead: nat)
    ensures Busies(limited, left, lead) <= lead
    ensures limited ==> Busies(limited, left, lead) <= left && Iterations(limited, left, lead) <= left
    ensures Iterations(limited, left, lead) == Busies(limited, left, lead) + 1 <==> !(limited && left <= lead)
    ensures !limited ==> Busies(limited, left, lead) == lead
  {
  }

  /** Retries left after a loop limited by `left`: none exactly when the first `left`
      results were all busy, that is, when the packet is to be aborted. */
  lemma RetriesExhaustedIffAllBusy(left: nat, lead: nat)
    ensures left - Busies(true, left, lead) == 0 <==> left <= lead
    ensures left - Busies(true, left, lead) >= 0
  {
  }

  /** The timeouts a retry loop yields: each backoff count times the DIFS (the preamble
      time), plus a fixed extra time. */
  function Scaled(bs: seq<int>, unit: real, extra: real): seq<real>
  {
    seq(|bs|, j requires 0 <= j < |bs| => extra + bs[j] as real * unit)
  }
}
