/** Simulation parameters of the LoRa MAC simulator: the module-level settings and
    the command-line options, as the values in effect once the run has started. */
module Params {

  /** Packet-interval distribution of a node (expoDistribType / uniformDistribType). */
  datatype Distrib = Expo | Uniform

  /** The tunables the MAC core reads. Field names follow the simulator's globals:
      ca (CA), ca1/ca2 (CA1/CA2 variants), fullCollision (full_collision),
      checkBusy/checkBusyRts (carrier sense before DATA / before RTS), ccaProb (CCA_prob,
      in percent), nRetry/nRetryRts (n_retry/n_retry_rts), the busy-channel backoff
      window [wbusyMin, 2^wbusyBE] with its exponential growth up to wbusyMaxBE,
      the collision-avoidance windows wl, w2, w3, wnav, w2AfterNav and p, and the
      gateway capacity maxBSReceives, the payload size maxPayloadSize that sets a NAV
      after a DATA header, and the packet count targetSentPacket that ends the run. */
  datatype Config = Config(
    ca: bool,
    ca1: bool,
    ca2: bool,
    fullCollision: bool,
    checkBusy: bool,
    checkBusyRts: bool,
    ccaProb: int,
    nRetry: int,
    nRetryRts: int,
    wbusyMin: int,
    wbusyBE: nat,
    wbusyMaxBE: nat,
    wbusyExpBackoff: bool,
    wbusyAddMaxToa: bool,
    wl: int,
    w2: int,
    w3: int,
    wnav: int,
    w2AfterNav: int,
    p: int,
    experiment: int,
    maxBSReceives: int,
    maxPayloadSize: int,
    targetSentPacket: int)

  function Max(a: int, b: int): int
  {
    if a >= b then a else b
  }

  function Min(a: int, b: int): int
  {
    if a <= b then a else b
  }

  function Pow2(n: nat): (r: nat)
    ensures r >= 1
  {
    if n == 0 then 1 else 2 * Pow2(n - 1)
  }

  /** What the simulator needs of its settings for every random draw to be
      well defined: randint(lo, hi) fails when lo > hi. */
  predicate ValidConfig(c: Config)
  {
    && c.nRetry >= 0
    && c.wbusyMin <= Pow2(c.wbusyBE)
    && c.w2 >= 0
    && c.w3 >= 0
    && c.wnav >= 0
  }

  /** The settings of the simulator as distributed, with the command line of its basic
      usage example (collision avoidance on, full collision check, WL=7, W2=10,
      W3=7, Wnav=0, W2afterNAV=7, P=0, experiment 4, 20 nodes: the run stops
      after 2000 packets per node). */
  const Default: Config := Config(
    ca := true,
    ca1 := false,
    ca2 := false,
    fullCollision := true,
    checkBusy := true,
    checkBusyRts := true,
    ccaProb := 50,
    nRetry := 40,
    nRetryRts := 20,
    wbusyMin := 1,
    wbusyBE := 3,
    wbusyMaxBE := 6,
    wbusyExpBackoff := true,
    wbusyAddMaxToa := false,
    wl := 7,
    w2 := 10,
    w3 := 7,
    wnav := 0,
    w2AfterNav := 7,
    p := 0,
    experiment := 4,
    maxBSReceives := 8,
    maxPayloadSize := 120,
    targetSentPacket := 2000 * 20)

  lemma DefaultIsValid()
    ensures ValidConfig(Default)
  {
    assert Pow2(3) == 8;
  }
}

/** The simulator's calls to random.randint, as nondeterministic inputs: the seed is
    arbitrary, and every seed picks one value of the closed range [lo, hi]. */
module Rand {

  function RandInt(lo: int, hi: int, seed: nat): (r: int)
    requires lo <= hi
    ensures lo <= r <= hi
  {
    lo + seed % (hi - lo + 1)
  }

  /** No value of the range is out of reach: the inputs model every possible draw. */
  lemma RandIntReachesAll(lo: int, hi: int, v: int)
    requires lo <= v <= hi
    ensures RandInt(lo, hi, v - lo) == v
  {
  }
}
