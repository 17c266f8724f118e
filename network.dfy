/** The simulator's mutable world: the nodes (myNode) with their MAC counters and
    flags, and the state the simulator keeps in module-level globals (the packets currently
    at the gateway, the two channel-busy flags, the run counters), together with the
    gateway's collision check (checkcollision). */
module Sim {
  import opened Params
  import opened Phy
  import opened Capture
  import opened Packets
  import opened Backoff

  /** The node states of the collision-avoidance mechanism (schedule_tx .. start_nav). */
  datatype CaState =
    | ScheduleTx
    | WantTransmit
    | StartCA
    | Phase1Listen
    | Phase2Backoff
    | Phase2Rts
    | Phase2Listen
    | Phase3Backoff
    | Phase3Transmit
    | StartNav

  /** Where the node's transmit process resumes after it last yielded.
      Block(k): with collision avoidance, the k-th state test of the loop body (1 is
      schedule_tx, 12 is start_nav); RtsRetryDone: the backoffs before the RTS are over
      and the RTS goes out; RtsOnAir / DataOnAir: the RTS / DATA has been on air for
      its time on air. Without collision avoidance: AlohaTop (the loop body starts),
      AlohaReady (the inter-packet wait is over), AlohaRetryDone (the busy-channel
      backoffs are over), AlohaOnAir (the DATA has been on air). */
  datatype Resume =
    | Block(k: nat)
    | RtsRetryDone
    | RtsOnAir
    | DataOnAir
    | AlohaTop
    | AlohaReady
    | AlohaRetryDone
    | AlohaOnAir

  predicate IsCaResume(r: Resume)
  {
    (r.Block? && 1 <= r.k <= 12) || r == RtsRetryDone || r == RtsOnAir || r == DataOnAir
  }

  /** The state test of the transmit loop body that handles a state (1 for
      schedule_tx .. 12 for start_nav; both listening states have two tests, whether
      an RTS was heard or not, and this is the first). */
  function StateBlock(s: CaState): (k: nat)
    ensures 1 <= k <= 12
  {
    match s
    case ScheduleTx => 1
    case WantTransmit => 2
    case StartCA => 3
    case Phase1Listen => 4
    case Phase2Backoff => 6
    case Phase2Rts => 7
    case Phase2Listen => 8
    case Phase3Backoff => 10
    case Phase3Transmit => 11
    case StartNav => 12
  }

  /** What a node holds of the receptions it overheard while listening. */
  datatype Reception = Reception(state: CaState, rts: bool, rtsFrom: int, rtsTime: real,
                                 data: bool, dataFrom: int, dataTime: real, nav: int)

  function Zeros(n: nat): (s: seq<int>)
    ensures |s| == n && forall i :: 0 <= i < n ==> s[i] == 0
  {
    seq(n, _ => 0)
  }

  /** n_retry_rts as a node holds it: the configured bound, or 1 when the bound is
      not positive (the node then never decrements it: retries are unlimited). */
  function InitialRtsRetries(c: Config): (r: int)
    ensures r >= 1
    ensures c.nRetryRts > 0 ==> r == c.nRetryRts
  {
    if c.nRetryRts > 0 then c.nRetryRts else 1
  }

  /** The part of a node that the want_transmit step of the CA procedure reads and
      writes, as a value. */
  datatype View = View(caState: CaState, ptype: PacketType, nRetry: int, be: nat, cca: bool, nav: int, w2: int,
                       wantTransmitTime: real, stats: CcaStats, backoff: int, myP: int, nAborted: nat)

  class Node {
    const nodeid: int
    const packet: Packet
    /** Mean inter-packet time (period) and its distribution (distrib). */
    const period: real
    const distrib: Distrib
    const dataLen: int
    const dataRectime: real
    const rtsRectime: real
    /** Probability, in percent, of starting in phase 2 (node.P). */
    const P: int

    var resume: Resume
    var caState: CaState
    var cycle: nat
    var nDataSent: nat
    var nRtsSent: nat
    var wantTransmitTime: real
    var caListenStartTime: real
    var caListenEndTime: real
    var totalListenTime: real
    var myP: int
    var backoff: int
    var receiveRts: bool
    var receiveRtsTime: real
    var receiveRtsFrom: int
    var nReceiveNavRtsP1: nat
    var nReceiveNavRtsP2: nat
    var receiveData: bool
    var receiveDataTime: real
    var receiveDataFrom: int
    var nReceiveNavDataP1: nat
    var nReceiveNavDataP2: nat
    /** Payload length whose time on air sets the NAV period. */
    var nav: int
    /** The last CCA found the channel busy. */
    var cca: bool
    var nCca: nat
    var nBusyRts: nat
    var nBusyRtsP1: nat
    var nBusyData: nat
    /** Retries left for the DATA packet, its total and its histogram. */
    var nRetry: int
    var totalRetry: int
    var retryBin: seq<int>
    /** Retries left for the RTS, its total and its histogram. */
    var nRetryRts: int
    var totalRetryRts: int
    var retryRtsBin: seq<int>
    var nAborted: nat
    var w2: int
    var latency: real
    /** Exponent of the busy-channel backoff window [Wbusy_min, 2^wbusyBE]. */
    var wbusyBE: nat

    /** What the node's counters keep whatever the MAC does: the packet is
        consistent, the retries left lie between 0 and their bound, both histograms
        have their configured length and the backoff exponent stays between its
        initial value and Wbusy_maxBE (or its initial value, if larger). */
    ghost predicate Inv(c: Config)
      reads this`nRetry, this`retryBin, this`retryRtsBin, this`wbusyBE, this`nRetryRts
      reads packet`ptype, packet`pl, packet`rectime
    {
      && packet.Valid()
      && packet.nodeid == nodeid
      && packet.dataLen == dataLen
      && 0 <= nRetry <= c.nRetry
      && |retryBin| == c.nRetry
      && |retryRtsBin| == Max(c.nRetryRts + 1, 0)
      && c.wbusyBE <= wbusyBE <= Max(c.wbusyBE, c.wbusyMaxBE)
      && c.wbusyMin <= Pow2(wbusyBE)
      && (if c.nRetryRts > 0 then 0 <= nRetryRts <= c.nRetryRts else nRetryRts == 1)
    }

    /** Inv holds on as long as none of the fields it reads changes. */
    twostate lemma InvKept(c: Config)
      requires old(Inv(c))
      requires unchanged(this`nRetry, this`retryBin, this`retryRtsBin, this`wbusyBE, this`nRetryRts)
      requires unchanged(packet`ptype, packet`pl, packet`rectime)
      ensures Inv(c)
    {
    }

    /** How the state of the collision-avoidance procedure and the packet fit
        together: a node past want_transmit still has a retry left; the packet is an
        RTS from start_CA to start_phase3_backoff and a DATA packet when the node
        schedules, wants to transmit or transmits it. */
    ghost predicate CaShape()
      reads this`caState, this`nRetry, packet`ptype
    {
      && (caState == ScheduleTx || caState == WantTransmit || caState == Phase3Transmit ==> packet.ptype == Data)
      && (caState in {StartCA, Phase1Listen, Phase2Backoff, Phase2Rts, Phase2Listen, Phase3Backoff} ==>
            packet.ptype == Rts)
      && (caState !in {ScheduleTx, WantTransmit} ==> nRetry >= 1)
    }

    /** Whether a node with collision avoidance can be suspended at r: inside the RTS
        retry loop or with its RTS on air it is in start_phase2_rts, with its DATA
        packet on air in start_phase3_transmit; resumed at the k-th state test, its
        state is one that test or a later one handles, or one that only the next
        sweep of the loop body handles (schedule_tx, want_transmit), and it resumes at
        the first test only in one of these two. */
    ghost predicate Suspended(r: Resume)
      reads this`caState
    {
      && IsCaResume(r)
      && (r == RtsRetryDone || r == RtsOnAir ==> caState == Phase2Rts)
      && (r == DataOnAir ==> caState == Phase3Transmit)
      && (r.Block? ==> caState == ScheduleTx || caState == WantTransmit || 1 < r.k <= StateBlock(caState))
    }

    ghost predicate CaConsistent()
      reads this`resume, this`caState, this`nRetry, packet`ptype
    {
      CaShape() && Suspended(resume)
    }

    /** Without collision avoidance the node never leaves schedule_tx; its retries and
        backoff exponent are back at their initial values whenever a packet starts. */
    ghost predicate AlohaConsistent(c: Config)
      reads this`resume, this`caState, this`nRetry, this`wbusyBE
    {
      && resume in {AlohaTop, AlohaReady, AlohaRetryDone, AlohaOnAir}
      && caState == ScheduleTx
      && (resume == AlohaTop || resume == AlohaReady ==> nRetry == c.nRetry && wbusyBE == c.wbusyBE)
    }

    function Rx(): (r: Reception)
      reads this
      ensures r.state == caState && r.rts == receiveRts && r.rtsFrom == receiveRtsFrom && r.rtsTime == receiveRtsTime
      ensures r.data == receiveData && r.dataFrom == receiveDataFrom && r.dataTime == receiveDataTime && r.nav == nav
    {
      Reception(caState, receiveRts, receiveRtsFrom, receiveRtsTime, receiveData, receiveDataFrom, receiveDataTime, nav)
    }

    function ToView(): View
      reads this, packet`ptype
    {
      View(caState, packet.ptype, nRetry, wbusyBE, cca, nav, w2, wantTransmitTime, Stats(), backoff, myP, nAborted)
    }

    /** The node's carrier-sense statistics. */
    function Stats(): (s: CcaStats)
      reads this`nCca, this`nBusyRts, this`nBusyRtsP1, this`nBusyData
    {
      CcaStats(nCca, nBusyRts, nBusyRtsP1, nBusyData)
    }

    ghost predicate Ready(c: Config)
      reads this`nRetry, this`retryBin, this`retryRtsBin, this`wbusyBE, this`nRetryRts
      reads this`resume, this`caState, packet`ptype, packet`pl, packet`rectime
    {
      Inv(c) && (if c.ca then CaConsistent() else AlohaConsistent(c))
    }

    /** myNode.__init__: the node's packet is created as a DATA packet of packetlen
        bytes; counters start at zero, the retry budgets at their configured bounds,
        the reception flags cleared, in state schedule_tx. */
    constructor (c: Config, nodeid: int, period: real, distrib: Distrib, packetlen: int,
                 sf: nat, bw: int, cr: int, freq: int, rssi: real)
      requires ValidConfig(c) && ValidRadio(sf, bw, cr)
      ensures Ready(c) && fresh(packet)
      ensures this.nodeid == nodeid && this.period == period && this.distrib == distrib
      ensures packet.sf == sf && packet.bw == bw && packet.cr == cr && packet.freq == freq
      ensures packet.rssi == rssi && packet.ptype == Data && packet.pl == packetlen
      ensures !packet.collided && !packet.processed && !packet.lost
      ensures dataLen == packetlen && P == c.p
      ensures dataRectime == Airtime(sf, cr, packetlen, bw) && rtsRectime == Airtime(sf, cr, RtsLength, bw)
      ensures resume == (if c.ca then Block(1) else AlohaTop) && caState == ScheduleTx
      ensures cycle == 0 && nDataSent == 0 && nRtsSent == 0 && nAborted == 0
      ensures !receiveRts && receiveRtsFrom == -1 && !receiveData && receiveDataFrom == -1
      ensures nav == 0 && !cca && backoff == 0 && myP == 0
      ensures nCca == 0 && nBusyRts == 0 && nBusyRtsP1 == 0 && nBusyData == 0
      ensures nRetry == c.nRetry && totalRetry == 0 && retryBin == Zeros(c.nRetry)
      ensures nRetryRts == InitialRtsRetries(c) && totalRetryRts == 0
      ensures retryRtsBin == Zeros(Max(c.nRetryRts + 1, 0))
      ensures w2 == c.w2 && latency == 0.0 && wbusyBE == c.wbusyBE
    {
      this.nodeid := nodeid;
      this.period := period;
      this.distrib := distrib;
      packet := new Packet(nodeid, sf, bw, cr, freq, rssi, packetlen);
      dataLen := packetlen;
      dataRectime := Airtime(sf, cr, packetlen, bw);
      rtsRectime := Airtime(sf, cr, RtsLength, bw);
      P := c.p;
      resume := if c.ca then Block(1) else AlohaTop;
      caState := ScheduleTx;
      cycle := 0;
      nDataSent := 0;
      nRtsSent := 0;
      wantTransmitTime := 0.0;
      caListenStartTime := 0.0;
      caListenEndTime := 0.0;
      totalListenTime := 0.0;
      myP := 0;
      backoff := 0;
      receiveRts := false;
      receiveRtsTime := 0.0;
      receiveRtsFrom := -1;
      nReceiveNavRtsP1 := 0;
      nReceiveNavRtsP2 := 0;
      receiveData := false;
      receiveDataTime := 0.0;
      receiveDataFrom := -1;
      nReceiveNavDataP1 := 0;
      nReceiveNavDataP2 := 0;
      nav := 0;
      cca := false;
      nCca := 0;
      nBusyRts := 0;
      nBusyRtsP1 := 0;
      nBusyData := 0;
      nRetry := c.nRetry;
      totalRetry := 0;
      retryBin := Zeros(c.nRetry);
      nRetryRts := InitialRtsRetries(c);
      totalRetryRts := 0;
      retryRtsBin := Zeros(Max(c.nRetryRts + 1, 0));
      nAborted := 0;
      w2 := c.w2;
      latency := 0.0;
      wbusyBE := c.wbusyBE;
    }
  }

  /** What the gateway reads of a packet that is on air. */
  function SignalOf(p: Packet): (s: Signal)
    reads p`addTime, p`rectime
    ensures s.nodeid == p.nodeid && s.sf == p.sf && s.bw == p.bw && s.freq == p.freq
    ensures s.rssi == p.rssi && s.addTime == p.addTime && s.rectime == p.rectime
  {
    Signal(p.nodeid, p.sf, p.bw, p.freq, p.rssi, p.addTime, p.rectime)
  }

  ghost function PacketsOf(ns: seq<Node>): set<Packet>
  {
    set n | n in ns :: n.packet
  }

  /** The signals of the packets of a list of nodes, in list order. */
  ghost function SignalsOf(ns: seq<Node>): (r: seq<Signal>)
    reads (set n | n in ns :: n.packet)`addTime, (set n | n in ns :: n.packet)`rectime
    ensures |r| == |ns|
    ensures forall i :: 0 <= i < |ns| ==> r[i] == SignalOf(ns[i].packet)
  {
    if ns == [] then []
    else SignalsOf(ns[..|ns| - 1]) + [SignalOf(ns[|ns| - 1].packet)]
  }

  /** Number of entries of a list of nodes whose packet the gateway is processing. */
  ghost function CountProcessed(ns: seq<Node>): (k: nat)
    reads (set n | n in ns :: n.packet)`processed
    ensures k <= |ns|
  {
    if ns == [] then 0
    else CountProcessed(ns[..|ns| - 1]) + (if ns[|ns| - 1].packet.processed then 1 else 0)
  }

  /** Some entry among the first k of a list of nodes is from node id and its packet
      is collided. */
  ghost predicate CollidedFrom(ns: seq<Node>, id: int, k: nat)
    requires k <= |ns|
    reads (set n | n in ns :: n.packet)`collided
  {
    k > 0 && (CollidedFrom(ns, id, k - 1) || (ns[k - 1].nodeid == id && ns[k - 1].packet.collided))
  }

  /** The marks the gateway leaves on the packets of ns when the signal s arrives:
      each is collided exactly when it was (before) or its comparison with s
      (Capture.Compare, against its signal in signals) loses it. */
  ghost predicate MarkedBy(ns: seq<Node>, full: bool, now: real, s: Signal, before: seq<bool>, signals: seq<Signal>)
    requires s.bw != 0
    reads (set n | n in ns :: n.packet)`collided
  {
    && |before| == |ns| == |signals|
    && forall i {:trigger Compare(full, now, s, signals[i])} :: 0 <= i < |ns| ==> ns[i].packet.collided == (before[i] || Compare(full, now, s, signals[i]).otherLost)
  }

  /** The reception state of each node of a list, in list order. */
  function RxsOf(ns: seq<Node>): (r: seq<Reception>)
    reads set n | n in ns
    ensures |r| == |ns|
    ensures forall j {:trigger r[j]} :: 0 <= j < |ns| ==> r[j] == ns[j].Rx()
  {
    seq(|ns|, j requires 0 <= j < |ns| reads if 0 <= j < |ns| then {ns[j]} else {} => ns[j].Rx())
  }

  /** The gateway's counters of one packet kind, updated when a packet leaves the air. */
  datatype Tally = Tally(lost: nat, collisions: nat, received: nat, processed: nat)
  {
    /** A packet that was lost, collided and/or processed has left the air: it is
        counted as received when it was neither lost nor collided. */
    function Count(wasLost: bool, wasCollided: bool, wasProcessed: bool): Tally
    {
      Tally(lost + (if wasLost then 1 else 0),
            collisions + (if wasCollided then 1 else 0),
            received + (if !wasCollided && !wasLost then 1 else 0),
            processed + (if wasProcessed then 1 else 0))
    }
  }

  /** The part of the gateway's state that checkcollision reads (Network.Snapshot). */
  datatype Before = Before(collided: bool, flags: seq<bool>, processing: nat, signals: seq<Signal>, arrival: Signal)

  class Network {
    const cfg: Config
    const nodes: seq<Node>
    /** The nodes whose packet is on air at the gateway (packetsAtBS). */
    var packetsAtBS: seq<Node>
    /** An RTS / a DATA packet is on air (channel_busy_rts, channel_busy_data). */
    var channelBusyRts: bool
    var channelBusyData: bool
    /** nrLost, nrCollisions, nrReceived, nrProcessed, and the same for RTS packets. */
    var tally: Tally
    var rtsTally: Tally
    var endSim: real

    /** Node ids are unique, each node's packet carries its id, and only nodes of the
        network are at the gateway. */
    ghost predicate Valid()
      reads this`packetsAtBS
    {
      && ValidConfig(cfg)
      && (forall i, j :: 0 <= i < |nodes| && 0 <= j < |nodes| && nodes[i].nodeid == nodes[j].nodeid ==> i == j)
      && (forall i :: 0 <= i < |nodes| ==> nodes[i].packet.nodeid == nodes[i].nodeid)
      && (forall i :: 0 <= i < |packetsAtBS| ==> packetsAtBS[i] in nodes)
      && (forall i :: 0 <= i < |packetsAtBS| ==> packetsAtBS[i].packet.nodeid == packetsAtBS[i].nodeid)
      && (forall i, j :: 0 <= i < |packetsAtBS| && 0 <= j < |packetsAtBS| ==>
            packetsAtBS[i].nodeid == packetsAtBS[j].nodeid ==> i == j)
      && DistinctAtBS()
    }

    /** No packet is twice at the gateway. */
    ghost predicate DistinctAtBS()
      reads this`packetsAtBS
    {
      forall i, j :: 0 <= i < |packetsAtBS| && 0 <= j < |packetsAtBS| && i != j ==>
        packetsAtBS[i].packet != packetsAtBS[j].packet
    }

    /** p is not among the packets at the gateway. */
    ghost predicate Absent(p: Packet)
      reads this`packetsAtBS
    {
      forall i :: 0 <= i < |packetsAtBS| ==> packetsAtBS[i].packet != p
    }

    ghost function NodePackets(): set<Packet>
    {
      PacketsOf(nodes)
    }

    ghost function AtBSPackets(): set<Packet>
      reads this
    {
      PacketsOf(packetsAtBS)
    }

    constructor (c: Config, ns: seq<Node>)
      requires ValidConfig(c)
      requires forall i, j :: 0 <= i < |ns| && 0 <= j < |ns| && ns[i].nodeid == ns[j].nodeid ==> i == j
      requires forall i :: 0 <= i < |ns| ==> ns[i].packet.nodeid == ns[i].nodeid
      ensures Valid() && cfg == c && nodes == ns && packetsAtBS == []
      ensures !channelBusyRts && !channelBusyData
      ensures tally == Tally(0, 0, 0, 0) && rtsTally == Tally(0, 0, 0, 0)
    {
      cfg := c;
      nodes := ns;
      packetsAtBS := [];
      channelBusyRts := false;
      channelBusyData := false;
      tally := Tally(0, 0, 0, 0);
      rtsTally := Tally(0, 0, 0, 0);
      endSim := 0.0;
    }

    /** channel_busy_rts (rts) or channel_busy_data is set to busy. */
    method SetBusy(rts: bool, busy: bool)
      requires Valid()
      modifies this`channelBusyRts, this`channelBusyData
      ensures Valid()
      ensures channelBusyRts == (if rts then busy else old(channelBusyRts))
      ensures channelBusyData == (if rts then old(channelBusyData) else busy)
    {
      if rts {
        channelBusyRts := busy;
      } else {
        channelBusyData := busy;
      }
    }

    /** Every packet at the gateway belongs to a node of the network. */
    lemma AtBSWithinNodes()
      requires Valid()
      ensures AtBSPackets() <= NodePackets()
    {
      forall q | q in AtBSPackets()
        ensures q in NodePackets()
      {
        var n :| n in packetsAtBS && n.packet == q;
        assert n in nodes;
      }
    }

    /** A node that is not at the gateway has no packet there either. */
    lemma NotAtBS(n: Node)
      requires Valid() && n in nodes && n !in packetsAtBS
      ensures n.packet !in AtBSPackets()
    {
    }

    /** The capacity test of checkcollision: how many packets at the gateway are
        being processed. */
    method Processing() returns (processing: nat)
      ensures processing == CountProcessed(packetsAtBS)
    {
      processing := 0;
      var i := 0;
      while i < |packetsAtBS|
        invariant 0 <= i <= |packetsAtBS|
        invariant processing == CountProcessed(packetsAtBS[..i])
      {
        assert packetsAtBS[..i + 1][..i] == packetsAtBS[..i];
        if packetsAtBS[i].packet.processed {
          processing := processing + 1;
        }
        i := i + 1;
      }
      assert packetsAtBS[..i] == packetsAtBS;
    }

    /** The interference loop of checkcollision: p is compared with every packet at
        the gateway; the result is true exactly when some comparison loses p, and each
        packet there is marked collided when its comparison loses it. */
    method MarkCollisions(p: Packet, now: real) returns (col: bool)
      requires Valid() && Absent(p) && p.bw > 0
      modifies p`collided, AtBSPackets()`collided
      ensures col == (exists k :: 0 <= k < |packetsAtBS| && LosesNew(p, now, packetsAtBS[k].packet))
      ensures p.collided == (old(p.collided) || col)
      ensures forall k :: 0 <= k < |packetsAtBS| ==>
                packetsAtBS[k].packet.collided == (old(packetsAtBS[k].packet.collided) || LosesOther(p, now, packetsAtBS[k].packet))
    {
      col := false;
      var i := 0;
      while i < |packetsAtBS|
        invariant 0 <= i <= |packetsAtBS|
        invariant col == exists k :: 0 <= k < i && LosesNew(p, now, packetsAtBS[k].packet)
        invariant p.collided == (old(p.collided) || col)
        invariant forall k :: 0 <= k < i ==>
                    packetsAtBS[k].packet.collided == (old(packetsAtBS[k].packet.collided) || LosesOther(p, now, packetsAtBS[k].packet))
        invariant forall k :: i <= k < |packetsAtBS| ==>
                    packetsAtBS[k].packet.collided == old(packetsAtBS[k].packet.collided)
      {
        var other := packetsAtBS[i];
        assert forall k :: 0 <= k < |packetsAtBS| && k != i ==> packetsAtBS[k].packet != other.packet;
        var lost := CompareWith(p, other, now);
        col := col || lost;
        i := i + 1;
      }
    }

    /** The comparison of p with the packet q loses p / loses q. */
    ghost predicate LosesNew(p: Packet, now: real, q: Packet)
      requires p.bw > 0
      reads p`addTime, p`rectime, q`addTime, q`rectime
    {
      Compare(cfg.fullCollision, now, SignalOf(p), SignalOf(q)).newLost
    }

    ghost predicate LosesOther(p: Packet, now: real, q: Packet)
      requires p.bw > 0
      reads p`addTime, p`rectime, q`addTime, q`rectime
    {
      Compare(cfg.fullCollision, now, SignalOf(p), SignalOf(q)).otherLost
    }

    /** One iteration of the interference loop: p against the packet of other. */
    method CompareWith(p: Packet, other: Node, now: real) returns (lost: bool)
      requires p.bw > 0 && p != other.packet && other.packet.nodeid == other.nodeid
      modifies p`collided, other.packet`collided
      ensures lost == LosesNew(p, now, other.packet)
      ensures p.collided == (old(p.collided) || lost)
      ensures other.packet.collided == (old(other.packet.collided) || LosesOther(p, now, other.packet))
    {
      lost := false;
      if other.nodeid != p.nodeid {
        if FrequencyCollision(p.freq, p.bw, other.packet.freq) && SfCollision(p.sf, other.packet.sf) {
          if cfg.fullCollision {
            if TimingCollision(now, p.sf, p.bw, other.packet.addTime, other.packet.rectime) {
              // either this one, the other one, or both
              var c := PowerCollision(p.rssi, other.packet.rssi);
              if c.FirstLost() {
                p.collided := true;
                lost := true;
              }
              if c.SecondLost() {
                other.packet.collided := true;
              }
            }
          } else {
            p.collided := true;
            other.packet.collided := true;
            lost := true;
          }
        }
      }
    }

    /** checkcollision, called when the packet p of node p.nodeid arrives at time now
        and before it joins the gateway's list:
        - p is processed exactly when at most maxBSReceives packets at the gateway are;
        - every other packet is compared with p (Capture.Compare); the result is true
          exactly when some comparison loses p, and each packet is marked collided
          when its comparison loses it;
        - with collision avoidance, a listening node first forgets an RTS or DATA
          header it heard from a node whose packet is now collided; then, if p got
          through, every other listening node that has heard nothing hears p: an RTS
          announces p's data length as NAV, a DATA header the maximum payload size. */
    method CheckCollision(p: Packet, now: real) returns (col: bool)
      requires Valid() && p.bw > 0
      requires Absent(p)
      modifies p`collided, p`processed, AtBSPackets()`collided
      modifies nodes`receiveRts, nodes`receiveRtsFrom, nodes`receiveRtsTime
      modifies nodes`receiveData, nodes`receiveDataFrom, nodes`receiveDataTime, nodes`nav
      ensures Judged(p, now, col, old(Snapshot(p)))
      ensures AllHeard(p, now, col, old(RxsOf(nodes)), packetsAtBS)
    {
      col := Judge(p, now);
      assert RxsOf(nodes) == old(RxsOf(nodes));
      Inform(p, now, col);
    }

    /** Whether each packet at the gateway is collided. */
    ghost function CollidedFlags(): (r: seq<bool>)
      reads this, (set n | n in packetsAtBS :: n.packet)`collided
      ensures |r| == |packetsAtBS|
      ensures forall i :: 0 <= i < |packetsAtBS| ==> r[i] == packetsAtBS[i].packet.collided
    {
      CollidedAmong(|packetsAtBS|)
    }

    ghost function CollidedAmong(k: nat): (r: seq<bool>)
      requires k <= |packetsAtBS|
      reads this, (set n | n in packetsAtBS :: n.packet)`collided
      ensures |r| == k
      ensures forall i :: 0 <= i < k ==> r[i] == packetsAtBS[i].packet.collided
    {
      if k == 0 then [] else CollidedAmong(k - 1) + [packetsAtBS[k - 1].packet.collided]
    }

    /** What checkcollision reads before it changes anything: whether p is already
        collided, the collided flag of each packet at the gateway, how many of them
        are being processed, their signals and the signal of p. */
    ghost function Snapshot(p: Packet): (b: Before)
      reads this, (set n | n in packetsAtBS :: n.packet)`collided, (set n | n in packetsAtBS :: n.packet)`processed
      reads (set n | n in packetsAtBS :: n.packet)`addTime, (set n | n in packetsAtBS :: n.packet)`rectime
      reads p`addTime, p`rectime, p`collided
    {
      Before(p.collided, CollidedFlags(), CountProcessed(packetsAtBS), SignalsOf(packetsAtBS), SignalOf(p))
    }

    /** The verdict of checkcollision on p, against what it read before:
        - p is processed exactly when at most maxBSReceives packets at the gateway are;
        - col holds exactly when some comparison with a packet at the gateway loses p,
          and then p is collided (it stays collided if it already was);
        - each packet at the gateway is collided exactly when it was before or its
          comparison with p loses it. */
    ghost predicate Judged(p: Packet, now: real, col: bool, b: Before)
      requires p.bw > 0
      reads this, (set n | n in packetsAtBS :: n.packet)`collided
      reads (set n | n in packetsAtBS :: n.packet)`addTime, (set n | n in packetsAtBS :: n.packet)`rectime
      reads p`addTime, p`rectime, p`processed, p`collided
    {
      && p.processed == (b.processing <= cfg.maxBSReceives)
      && b.arrival.bw == p.bw
      && col == NewLost(cfg.fullCollision, now, b.arrival, b.signals)
      && p.collided == (b.collided || col)
      && MarkedBy(packetsAtBS, cfg.fullCollision, now, b.arrival, b.flags, b.signals)
    }

    /** Every node's reception state follows from its state before (Heard). */
    ghost predicate AllHeard(p: Packet, now: real, col: bool, before: seq<Reception>, atBS: seq<Node>)
      reads (set n | n in atBS :: n.packet)`collided, p`ptype, set n | n in nodes
    {
      && |before| == |nodes|
      && forall j {:trigger Heard(p, now, col, nodes[j], before[j], atBS)} :: 0 <= j < |nodes| ==> Heard(p, now, col, nodes[j], before[j], atBS)
    }

    /** The gateway's side of checkcollision: capacity and interference. */
    method Judge(p: Packet, now: real) returns (col: bool)
      requires Valid() && p.bw > 0
      requires Absent(p)
      modifies p`collided, p`processed, AtBSPackets()`collided
      ensures Judged(p, now, col, old(Snapshot(p)))
    {
      Admission(p);
      col := Interfere(p, now);
    }

    /** The capacity test: p is processed exactly when at most maxBSReceives packets at
        the gateway are; nothing checkcollision reads later changes. */
    method Admission(p: Packet)
      requires Valid() && Absent(p)
      modifies p`processed
      ensures p.processed == (CountProcessed(packetsAtBS) <= cfg.maxBSReceives)
      ensures Snapshot(p) == old(Snapshot(p))
    {
      var processing := Processing();
      p.processed := !(processing > cfg.maxBSReceives);
    }

    /** The interference loop (MarkCollisions), stated on the signals at the gateway. */
    method Interfere(p: Packet, now: real) returns (col: bool)
      requires Valid() && Absent(p) && p.bw > 0
      modifies p`collided, AtBSPackets()`collided
      ensures col == NewLost(cfg.fullCollision, now, old(SignalOf(p)), old(SignalsOf(packetsAtBS)))
      ensures p.collided == (old(p.collided) || col)
      ensures MarkedBy(packetsAtBS, cfg.fullCollision, now, old(SignalOf(p)), old(CollidedFlags()), old(SignalsOf(packetsAtBS)))
    {
      ghost var signals := SignalsOf(packetsAtBS);
      col := MarkCollisions(p, now);
      assert forall k :: 0 <= k < |packetsAtBS| ==> signals[k] == SignalOf(packetsAtBS[k].packet);
    }

    /** The listening nodes' side of checkcollision (collision avoidance only). */
    method Inform(p: Packet, now: real, col: bool)
      requires Valid()
      modifies nodes`receiveRts, nodes`receiveRtsFrom, nodes`receiveRtsTime
      modifies nodes`receiveData, nodes`receiveDataFrom, nodes`receiveDataTime, nodes`nav
      ensures AllHeard(p, now, col, old(RxsOf(nodes)), packetsAtBS)
    {
      if cfg.ca {
        CancelReceptions();
      }
      label Cancelled:
      if !col && cfg.ca {
        MarkReceptions(p, now);
      }
      forall j | 0 <= j < |nodes|
        ensures Heard(p, now, col, nodes[j], old(nodes[j].Rx()), packetsAtBS)
      {
        var n := nodes[j];
        assert old(n.caState) == n.caState && old(n.receiveRtsFrom) == old@Cancelled(n.receiveRtsFrom);
        assert old(n.receiveDataFrom) == old@Cancelled(n.receiveDataFrom);
      }
    }

    /** A node's reception state after checkcollision: what it held, less a reception
        from a node whose packet is now collided (collision avoidance only), and, if
        the new packet p got through, p itself for a listening node other than the
        sender that held nothing. */
    ghost predicate Heard(p: Packet, now: real, col: bool, n: Node, before: Reception, atBS: seq<Node>)
      reads (set n | n in atBS :: n.packet)`collided, p`ptype, n
    {
      var rts := before.rts && !(cfg.ca && CollidedFrom(atBS, before.rtsFrom, |atBS|));
      var data := before.data && !(cfg.ca && CollidedFrom(atBS, before.dataFrom, |atBS|));
      var marked := cfg.ca && !col && n.nodeid != p.nodeid
                    && (before.state == Phase1Listen || before.state == Phase2Listen) && !rts && !data;
      var hearsRts := marked && p.ptype == Rts;
      var hearsData := marked && p.ptype == Data;
      n.Rx() == Reception(before.state, rts || hearsRts, if hearsRts then p.nodeid else before.rtsFrom,
                          if hearsRts then now else before.rtsTime, data || hearsData,
                          if hearsData then p.nodeid else before.dataFrom, if hearsData then now else before.dataTime,
                          if hearsRts then p.dataLen else if hearsData then cfg.maxPayloadSize else before.nav)
    }

    /** Drop every reception whose sender's packet at the gateway is collided. */
    method CancelReceptions()
      requires Valid()
      modifies nodes`receiveRts, nodes`receiveData
      ensures forall j :: 0 <= j < |nodes| ==>
                && nodes[j].receiveRts == (old(nodes[j].receiveRts) && !CollidedFrom(packetsAtBS, nodes[j].receiveRtsFrom, |packetsAtBS|))
                && nodes[j].receiveData == (old(nodes[j].receiveData) && !CollidedFrom(packetsAtBS, nodes[j].receiveDataFrom, |packetsAtBS|))
    {
      var i := 0;
      while i < |packetsAtBS|
        invariant 0 <= i <= |packetsAtBS|
        invariant forall j :: 0 <= j < |nodes| ==>
                    && nodes[j].receiveRts == (old(nodes[j].receiveRts) && !CollidedFrom(packetsAtBS, nodes[j].receiveRtsFrom, i))
                    && nodes[j].receiveData == (old(nodes[j].receiveData) && !CollidedFrom(packetsAtBS, nodes[j].receiveDataFrom, i))
      {
        label Before:
        CancelFrom(i);
        forall j | 0 <= j < |nodes|
          ensures nodes[j].receiveRts == (old(nodes[j].receiveRts) && !CollidedFrom(packetsAtBS, nodes[j].receiveRtsFrom, i + 1))
        {
          var id := nodes[j].receiveRtsFrom;
          assert CollidedFrom(packetsAtBS, id, i) == old@Before(CollidedFrom(packetsAtBS, id, i));
          assert CollidedFrom(packetsAtBS, id, i + 1) == (CollidedFrom(packetsAtBS, id, i) || (packetsAtBS[i].nodeid == id && packetsAtBS[i].packet.collided));
        }
        i := i + 1;
      }
    }

    /** One pass of the cancellation over all nodes, for the i-th packet at the gateway. */
    method CancelFrom(i: nat)
      requires Valid() && i < |packetsAtBS|
      modifies nodes`receiveRts, nodes`receiveData
      ensures forall j :: 0 <= j < |nodes| ==>
                var other := packetsAtBS[i];
                && nodes[j].receiveRts ==
                     (old(nodes[j].receiveRts) && !(nodes[j].receiveRtsFrom == other.nodeid && other.packet.collided))
                && nodes[j].receiveData ==
                     (old(nodes[j].receiveData) && !(nodes[j].receiveDataFrom == other.nodeid && other.packet.collided))
    {
      var other := packetsAtBS[i];
      var j := 0;
      while j < |nodes|
        invariant 0 <= j <= |nodes|
        invariant forall q :: 0 <= q < j ==>
                    && nodes[q].receiveRts ==
                         (old(nodes[q].receiveRts) && !(nodes[q].receiveRtsFrom == other.nodeid && other.packet.collided))
                    && nodes[q].receiveData ==
                         (old(nodes[q].receiveData) && !(nodes[q].receiveDataFrom == other.nodeid && other.packet.collided))
        invariant forall q :: j <= q < |nodes| ==>
                    nodes[q].receiveRts == old(nodes[q].receiveRts) && nodes[q].receiveData == old(nodes[q].receiveData)
      {
        var node := nodes[j];
        if node.receiveRts && node.receiveRtsFrom == other.nodeid && other.packet.collided {
          node.receiveRts := false;
        }
        if node.receiveData && node.receiveDataFrom == other.nodeid && other.packet.collided {
          node.receiveData := false;
        }
        j := j + 1;
      }
    }

    /** Whether a listening node that has heard nothing hears p. */
    ghost predicate Hears(p: Packet, n: Node)
      reads n`caState
    {
      n.nodeid != p.nodeid && (n.caState == Phase1Listen || n.caState == Phase2Listen)
    }

    /** The gateway got p: every other listening node that heard nothing hears it. */
    method MarkReceptions(p: Packet, now: real)
      requires Valid()
      modifies nodes`receiveRts, nodes`receiveRtsFrom, nodes`receiveRtsTime
      modifies nodes`receiveData, nodes`receiveDataFrom, nodes`receiveDataTime, nodes`nav
      ensures forall j :: 0 <= j < |nodes| ==> Marked(p, now, nodes[j])
    {
      var j := 0;
      while j < |nodes|
        invariant 0 <= j <= |nodes|
        invariant forall q :: 0 <= q < j ==> Marked(p, now, nodes[q])
        invariant forall q :: j <= q < |nodes| ==> unchanged(nodes[q])
      {
        var node := nodes[j];
        if node.nodeid != p.nodeid {
          if node.caState == Phase1Listen || node.caState == Phase2Listen {
            if !node.receiveRts && !node.receiveData {
              if p.ptype == Rts {
                node.receiveRts := true;
                node.receiveRtsFrom := p.nodeid;
                node.receiveRtsTime := now;
                // an RTS carries the length of the data packet that follows
                node.nav := p.dataLen;
              }
              if p.ptype == Data {
                node.receiveData := true;
                node.receiveDataFrom := p.nodeid;
                node.receiveDataTime := now;
                node.nav := cfg.maxPayloadSize;
              }
            }
          }
        }
        j := j + 1;
      }
    }

    /** A node's reception state after MarkReceptions. */
    twostate predicate Marked(p: Packet, now: real, n: Node)
      reads this, p`ptype, n
    {
      var marked := Hears(p, n) && !old(n.receiveRts) && !old(n.receiveData);
      var hearsRts := marked && p.ptype == Rts;
      var hearsData := marked && p.ptype == Data;
      && n.receiveRts == (old(n.receiveRts) || hearsRts)
      && n.receiveData == (old(n.receiveData) || hearsData)
      && n.receiveRtsFrom == (if hearsRts then p.nodeid else old(n.receiveRtsFrom))
      && n.receiveRtsTime == (if hearsRts then now else old(n.receiveRtsTime))
      && n.receiveDataFrom == (if hearsData then p.nodeid else old(n.receiveDataFrom))
      && n.receiveDataTime == (if hearsData then now else old(n.receiveDataTime))
      && n.nav == (if hearsRts then p.dataLen else if hearsData then cfg.maxPayloadSize else old(n.nav))
    }
  }
}
