/** The gateway's interference rules between two packets (frequency, spreading factor,
    capture effect and preamble timing) and, on values, the verdicts that
    checkcollision draws from them for a freshly arrived packet. */
module Capture {
  import opened Params
  import opened Phy

  function Abs(x: int): int
  {
    if x < 0 then -x else x
  }

  /** frequencyCollision as written: the bandwidth test of the first two cases looks
      at p1.bw and at p2.freq (not p2.bw). Frequencies in Hz, window sizes 120/60/30. */
  function FrequencyCollision(freq1: int, bw1: int, freq2: int): (r: bool)
    ensures Abs(freq1 - freq2) <= 30 ==> r
    ensures Abs(freq1 - freq2) > 120 ==> !r
  {
    if Abs(freq1 - freq2) <= 120 && (bw1 == 500 || freq2 == 500) then true
    else if Abs(freq1 - freq2) <= 60 && (bw1 == 250 || freq2 == 250) then true
    else Abs(freq1 - freq2) <= 30
  }

  /** The rule the comment above frequencyCollision states: the window is set by either
      packet's bandwidth. */
  function FrequencyCollisionByBandwidth(freq1: int, bw1: int, freq2: int, bw2: int): (r: bool)
    ensures Abs(freq1 - freq2) <= 30 ==> r
    ensures Abs(freq1 - freq2) > 120 ==> !r
  {
    var d := Abs(freq1 - freq2);
    (d <= 120 && (bw1 == 500 || bw2 == 500)) || (d <= 60 && (bw1 == 250 || bw2 == 250)) || d <= 30
  }

  /** Read by bandwidth, the test is symmetric. */
  lemma ByBandwidthSymmetric(freq1: int, bw1: int, freq2: int, bw2: int)
    ensures FrequencyCollisionByBandwidth(freq1, bw1, freq2, bw2) == FrequencyCollisionByBandwidth(freq2, bw2, freq1, bw1)
  {
  }

  /** As written the test is not symmetric: a 125 kHz packet 100 Hz away from a 500 kHz
      packet collides with it, but not the other way round. */
  lemma FrequencyCollisionAsymmetric()
    ensures FrequencyCollision(868000100, 500, 868000000)
    ensures !FrequencyCollision(868000000, 125, 868000100)
    ensures FrequencyCollisionByBandwidth(868000000, 125, 868000100, 500)
  {
  }

  /** The channels the simulator hands out: 860, 864 and 868 MHz. */
  predicate PlannedChannel(f: int)
  {
    f == 860000000 || f == 864000000 || f == 868000000
  }

  /** On the planned channels both readings agree: packets collide in frequency exactly
      when they share a channel, whatever the bandwidths. */
  lemma FrequencyPlanAgreement(freq1: int, bw1: int, freq2: int, bw2: int)
    requires PlannedChannel(freq1) && PlannedChannel(freq2)
    ensures FrequencyCollision(freq1, bw1, freq2) <==> freq1 == freq2
    ensures FrequencyCollisionByBandwidth(freq1, bw1, freq2, bw2) <==> freq1 == freq2
  {
  }

  /** sfCollision: packets interfere only on the same spreading factor. */
  function SfCollision(sf1: nat, sf2: nat): bool
  {
    sf1 == sf2
  }

  /** Capture threshold, in dB. */
  const PowerThreshold: real := 6.0

  /** Which of the two packets powerCollision returns as casualties. */
  datatype Casualties = Both | FirstOnly | SecondOnly
  {
    predicate FirstLost() { this != SecondOnly }
    predicate SecondLost() { this != FirstOnly }
  }

  /** powerCollision: a packet survives exactly when it is at least 6 dB stronger than
      the other one; so at least one is lost, both when they are within 6 dB, and never
      the stronger one of a pair 6 dB or more apart. */
  function PowerCollision(rssi1: real, rssi2: real): (c: Casualties)
    ensures c.FirstLost() <==> rssi1 - rssi2 < PowerThreshold
    ensures c.SecondLost() <==> rssi2 - rssi1 < PowerThreshold
    ensures c == Both <==> -PowerThreshold < rssi1 - rssi2 < PowerThreshold
  {
    var diff := rssi1 - rssi2;
    var absDiff := if diff < 0.0 then -diff else diff;
    if absDiff < PowerThreshold then Both
    else if diff < PowerThreshold then FirstOnly
    else SecondOnly
  }

  /** The part of the new packet's preamble that may be lost: (Npream - 5) symbols. */
  function CriticalTime(sf: nat, bw: int): (t: real)
    requires bw != 0
    ensures bw > 0 ==> 0.0 < t < PreambleTime(sf, bw)
  {
    Pow2(sf) as real / (1.0 * bw as real) * (Npream - 5) as real
  }

  /** timingCollision: the new packet (arrived at now) is hit when the other packet,
      sent at addTime2 for rectime2, ends after the new packet's critical section. */
  function TimingCollision(now: real, sf1: nat, bw1: int, addTime2: real, rectime2: real): bool
    requires bw1 != 0
  {
    var p2End := addTime2 + rectime2;
    var p1Cs := now + CriticalTime(sf1, bw1);
    p1Cs < p2End
  }

  /** A packet that ended by the time the new one arrived never collides with it. */
  lemma EndedPacketNoTimingCollision(now: real, sf1: nat, bw1: int, addTime2: real, rectime2: real)
    requires bw1 > 0 && addTime2 + rectime2 <= now
    ensures !TimingCollision(now, sf1, bw1, addTime2, rectime2)
  {
  }

  /** A packet still on air when the new packet's preamble is over always collides
      with it in time. */
  lemma StillOnAirCollides(now: real, sf1: nat, bw1: int, addTime2: real, rectime2: real)
    requires bw1 > 0 && addTime2 + rectime2 >= now + PreambleTime(sf1, bw1)
    ensures TimingCollision(now, sf1, bw1, addTime2, rectime2)
  {
  }

  /** Arriving later never makes a timing collision: the later the new packet, the
      fewer packets end inside its critical section. */
  lemma LaterArrivalCollidesLess(now1: real, now2: real, sf1: nat, bw1: int, addTime2: real, rectime2: real)
    requires bw1 > 0 && now1 <= now2
    ensures TimingCollision(now2, sf1, bw1, addTime2, rectime2) ==> TimingCollision(now1, sf1, bw1, addTime2, rectime2)
  {
  }

  /** What checkcollision reads of a packet at the gateway. */
  datatype Signal = Signal(nodeid: int, sf: nat, bw: int, freq: int, rssi: real, addTime: real, rectime: real)

  /** Same frequency window and same spreading factor, tested from p's side. */
  predicate Interferes(p: Signal, o: Signal)
  {
    FrequencyCollision(p.freq, p.bw, o.freq) && SfCollision(p.sf, o.sf)
  }

  /** Outcome of comparing the new packet with one other packet. */
  datatype Verdict = Verdict(newLost: bool, otherLost: bool)

  /** One iteration of checkcollision's loop: the new packet p against o. Packets of
      the same node are never compared; the simplified check loses both on any
      interference; the full check loses, after a timing collision, exactly those that
      are not 6 dB stronger than the other. */
  function Compare(full: bool, now: real, p: Signal, o: Signal): (v: Verdict)
    requires p.bw != 0
    ensures (v.newLost || v.otherLost) ==> o.nodeid != p.nodeid && Interferes(p, o)
    ensures !full ==> v.newLost == v.otherLost == (o.nodeid != p.nodeid && Interferes(p, o))
    ensures full ==> (v.newLost <==>
                        (o.nodeid != p.nodeid && Interferes(p, o)
                         && TimingCollision(now, p.sf, p.bw, o.addTime, o.rectime)
                         && p.rssi - o.rssi < PowerThreshold))
    ensures full ==> (v.otherLost <==>
                        (o.nodeid != p.nodeid && Interferes(p, o)
                         && TimingCollision(now, p.sf, p.bw, o.addTime, o.rectime)
                         && o.rssi - p.rssi < PowerThreshold))
  {
    if o.nodeid == p.nodeid then Verdict(false, false)
    else if !(FrequencyCollision(p.freq, p.bw, o.freq) && SfCollision(p.sf, o.sf)) then Verdict(false, false)
    else if full then
      if TimingCollision(now, p.sf, p.bw, o.addTime, o.rectime) then
        var c := PowerCollision(p.rssi, o.rssi);
        Verdict(c.FirstLost(), c.SecondLost())
      else Verdict(false, false)
    else Verdict(true, true)
  }

  /** checkcollision's result on values: some comparison lost the new packet. */
  predicate NewLost(full: bool, now: real, p: Signal, others: seq<Signal>)
    requires p.bw != 0
  {
    exists i :: 0 <= i < |others| && Compare(full, now, p, others[i]).newLost
  }

  /** The full check never loses a packet that the simplified check keeps. */
  lemma FullRefinesSimple(now: real, p: Signal, o: Signal)
    requires p.bw != 0
    ensures Compare(true, now, p, o).newLost ==> Compare(false, now, p, o).newLost
    ensures Compare(true, now, p, o).otherLost ==> Compare(false, now, p, o).otherLost
  {
  }

  /** Spreading factors are orthogonal: under either check, a new packet and packets
      on other spreading factors never cost each other anything. */
  lemma DifferentSfNeverInterferes(full: bool, now: real, p: Signal, others: seq<Signal>)
    requires p.bw != 0
    requires forall i :: 0 <= i < |others| ==> others[i].sf != p.sf
    ensures !NewLost(full, now, p, others)
    ensures forall i :: 0 <= i < |others| ==> !Compare(full, now, p, others[i]).otherLost
  {
  }

  /** Capture effect: a new packet at least 6 dB stronger than every packet it
      interferes with survives, and every one of those whose end falls after its
      critical section is lost. */
  lemma StrongestCaptures(now: real, p: Signal, others: seq<Signal>)
    requires p.bw != 0
    requires forall i :: 0 <= i < |others| && Interferes(p, others[i]) ==> p.rssi - others[i].rssi >= PowerThreshold
    ensures !NewLost(true, now, p, others)
    ensures forall i :: 0 <= i < |others| && others[i].nodeid != p.nodeid && Interferes(p, others[i])
              && TimingCollision(now, p.sf, p.bw, others[i].addTime, others[i].rectime)
              ==> Compare(true, now, p, others[i]).otherLost
  {
  }

  /** Without a 6 dB winner, the new packet and every packet it hits are lost. */
  lemma NoCaptureWithoutMargin(now: real, p: Signal, o: Signal)
    requires p.bw != 0 && o.nodeid != p.nodeid && Interferes(p, o)
    requires TimingCollision(now, p.sf, p.bw, o.addTime, o.rectime)
    requires -PowerThreshold < p.rssi - o.rssi < PowerThreshold
    ensures Compare(true, now, p, o) == Verdict(true, true)
  {
  }

  /** Packets that had ended when the new packet arrived cost it nothing, and it costs
      them nothing, under the full check. */
  lemma EndedPacketsHarmless(now: real, p: Signal, others: seq<Signal>)
    requires p.bw > 0
    requires forall i :: 0 <= i < |others| ==> others[i].addTime + others[i].rectime <= now
    ensures !NewLost(true, now, p, others)
    ensures forall i :: 0 <= i < |others| ==> Compare(true, now, p, others[i]) == Verdict(false, false)
  {
  }
}
