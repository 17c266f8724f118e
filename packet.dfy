/** The packet a node sends (myPacket): fixed radio settings chosen when the node is
    created, and the fields the MAC rewrites while the node works through the
    collision-avoidance procedure (packet type, current length, time on air) or while
    the gateway judges it (collided, processed, lost). */
module Packets {
  import opened Params
  import opened Phy

  /** dataPacketType / rtsPacketType. */
  datatype PacketType = Data | Rts

  /** Payload length of an RTS, in bytes. */
  const RtsLength: int := 5

  class Packet {
    const nodeid: int
    const sf: nat
    const bw: int
    const cr: int
    /** Carrier frequency, in Hz. */
    const freq: int
    /** Received power at the gateway, in dBm (Prx after path loss). */
    const rssi: real
    /** Payload length of the DATA packet (data_len). */
    const dataLen: int
    /** Preamble duration, the DIFS unit of every backoff (Tpream). */
    const tpream: real
    /** Time on air of the DATA packet and of an RTS with these settings. */
    const dataToa: real
    const rtsToa: real

    var ptype: PacketType
    /** Current payload length: dataLen for DATA, 5 for an RTS. */
    var pl: int
    /** Time on air of the current packet type. */
    var rectime: real
    var addTime: real
    var collided: bool
    var processed: bool
    var lost: bool

    /** The settings fixed at creation are consistent (the two times on air are
        those the constructor computes; see its contract). */
    ghost predicate Radio()
    {
      && ValidRadio(sf, bw, cr)
      && tpream == PreambleTime(sf, bw)
      && dataToa > 0.0 && rtsToa > 0.0
      && (dataLen >= RtsLength ==> rtsToa <= dataToa)
    }

    /** The current length and time on air are those of the current packet type. */
    ghost predicate Valid()
      reads this`ptype, this`pl, this`rectime
    {
      && Radio()
      && pl == (if ptype == Rts then RtsLength else dataLen)
      && rectime == (if ptype == Rts then rtsToa else dataToa)
    }

    /** The settings come from the experiment, the random draws and the path loss,
        all of which are inputs here; a new packet is a DATA packet of plen bytes. */
    constructor (nodeid: int, sf: nat, bw: int, cr: int, freq: int, rssi: real, plen: int)
      requires ValidRadio(sf, bw, cr)
      ensures Valid()
      ensures this.nodeid == nodeid && this.sf == sf && this.bw == bw && this.cr == cr
      ensures this.freq == freq && this.rssi == rssi && dataLen == plen
      ensures ptype == Data && pl == plen && rectime == Airtime(sf, cr, plen, bw)
      ensures dataToa == Airtime(sf, cr, plen, bw) && rtsToa == Airtime(sf, cr, RtsLength, bw)
      ensures addTime == 0.0 && !collided && !processed && !lost
    {
      this.nodeid := nodeid;
      this.sf := sf;
      this.bw := bw;
      this.cr := cr;
      this.freq := freq;
      this.rssi := rssi;
      dataLen := plen;
      tpream := (Npream as real + 4.25) * (Pow2(sf) as real / bw as real);
      dataToa := Airtime(sf, cr, plen, bw);
      rtsToa := Airtime(sf, cr, RtsLength, bw);
      ptype := Data;
      pl := plen;
      rectime := Airtime(sf, cr, plen, bw);
      AirtimePositive(sf, cr, plen, bw);
      AirtimePositive(sf, cr, RtsLength, bw);
      if plen >= RtsLength {
        AirtimeMonotone(sf, cr, RtsLength, plen, bw);
      }
      addTime := 0.0;
      collided := false;
      processed := false;
      lost := false;
    }

    /** The gateway's verdict on the packet is cleared once it has left the air. */
    method ClearVerdict()
      modifies this`collided, this`processed, this`lost
      ensures !collided && !processed && !lost
    {
      collided := false;
      processed := false;
      lost := false;
    }

    /** setPacketType: switch between the RTS (5 bytes) and the DATA packet, with the
        time on air of the new type (the constructor computes both from the radio
        settings). An RTS is never longer on air than the DATA packet it announces. */
    method SetPacketType(t: PacketType)
      requires Valid()
      modifies this`ptype, this`pl, this`rectime
      ensures Valid() && ptype == t
      ensures pl == (if t == Rts then RtsLength else dataLen)
      ensures rectime == (if t == Rts then rtsToa else dataToa)
      ensures t == Rts && dataLen >= RtsLength ==> rectime <= dataToa
    {
      ptype := t;
      if t == Rts {
        pl := RtsLength;
        rectime := rtsToa;
      } else {
        pl := dataLen;
        rectime := dataToa;
      }
    }
  }
}
