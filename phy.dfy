/** LoRa time on air (sub-GHz radios), after Semtech's LoRa modem design guide, and
    the receiver sensitivity table of the simulator. */
module Phy {
  import opened Params

  /** Number of programmed preamble symbols. */
  const Npream: int := 8

  /** A radio setting the simulator gives a packet: SF6..SF12, 125/250/500 kHz and
      coding rate 4/5..4/8. */
  predicate ValidRadio(sf: nat, bw: int, cr: int)
  {
    6 <= sf <= 12 && (bw == 125 || bw == 250 || bw == 500) && 1 <= cr <= 4
  }

  /** math.ceil of n / d: the smallest integer q with n <= q * d. */
  function CeilDiv(n: int, d: int): (q: int)
    requires d > 0
    ensures (q - 1) * d < n <= q * d
  {
    assert n == d * (n / d) + n % d;
    if n % d == 0 then n / d else n / d + 1
  }

  /** DE: low data rate optimisation, mandated for BW125 with SF11 and SF12. */
  function LowDataRateOptimize(sf: nat, bw: int): (de: int)
    ensures de == 0 || de == 1
  {
    if bw == 125 && (sf == 11 || sf == 12) then 1 else 0
  }

  /** H: implicit header, which SF6 requires. */
  function ImplicitHeader(sf: nat): (h: int)
    ensures h == 0 || h == 1
  {
    if sf == 6 then 1 else 0
  }

  /** Tsym = 2^sf / bw, in milliseconds when bw is in kHz. */
  function SymbolTime(sf: nat, bw: int): (t: real)
    requires bw != 0
    ensures bw > 0 ==> t > 0.0
  {
    Pow2(sf) as real / bw as real
  }

  /** (Npream + 4.25) * Tsym: the preamble, also the DIFS of the CA mechanism. */
  function PreambleTime(sf: nat, bw: int): (t: real)
    requires bw != 0
    ensures bw > 0 ==> t > 0.0
  {
    (Npream as real + 4.25) * SymbolTime(sf, bw)
  }

  /** Payload symbols: 8 + max(ceil((8pl - 4sf + 28 + 16 - 20H) / (4(sf - 2DE))) * (cr + 4), 0). */
  function PayloadSymbols(sf: nat, cr: int, pl: int, bw: int): (n: int)
    requires sf >= 1
    ensures n >= 8
  {
    var de := LowDataRateOptimize(sf, bw);
    var h := ImplicitHeader(sf);
    8 + Max(CeilDiv(8 * pl - 4 * sf + 28 + 16 - 20 * h, 4 * (sf - 2 * de)) * (cr + 4), 0)
  }

  /** Time on air of a packet of pl payload bytes: the preamble and the payload
      symbols, each symbol lasting Tsym. */
  function Airtime(sf: nat, cr: int, pl: int, bw: int): real
    requires sf >= 1 && bw != 0
  {
    PreambleTime(sf, bw) + PayloadSymbols(sf, cr, pl, bw) as real * SymbolTime(sf, bw)
  }

  /** For every radio setting the payload divisor 4 (sf - 2 DE) is at least 24: the
      low data rate optimisation only comes with SF11 and SF12. */
  lemma PayloadDivisorPositive(sf: nat, bw: int, cr: int)
    requires ValidRadio(sf, bw, cr)
    ensures 4 * (sf - 2 * LowDataRateOptimize(sf, bw)) >= 24
  {
  }

  /** With SF6 the implicit header cancels the header and SF terms of the payload
      formula: a payload of pl bytes costs exactly ceil(pl / 3) blocks of cr + 4
      symbols. */
  lemma {:induction false} Sf6PayloadSymbols(cr: int, pl: int, bw: int)
    requires pl >= 0 && cr + 4 >= 0
    ensures PayloadSymbols(6, cr, pl, bw) == 8 + CeilDiv(pl, 3) * (cr + 4)
  {
    var q1, q2 := CeilDiv(8 * pl, 24), CeilDiv(pl, 3);
    assert 8 * pl - 4 * 6 + 28 + 16 - 20 * ImplicitHeader(6) == 8 * pl;
    assert 4 * (6 - 2 * LowDataRateOptimize(6, bw)) == 24;
    assert (q1 - 1) * 3 < pl <= q1 * 3 by {
      assert (q1 - 1) * 24 == 8 * ((q1 - 1) * 3) && q1 * 24 == 8 * (q1 * 3);
    }
    if q1 < q2 {
      MulMonotone(q1, q2 - 1, 3);
      assert false;
    } else if q2 < q1 {
      MulMonotone(q2, q1 - 1, 3);
      assert false;
    }
    assert q2 >= 0 by {
      if q2 < 0 {
        MulMonotone(q2, -1, 3);
        assert false;
      }
    }
    MulMonotone(0, q2, cr + 4);
  }

  /** One spreading factor up doubles the symbol, hence the preamble and the DIFS. */
  lemma PreambleDoublesWithSf(sf: nat, bw: int)
    requires bw != 0
    ensures PreambleTime(sf + 1, bw) == 2.0 * PreambleTime(sf, bw)
  {
    assert Pow2(sf + 1) == 2 * Pow2(sf);
  }

  lemma {:induction false} CeilDivMonotone(n1: int, n2: int, d: int)
    requires d > 0 && n1 <= n2
    ensures CeilDiv(n1, d) <= CeilDiv(n2, d)
  {
    var q1, q2 := CeilDiv(n1, d), CeilDiv(n2, d);
    if q1 > q2 {
      assert (q1 - 1) * d >= q2 * d by {
        MulMonotone(q2, q1 - 1, d);
      }
      assert false;
    }
  }

  lemma MulMonotone(a: int, b: int, c: int)
    requires a <= b && c >= 0
    ensures a * c <= b * c
  {
  }

  /** A longer payload never needs fewer symbols. */
  lemma {:induction false} PayloadSymbolsMonotone(sf: nat, cr: int, pl1: int, pl2: int, bw: int)
    requires sf >= 1 && cr + 4 >= 0 && pl1 <= pl2
    ensures PayloadSymbols(sf, cr, pl1, bw) <= PayloadSymbols(sf, cr, pl2, bw)
  {
    var de := LowDataRateOptimize(sf, bw);
    var h := ImplicitHeader(sf);
    var d := 4 * (sf - 2 * de);
    assert d >= 4 by {
      if de == 1 {
        assert sf >= 11;
      }
    }
    var q1 := CeilDiv(8 * pl1 - 4 * sf + 28 + 16 - 20 * h, d);
    var q2 := CeilDiv(8 * pl2 - 4 * sf + 28 + 16 - 20 * h, d);
    CeilDivMonotone(8 * pl1 - 4 * sf + 28 + 16 - 20 * h, 8 * pl2 - 4 * sf + 28 + 16 - 20 * h, d);
    MulMonotone(q1, q2, cr + 4);
    assert PayloadSymbols(sf, cr, pl1, bw) == 8 + Max(q1 * (cr + 4), 0);
    assert PayloadSymbols(sf, cr, pl2, bw) == 8 + Max(q2 * (cr + 4), 0);
  }

  /** A longer payload never takes less time on air; in particular an RTS (5 bytes)
      is never longer than a DATA packet of at least 5 bytes. */
  lemma {:induction false} AirtimeMonotone(sf: nat, cr: int, pl1: int, pl2: int, bw: int)
    requires sf >= 1 && bw > 0 && cr + 4 >= 0 && pl1 <= pl2
    ensures Airtime(sf, cr, pl1, bw) <= Airtime(sf, cr, pl2, bw)
  {
    PayloadSymbolsMonotone(sf, cr, pl1, pl2, bw);
    var p, t := PreambleTime(sf, bw), SymbolTime(sf, bw);
    var n1, n2 := PayloadSymbols(sf, cr, pl1, bw), PayloadSymbols(sf, cr, pl2, bw);
    assert Airtime(sf, cr, pl1, bw) == p + n1 as real * t;
    assert Airtime(sf, cr, pl2, bw) == p + n2 as real * t;
    OrderedSums(Airtime(sf, cr, pl1, bw), Airtime(sf, cr, pl2, bw), p, n1, n2, t);
  }

  lemma OrderedSums(a1: real, a2: real, p: real, n1: int, n2: int, t: real)
    requires a1 == p + n1 as real * t && a2 == p + n2 as real * t
    requires n1 <= n2 && t >= 0.0
    ensures a1 <= a2
  {
    ShiftedMulMonotone(p, n1 as real, n2 as real, t);
  }

  lemma ShiftedMulMonotone(a: real, x: real, y: real, c: real)
    requires x <= y && c >= 0.0
    ensures a + x * c <= a + y * c
  {
  }

  /** Every packet, even an empty one, takes some time on air. */
  lemma AirtimePositive(sf: nat, cr: int, pl: int, bw: int)
    requires sf >= 1 && bw > 0
    ensures Airtime(sf, cr, pl, bw) > 0.0
  {
    ShiftedMulMonotone(0.0, 0.0, PayloadSymbols(sf, cr, pl, bw) as real, SymbolTime(sf, bw));
  }

  /** LoRaWAN setting of experiment 4 (SF12, BW125, CR4/5): the 104-byte DATA packet
      takes 113 payload symbols and 4104.192 ms; the 5-byte RTS 13 symbols and 827.392 ms. */
  lemma Experiment4Airtimes()
    ensures PayloadSymbols(12, 1, 104, 125) == 113
    ensures Airtime(12, 1, 104, 125) == 4104.192
    ensures PayloadSymbols(12, 1, 5, 125) == 13
    ensures Airtime(12, 1, 5, 125) == 827.392
  {
    assert Pow2(12) == 4096 by {
      assert Pow2(4) == 16;
      assert Pow2(8) == 256;
    }
    assert CeilDiv(828, 40) == 21;
    assert CeilDiv(36, 40) == 1;
  }

  /** Receiver sensitivity in dBm of the sub-GHz radio (the simulator's table sf6..sf12
      by 125/250/500 kHz): a packet arriving weaker than this is lost. */
  function Sensitivity(sf: nat, bw: int): (s: real)
    requires 6 <= sf <= 12 && (bw == 125 || bw == 250 || bw == 500)
    ensures -134.5 <= s <= -111.0
  {
    var row :=
      if sf == 6 then [-118.0, -115.0, -111.0]
      else if sf == 7 then [-126.5, -124.25, -120.75]
      else if sf == 8 then [-127.25, -126.75, -124.0]
      else if sf == 9 then [-131.25, -128.25, -127.5]
      else if sf == 10 then [-132.75, -130.25, -128.75]
      else if sf == 11 then [-134.5, -132.75, -128.75]
      else [-133.25, -132.25, -132.25];
    if bw == 125 then row[0] else if bw == 250 then row[1] else row[2]
  }

  /** A wider channel never makes the receiver more sensitive. */
  lemma SensitivityWidensWithBandwidth(sf: nat, bw1: int, bw2: int)
    requires 6 <= sf <= 12
    requires bw1 == 125 || bw1 == 250 || bw1 == 500
    requires bw2 == 125 || bw2 == 250 || bw2 == 500
    requires bw1 <= bw2
    ensures Sensitivity(sf, bw1) <= Sensitivity(sf, bw2)
  {
  }
}
