# LoRa MAC simulator core in Dafny

This project models the decision core of `loraDir_mac.py`, a discrete-event
simulator of LoRa end devices that share one gateway. Each node runs either a
plain carrier-sense MAC (ALOHA-like, with a bounded retry loop and exponential
backoff) or the collision-avoidance (CA) procedure: listen, RTS, listen again,
DATA, with a network allocation vector (NAV) set by overheard packets. The model
covers:

- **Physical layer** (module `Phy`): LoRa time on air (`airtime`, sub-GHz
  branch) with exact integer symbol counts and `real` times, and the receiver
  sensitivity table.
- **Gateway** (modules `Capture`, `Sim`, `Air`):
  - the four interference predicates (`frequencyCollision`, `sfCollision`,
    `powerCollision`, `timingCollision`);
  - the verdicts `checkcollision` draws from them, as pure functions on values;
  - `checkcollision` itself, an imperative method over a `Network` class. It
    holds the gateway's list `packetsAtBS`, the channel flags and the counters.
    The method sets `collided`/`processed` on `Packet` objects and the
    reception flags of listening `Node` objects;
  - a packet's arrival at and departure from the gateway.
- **Per-node MAC** (modules `Retry`, `Transmit`, `Process`, `Aloha`): the
  transmit process of `myNode`, as methods that update the node's fields step
  by step.
  - Each state of the CA procedure is a method, and `Transmit.Want` states
    `want_transmit` as a function.
  - The two retry loops (before the RTS and before the DATA packet without CA)
    are `while` loops, proved against `Backoff.Backoffs` / `Backoff.BEAfter` /
    `Backoff.Busies`.
  - `Process.Run` and `Aloha.AlohaRun` run the process from where it last
    yielded to its next timeout.

Randomness and time are inputs:

- Every `random.randint(lo, hi)` is `Rand.RandInt(lo, hi, seed)` with an
  arbitrary seed, and `Rand.RandIntReachesAll` shows that every value of the
  range is reachable.
- The waits drawn from `expovariate`/`uniform` are real inputs whose range is
  stated (`Transmit.WaitFits`).
- The channel flags and random draws met at successive CCAs of a retry loop are
  a sequence of `Probe` values.
- `env.now` is the parameter `now`.
- A `yield env.timeout(d)` becomes an `Outcome`: `Yield(delays, at)` names the
  timeouts and where the process resumes; `Continue` means it goes on without
  yielding; `Return` means the simulation ended.

Where the general description of the system and the code differ, the model
follows the code:

- The gateway judges a packet once, when it arrives, pairwise against every
  packet already there. It does not wait for the packet's end or build
  transitive interference sets.
- The capture threshold is a strict 6 dB test (`< 6` loses both packets).
- Carrier sense reads two global flags (an RTS on air, a DATA packet on air),
  not a per-channel test.
- `frequencyCollision` is modelled as written. Its first two cases test
  `p2.freq == 500` / `p2.freq == 250` where the comment above it speaks of the
  other packet's bandwidth.
  - `Capture.FrequencyCollisionAsymmetric` shows that the as-written test is
    not symmetric.
  - `Capture.FrequencyPlanAgreement` shows that on the simulator's frequency
    plan (860/864/868 MHz) both readings agree, so this changes nothing in the
    simulator's runs.

With CA and `n_retry = 0`, a node at `want_transmit` aborts and resets its
budget to 0 again without ever yielding, so the simpy process would loop forever
at one instant. The model makes this explicit as the outcome `Spin`, which
`Process.Run` returns only in that configuration.

## Model

| member | source | states |
|---|---|---|
| Params.DefaultIsValid | loraDir_mac.py:235-288 | the distributed settings (n_retry 40, n_retry_rts 20, CCA_prob 50, Wbusy_min 1, BE 3..6, WL 7, W2 10, W3 7, Wnav 0) make every randint range of the MAC non-empty |
| Rand.RandInt | loraDir_mac.py:1062 | random.randint(lo, hi) yields a value in the closed range [lo, hi] |
| Rand.RandIntReachesAll | loraDir_mac.py:1062 | every value of [lo, hi] is the draw of some seed, so the seeds stand for every possible draw |
| Phy.PayloadDivisorPositive | loraDir_mac.py:601-603 | for every radio setting the payload divisor 4 (sf - 2 DE) is at least 24, DE being set only for BW125 with SF11 or SF12 |
| Phy.Sf6PayloadSymbols | loraDir_mac.py:604-610 | with SF6 the implicit header cancels the header and SF terms: pl bytes cost exactly 8 + ceil(pl / 3) (cr + 4) symbols |
| Phy.SymbolTime | loraDir_mac.py:607 | Tsym = 2^sf / bw is positive for a positive bandwidth |
| Phy.PreambleDoublesWithSf | loraDir_mac.py:607-608 | one SF up doubles the preamble (8 + 4.25 symbols), hence every DIFS |
| Phy.PayloadSymbols | loraDir_mac.py:610 | the payload symbol count 8 + max(ceil(..)*(cr+4), 0) is never below 8 |
| Phy.CeilDiv | loraDir_mac.py:610 | math.ceil(n / d) is the smallest integer q with n <= q * d |
| Phy.CeilDivMonotone | loraDir_mac.py:610 | math.ceil(n / d) does not decrease as n grows |
| Phy.PayloadSymbolsMonotone | loraDir_mac.py:610 | a longer payload never needs fewer symbols |
| Phy.AirtimeMonotone | loraDir_mac.py:607-612 | a longer payload never takes less time on air (so an RTS of 5 bytes is never longer than its DATA packet) |
| Phy.AirtimePositive | loraDir_mac.py:607-612 | every packet, even an empty one, takes positive time on air |
| Phy.Experiment4Airtimes | loraDir_mac.py:599-612 | SF12/BW125/CR4-5: a 104-byte packet takes 113 payload symbols and 4104.192 ms, a 5-byte RTS 13 symbols and 827.392 ms |
| Phy.Sensitivity | loraDir_mac.py:355-363 | the sub-GHz sensitivity table lies between -134.5 and -111 dBm |
| Phy.SensitivityWidensWithBandwidth | loraDir_mac.py:355-363 | a wider bandwidth never gives a more sensitive receiver, for every spreading factor |
| Capture.FrequencyCollision | loraDir_mac.py:509-522 | packets within 30 Hz always collide in frequency and packets more than 120 Hz apart never do, whatever the bandwidths |
| Capture.FrequencyCollisionByBandwidth | loraDir_mac.py:502-508 | the rule of the comment (window set by either bandwidth) has the same 30 / 120 bounds |
| Capture.ByBandwidthSymmetric | loraDir_mac.py:502-508 | the rule read by bandwidth is symmetric in the two packets |
| Capture.FrequencyCollisionAsymmetric | loraDir_mac.py:510 | as written, a 500 kHz packet 100 Hz from a 125 kHz one collides with it but not the other way round |
| Capture.FrequencyPlanAgreement | loraDir_mac.py:850-852 | on the 860/864/868 MHz channels both readings say collision exactly when the frequencies are equal |
| Capture.DifferentSfNeverInterferes | loraDir_mac.py:524-530 | under either check, packets on different spreading factors never lose the new packet and are never lost to it |
| Capture.PowerCollision | loraDir_mac.py:532-546 | each packet is lost exactly when it is not 6 dB stronger than the other; both exactly when they are within 6 dB; never the stronger one otherwise |
| Capture.CriticalTime | loraDir_mac.py:554-557 | the critical section, (8 - 5) symbols of the new packet, is positive and lies inside its preamble |
| Capture.StillOnAirCollides | loraDir_mac.py:548-571 | a packet still on air when the new packet's preamble is over always collides with it in time |
| Capture.LaterArrivalCollidesLess | loraDir_mac.py:548-571 | a later arrival never turns a packet that misses the critical section into a timing collision |
| Capture.EndedPacketNoTimingCollision | loraDir_mac.py:560-571 | a packet that ended by the time the new one arrives never collides with it in time |
| Capture.Compare | loraDir_mac.py:407-434 | one comparison: packets of the same node are never compared; the simple check loses both on frequency+SF interference; the full check loses exactly the packets powerCollision returns after a timing collision |
| Capture.FullRefinesSimple | loraDir_mac.py:417-434 | the full check never loses a packet the simple check keeps |
| Capture.StrongestCaptures | loraDir_mac.py:417-434 | a new packet 6 dB stronger than everything it interferes with survives, and every interferer ending after its critical section is lost |
| Capture.NoCaptureWithoutMargin | loraDir_mac.py:417-434 | within 6 dB and overlapping in time, both packets are lost |
| Capture.EndedPacketsHarmless | loraDir_mac.py:417-434 | under the full check, packets already ended cost the new one nothing and it costs them nothing |
| Backoff.CcaReliabilityExtremes | loraDir_mac.py:1047 | CCA_prob 100 always detects a busy channel and CCA_prob 0 never does |
| Backoff.CcaOutcome | loraDir_mac.py:1035-1053 | a CCA reports a busy channel only with check_busy on, a channel flag up and CCA_prob > 0 (no false positive); with CCA_prob = 100 it reports busy exactly then |
| Backoff.NextBE | loraDir_mac.py:1065-1067 | one busy result raises Wbusy_BE by at most one and never past the larger of it and Wbusy_maxBE |
| Backoff.BEAfterClosedForm | loraDir_mac.py:1537-1539 | after k busy results Wbusy_BE is min(BE + k, Wbusy_maxBE) with exponential backoff from below the cap, and unchanged otherwise |
| Backoff.BEAfterBounds | loraDir_mac.py:1537-1539 | Wbusy_BE never falls and never exceeds max(initial, Wbusy_maxBE) |
| Backoff.BusyBackoff | loraDir_mac.py:1535 | each busy backoff lies in [Wbusy_min, 2^Wbusy_BE] |
| Backoff.LeadingBusy | loraDir_mac.py:1508-1527 | counts the busy CCA results at the head of the probes: all before it busy, the one at it free |
| Backoff.AlwaysFreeNeverBacksOff | loraDir_mac.py:1508-1532 | a channel found free at every CCA never causes a backoff |
| Backoff.Backoffs | loraDir_mac.py:1532-1541 | k busy results draw exactly k backoffs |
| Backoff.BackoffsInWindow | loraDir_mac.py:1532-1541 | the j-th backoff lies in [Wbusy_min, 2^BE] for the BE reached after j busy results |
| Backoff.CountCcasCounts | loraDir_mac.py:1509-1516 | n CCAs add n to n_cca (carrier sense on) and count each busy probe by the kind on air |
| Backoff.RetryLoopShape | loraDir_mac.py:1508-1541 | for a loop with `left` retries whose first free CCA result follows `lead` busy ones: the backoffs drawn (Busies) are at most `lead`, and at most `left` when retries are counted; the probes read (Iterations) are one more than the backoffs exactly when the loop ends on a free result instead of running out; an unlimited loop backs off exactly `lead` times |
| Backoff.RetriesExhaustedIffAllBusy | loraDir_mac.py:1508-1548 | for that count, the retries left (`left` minus the backoffs) are never negative, and are zero exactly when `left <= lead`, i.e. the first `left` results were all busy |
| Packets.Packet.constructor | loraDir_mac.py:735-881 | a new packet is a DATA packet of plen bytes with its time on air, not collided, processed or lost |
| Packets.Packet.SetPacketType | loraDir_mac.py:883-891 | sets the type, the length (5 for an RTS, data_len for DATA) and the matching time on air; an RTS is never longer on air than its DATA packet |
| Packets.Packet.ClearVerdict | loraDir_mac.py:1275-1277 | the verdict flags are cleared |
| Sim.InitialRtsRetries | loraDir_mac.py:707-711 | n_retry_rts as the node holds it: the bound when positive, else 1 |
| Sim.Node.constructor | loraDir_mac.py:618-722 | every MAC counter and flag of myNode.__init__ at its initial value: state schedule_tx, n_retry and Wbusy_BE from the settings, retry_bin of n_retry zeros, retry_rts_bin of n_retry_rts + 1 zeros, no reception |
| Sim.Network.constructor | loraDir_mac.py:1692-1709 | an empty gateway list, free channel and zero counters |
| Sim.Network.SetBusy | loraDir_mac.py:1252 | sets the channel flag of the packet's kind and leaves the other one |
| Sim.Network.Processing | loraDir_mac.py:370-373 | counts the packets at the gateway being processed |
| Sim.Network.CompareWith | loraDir_mac.py:407-434 | one iteration: the new packet and the other one are marked collided exactly as Capture.Compare decides |
| Sim.Network.MarkCollisions | loraDir_mac.py:404-434 | the result is true exactly when some comparison lost the new packet, and each packet at the gateway is collided exactly when it was or its comparison lost it |
| Sim.Network.Judge | loraDir_mac.py:368-434 | the gateway's verdict (Judged), against the state before: processed exactly when at most maxBSReceives packets are processed; the result is NewLost over the packets there; the new packet is collided when it was or when it loses; every packet there is collided exactly when it was or when it loses to the new one (MarkedBy) |
| Sim.Network.Admission | loraDir_mac.py:369-378 | the capacity test: processed exactly when at most maxBSReceives packets at the gateway are processed, and nothing the collision loop reads changes |
| Sim.Network.Interfere | loraDir_mac.py:403-434 | the collision loop on the signals before it: the result is NewLost, the new packet is collided when it was or when it loses, each packet there per MarkedBy |
| Sim.Network.CancelFrom | loraDir_mac.py:454-461 | drops every reception from the sender of one collided packet |
| Sim.Network.CancelReceptions | loraDir_mac.py:451-461 | a node keeps a reception exactly when its sender has no collided packet at the gateway |
| Sim.Network.MarkReceptions | loraDir_mac.py:472-499 | every other listening node that heard nothing hears the new packet (RTS: its DATA length as NAV; DATA: max_payload_size) |
| Sim.Network.Inform | loraDir_mac.py:451-499 | each node's reception state follows Heard: cancelled for collided senders, and the new packet heard when it was not lost |
| Sim.Network.CheckCollision | loraDir_mac.py:368-501 | checkcollision: processed iff at most maxBSReceives are processed, same-node entries never compared, the result is true iff a comparison lost the new packet, and the listening nodes updated as Inform states |
| Air.Deliver | loraDir_mac.py:1236-1250 | an entry already at the gateway is left alone, and a packet weaker than the sensitivity is lost (exactly then): in both cases nothing else changes (list, flags, the other packets' collided flags, what the nodes heard); a packet not lost has Arrived: judged against the packets there (their collided marks per MarkedBy, every node's reception per Heard) and appended with arrival time now; without CA its collided flag is the verdict alone |
| Air.Admit | loraDir_mac.py:1245-1250 | a packet strong enough is not lost and has Arrived; without CA its collided flag is exactly the verdict |
| Air.Join | loraDir_mac.py:1248-1250 | checkcollision then the append: the packet joins the list with arrival time now, processed per capacity, the result is NewLost, the packets there are marked per MarkedBy and every node's reception follows Heard (Arrived) |
| Air.ArrivalTimeIrrelevant | loraDir_mac.py:560-561 | the verdict depends on the arrival time now, not on the addTime left from a previous transmission |
| Air.Retire | loraDir_mac.py:1256-1277 | the counters of the packet's kind count it, it leaves the list and its flags are cleared |
| Air.Tallied | loraDir_mac.py:1256-1268 | lost, collided, received (neither) and processed are counted per the verdict |
| Air.Leave | loraDir_mac.py:1272-1273 | the node's first entry leaves the list, and the list keeps no other |
| Retry.Cca | loraDir_mac.py:1379-1396 | one CCA: counted in the statistics, busy exactly when carrier sense is on, the channel is busy and CCA notices it |
| Retry.RetryLoop | loraDir_mac.py:1508-1541 | the retry loop makes Busies(..) backoffs, exactly Backoffs(..), the window ends at BEAfter(..), retries drop by the backoffs when limited, and the statistics count the probes read |
| Retry.RtsRetries | loraDir_mac.py:1185-1224 | the RTS loop on the node, as RetryLoop states, decrementing n_retry_rts only when n_retry_rts > 0 |
| Retry.DataRetries | loraDir_mac.py:1508-1541 | the non-CA loop on the node, as RetryLoop states, limited by n_retry |
| Transmit.SynchronisedWake | loraDir_mac.py:973-978 | in experiments 6 and 7 node i wakes 100 i / 500 i ms into its cycle, whenever it went to sleep |
| Transmit.NegativeWaitIffBehind | loraDir_mac.py:973-985 | transmit_wait is negative exactly in experiments 6 and 7 with now past cycle * period plus the node's offset; a drawn wait never is |
| Transmit.Schedule | loraDir_mac.py:972-991 | schedule_tx: cycle + 1, state want_transmit, yields transmit_wait |
| Transmit.Want | loraDir_mac.py:996-1077 | want_transmit: no retry left aborts (n_aborted + 1, budget and window reset, no yield); busy backs off in [Wbusy_min, 2^BE], uses a retry and widens the window at most to Wbusy_maxBE; free draws my_P in [0, 100] and enters start_CA with an RTS |
| Transmit.Rearmed | loraDir_mac.py:1007-1025 | re-entering want_transmit clears cca: after a busy CCA nothing else changes; after a NAV the NAV is cleared and W2 becomes W2afterNAV; for a new packet the latency counts from now; no other field moves |
| Transmit.BusyRoundsAbort | loraDir_mac.py:996-1070 | repeated want_transmit backs off at most n_retry times, each using a retry; with every CCA busy it backs off exactly n_retry times and then aborts with the budget reset |
| Transmit.Abort | loraDir_mac.py:997-1004 | n_aborted + 1, n_retry and Wbusy_BE reset, cca and nav cleared |
| Transmit.Rearm | loraDir_mac.py:1007-1031 | the node clears the busy flag, or the NAV (W2 becomes W2afterNAV), or starts the latency of a new packet |
| Transmit.BackOff | loraDir_mac.py:1059-1070 | a busy CCA: backoff in [Wbusy_min, 2^BE], cca set, window widened, a retry used, yields backoff DIFS |
| Transmit.Proceed | loraDir_mac.py:1071-1077 | a free CCA: my_P drawn, start_CA, the packet becomes an RTS |
| Transmit.Attempt | loraDir_mac.py:996-1077 | want_transmit on the node changes it and yields exactly as Want states |
| Transmit.EnterCa | loraDir_mac.py:1082-1106 | my_P > P: phase 1 listening for WL DIFS + RTS time; otherwise phase 2 backoff of randint(0, W2) DIFS |
| Transmit.ExtraNav | loraDir_mac.py:1123-1126 | the extra NAV DIFS lie in [0, Wnav] |
| Transmit.DataNavWakesAtNavEnd | loraDir_mac.py:1129-1136 | after a DATA header the node wakes exactly at the NAV's end, or goes on at once when it is over |
| Transmit.RtsNavWakesAfterListening | loraDir_mac.py:1156-1167 | the NAV after an RTS heard during the listening period ends after now |
| Transmit.HeardData | loraDir_mac.py:1112-1136 | listening ended with a DATA header heard: listen time and NAV counters updated, start_nav, waits for the rest of the NAV |
| Transmit.HeardNothing | loraDir_mac.py:1137-1144 | listening ended with nothing heard: backoff randint(0, W2) to phase 2 (phase 1) or randint(0, W3) to phase 3 (phase 2) |
| Transmit.EndListenRts | loraDir_mac.py:1151-1167 | an RTS was heard: flag cleared, counters updated, start_nav for the NAV the RTS sets |
| Transmit.PrepareRts | loraDir_mac.py:1172-1183 | start_phase2_rts with a fresh window, fresh RTS budget and cca cleared |
| Transmit.StartRts | loraDir_mac.py:1172-1224 | the RTS retry loop from a fresh budget and window, as RtsRetries states |
| Transmit.Land | loraDir_mac.py:1254-1277 | the channel flag of the packet's kind clears, its counters count it, it leaves the gateway; MAC state untouched |
| Transmit.AfterRts | loraDir_mac.py:1282-1301 | CA1: phase 3 backoff randint(0, W3); otherwise a second listening period |
| Transmit.StartPhase3 | loraDir_mac.py:1367-1371 | start_phase3_transmit with the DATA type and its time on air back |
| Transmit.RetryRecord | loraDir_mac.py:1414-1416 | with a retry left, n_retry - node.n_retry lies in [0, n_retry - 1]: the total grows by it and exactly that retry_bin entry is incremented |
| Transmit.CountData | loraDir_mac.py:1414-1417 | one more DATA sent, retries recorded per RetryRecord, latency added |
| Transmit.SendData | loraDir_mac.py:1412-1436 | the DATA packet is counted, delivered, the DATA flag set, and it yields its time on air |
| Transmit.LosePriority | loraDir_mac.py:1402-1409 | busy before DATA: cca set, a retry used, back to want_transmit |
| Transmit.DataCca | loraDir_mac.py:1376-1409 | phase 3 CCA: busy exactly per ProbeBusy, then a retry used and back to want_transmit; free, stays |
| Transmit.DataPhase | loraDir_mac.py:1376-1436 | phase 3, against the channel flags as they were: a busy CCA (ProbeBusy) goes on without yielding, with cca set, a retry used, back to want_transmit and nothing sent or flagged; a free one sends the DATA packet (n_data_sent + 1, RetryRecord, latency + now - want_transmit_time, DATA flag set) and yields its time on air; the CCA statistics count the probe |
| Transmit.ResetAfterData | loraDir_mac.py:1459-1462 | after DATA: fresh retry budget, cca and nav cleared, schedule_tx |
| Transmit.EndNav | loraDir_mac.py:1467-1473 | start_nav over: want_transmit with DATA, a retry used |
| Transmit.RtsPhase | loraDir_mac.py:1172-1253 | the RTS retry loop over the probes, with n = RtsBusies busy results: Wbusy_BE becomes BEAfter(n), n retries are used when the budget is limited, cca is cleared; with n = 0 the RTS goes out at once (n_rts_sent + 1, RtsRecord, RTS flag set, yields its time on air), otherwise it yields the n backoffs and nothing is sent or flagged; the CCA statistics count the probes read |
| Transmit.PyIndex | loraDir_mac.py:1235 | Python indexing: defined exactly on [-len, len), negative counting from the end |
| Transmit.RtsRecordAsWrittenFails | loraDir_mac.py:1234-1235 | with n_retry_rts < 0 the first RTS raises IndexError; with n_retry_rts = 0 the total drops by one and the only entry (index -1) is bumped |
| Transmit.RtsRecordAsWritten | loraDir_mac.py:1234-1235 | the bookkeeping as written: IndexError exactly when n_retry_rts - node.n_retry_rts is outside Python's index range for retry_rts_bin; otherwise the total grows by it, the histogram keeps its length and a non-negative entry is bumped |
| Transmit.RtsRecord | loraDir_mac.py:1227-1235 | the intended RTS bookkeeping: as written for a limited budget; nothing recorded for an unlimited one |
| Transmit.CountRts | loraDir_mac.py:1233-1235 | one more RTS sent, its retries recorded per RtsRecord |
| Transmit.Broadcast | loraDir_mac.py:1236-1250 | the packet goes to the gateway (Deliver) with the node's MAC fields untouched |
| Transmit.SendRts | loraDir_mac.py:1227-1253 | the RTS is counted, delivered, the RTS flag set, and it yields its time on air |
| Transmit.EndCheck | loraDir_mac.py:1605-1610 | the simulation ends exactly when more than targetSentPacket DATA packets were processed, with endSim = now |
| Process.Step | loraDir_mac.py:967-1473 | the k-th state test: a test not for the node's state does nothing; schedule_tx and start_CA always yield; want_transmit with no retry left aborts and stays |
| Process.EarlyStep | loraDir_mac.py:972-1106 | tests 1-3 keep the node consistent and leave it resumable or past its state |
| Process.OnSchedule | loraDir_mac.py:972-991 | schedule_tx: cycle + 1, on to want_transmit, yields transmit_wait; no other field changes |
| Process.OnWant | loraDir_mac.py:996-1077 | want_transmit moves the node exactly as Want does, with the CCA reading the current channel flags: abort and stay with a fresh budget, a busy backoff that yields, or start_CA; only the fields Attempt writes change |
| Process.OnStartCa | loraDir_mac.py:1082-1106 | start_CA: my_P > P listens for ListenWindow from now (phase 1 listen); otherwise backs off randint(0, W2) DIFS (phase 2 backoff); it always yields; no other field changes |
| Process.ListenStep | loraDir_mac.py:1112-1362 | the four listening tests keep the node consistent |
| Process.OnHeardData | loraDir_mac.py:1112-1136 | a DATA header heard: the listening time is counted up to its reception, the phase's NAV-on-DATA counter + 1, on to start_nav, and it yields the DataNavDelays or goes on when there are none; no other field changes |
| Process.OnHeardNothing | loraDir_mac.py:1137-1144 | nothing heard: backs off randint(0, W2) (phase 1) or randint(0, W3) (phase 2) DIFS and yields it; no other field changes |
| Process.OnListenRts | loraDir_mac.py:1151-1167 | an RTS heard: the listening time is counted up to its reception, the phase's NAV-on-RTS counter + 1, on to start_nav, and it yields the RtsNavDelay; no other field changes |
| Process.LateStep | loraDir_mac.py:1172-1473 | tests 6, 7 and 10-12 keep the node consistent |
| Process.OnRtsBackoff | loraDir_mac.py:1172-1253 | the RTS phase as RtsPhase states it, on the probes drawn: BEAfter, retries used, RTS sent at once or backoffs yielded; outside RtsPhase's fields (the RTS counters, the flags, the gateway list, the receptions) nothing changes, so n_retry and the DATA statistics stay |
| Process.OnRtsSent | loraDir_mac.py:1282-1301 | after the RTS: CA1 backs off randint(0, W3) DIFS (phase 3 backoff); otherwise listens for ListenWindow from now (phase 2 listen); it always yields; no other field changes |
| Process.OnDataBackoff | loraDir_mac.py:1367-1371 | the phase 3 backoff ends: the packet becomes DATA with its time on air, on to start_phase3_transmit, without yielding; no other field changes |
| Process.OnDataTransmit | loraDir_mac.py:1376-1436 | the DATA phase as DataPhase states it, against the flags as they were: busy goes back to want_transmit with a retry used, free sends the DATA packet and yields its time on air; outside DataPhase's fields nothing changes, so Wbusy_BE and the RTS counters stay |
| Process.OnNavEnd | loraDir_mac.py:1467-1473 | the NAV ends: a retry used, the packet DATA again, back to want_transmit, without yielding; no other field changes, so Wbusy_BE stays |
| Process.Sweep | loraDir_mac.py:967-1473 | the state tests from one on, until one yields: a sweep that does not yield leaves the node in schedule_tx or want_transmit, and a full sweep that does not yield is an abort with n_retry = 0 |
| Process.Landed | loraDir_mac.py:1254-1462 | after a packet's time on air: the tally of its kind (RTS or DATA) counts it per its flags (Count), the other tally is unchanged, and the sweep goes on |
| Process.RtsAfterBackoffs | loraDir_mac.py:1227-1253 | after the RTS backoffs the RTS goes out: n_rts_sent + 1, RtsRecord, RTS flag set, and it yields its time on air; cca, Wbusy_BE, n_retry_rts, n_retry and the CCA statistics stay |
| Process.Resumed | loraDir_mac.py:925-1610 | the rest of the loop body, then the end-of-simulation test: Return exactly when processed > targetSentPacket, with endSim = now; Continue only with processed <= targetSentPacket |
| Process.NextSweep | loraDir_mac.py:967-1610 | a whole loop body, then the end-of-simulation test: Return exactly when processed > targetSentPacket, with endSim = now; Continue only after an abort with n_retry = 0 and processed <= targetSentPacket |
| Process.Restart | loraDir_mac.py:925-1610 | further loop bodies until one yields; Spin only with n_retry = 0 at want_transmit and processed <= targetSentPacket; Return only with processed > targetSentPacket |
| Process.Advance | loraDir_mac.py:925-1610 | from where the process was suspended to its next yield, Return (only with processed > targetSentPacket) or Spin (only with n_retry = 0 and processed <= targetSentPacket) |
| Process.Run | loraDir_mac.py:924-1610 | one run of the CA process: it yields and then resumes where it says, or returns exactly when more than targetSentPacket packets were processed (endSim = now), or spins only with n_retry = 0 and processed <= targetSentPacket |
| Aloha.Wait | loraDir_mac.py:1481-1494 | cycle + 1, yields transmit_wait |
| Aloha.BackoffExtra | loraDir_mac.py:1542-1544 | a backoff adds time exactly with Wbusy_add_max_toa, and then the time on air of a max_payload_size packet; never negative |
| Aloha.Retries | loraDir_mac.py:1496-1546 | the retry loop from a full budget: n_retry drops by the backoffs, BE per BEAfter, it yields backoff Tpream (+ max-payload time on air with Wbusy_add_max_toa) per backoff |
| Aloha.Transmission | loraDir_mac.py:1548-1581 | goes on without sending exactly when no retry is left: then aborted with counters reset and nothing sent, recorded or put on air; otherwise DATA sent with its retries recorded, the latency grown by now - want_transmit_time, Wbusy_BE kept and the DATA flag set |
| Aloha.Abandon | loraDir_mac.py:1548-1552 | n_aborted + 1, n_retry and Wbusy_BE reset |
| Aloha.Finish | loraDir_mac.py:1582-1603 | the DATA packet lands: the DATA flag cleared, the RTS flag kept, off the gateway list, its flags cleared, counted in the DATA tally with the RTS tally unchanged, and n_retry and Wbusy_BE are reset |
| Aloha.Body | loraDir_mac.py:1494-1603 | the rest of the loop body, its first CCA reading the channel flags as they are: it ends with the budget and window reset |
| Aloha.AlohaRun | loraDir_mac.py:1479-1610 | one run of the non-CA process, whose first CCA reads the channel flags as they are: yields and resumes where it says, or returns exactly when more than targetSentPacket packets were processed (endSim = now); after a loop body it waits for its next packet only with processed <= targetSentPacket |
| Aloha.AbortIffAllBusy | loraDir_mac.py:1508-1552 | the loop backs off at most n_retry times and aborts exactly when all n_retry CCAs found the channel busy |

## Left out

- The simpy scheduler (`env.process`, `env.run`, the interleaving of nodes):
  each run of a process is modelled from one resumption to its next timeout,
  with `now` as a parameter. The order in which nodes run is left out.
- Random distributions: every draw is an input (seed, real value or probe), not
  a distribution.
- The timeouts inside a retry loop are collapsed into one `Yield` of all its
  backoffs. The channel flags the loop meets at each CCA are inputs (probes)
  rather than the flags of other nodes' runs in between.
- Node placement, path loss and `maxDist` (random values with `log10`), so
  `rssi` is a packet input.
- The experiment 3/5 search over sensitivity tables and the 2.4 GHz variant of
  `airtime` and of the sensitivity table.
- Command-line parsing, printing, graphics, the energy and statistics reports and
  the `expX.dat` output.
- `n_transmit`, the inter-transmit time statistics and `lastDisplayTime`: they
  only feed the reports.
- Floating point: times and RSSI are exact `real`s.
- `node.W2` is stored (W2afterNAV after a NAV) but, as in the code, never read
  by a backoff draw, which uses the global W2.
- Transmit.Broadcast: does not restate the gateway's verdict, which
  Air.Deliver states (lost, the list, every packet's collided flag, what every
  node heard). Its contract keeps that the node's MAC fields are untouched.
- Transmit.SendRts: states the counting and the channel flag, not the verdict,
  for the same reason.
- Transmit.SendData: the same.
- Process.Run: states the consistency of the node, where it resumes and the
  end-of-simulation outcome. It does not restate the state-by-state changes,
  which the Transmit members state.
- Process.Sweep: states where the node is when the sweep does not yield and the
  abort of a full sweep, not the changes of the states it passes through.
- Process.Resumed: states the outcome of the rest of the loop body and the end
  test, not the changes of the states it passes through.
- Process.Advance: states the outcome from where the process was suspended to its
  next yield, Return or Spin, not the changes of the states it passes through.
- Transmit.Schedule: in experiments 6 and 7 it yields transmit_wait even when it
  is negative (the node behind its cycle, as Transmit.NegativeWaitIffBehind
  states), where env.timeout raises ValueError and the run ends; the model has no
  outcome for that crash.
- Process.OnSchedule: the same, through Transmit.Schedule.
- Aloha.Wait: the same for the loop without collision avoidance.
- Transmit.SynchronisedWake: the wake-up time it states lies before now in that
  case.
- Process.Step: states which test handles which state and what every test keeps,
  not the state-by-state changes, which the Process.On* member for each state
  states.
- Process.EarlyStep: the same for tests 1-3; see Process.OnSchedule,
  Process.OnWant and Process.OnStartCa.
- Process.ListenStep: the same for tests 4, 5, 8 and 9; see Process.OnHeardData,
  Process.OnHeardNothing and Process.OnListenRts.
- Process.LateStep: the same for tests 6, 7 and 10-12; see Process.OnRtsBackoff,
  Process.OnRtsSent, Process.OnDataBackoff, Process.OnDataTransmit and
  Process.OnNavEnd.
- Process.Landed: states the counting of the landed packet, not what the rest of
  the sweep then changes (see Process.Sweep).
- Process.NextSweep: states the outcome of a whole loop body and the end test, not
  the changes of the states it passes through.
- Process.Restart: states the outcome of the further loop bodies, not their
  changes, for the same reason.
- Aloha.Body: states the invariant and the reset at the end of the loop body.
  It does not restate the changes, which Aloha.Retries, Aloha.Transmission and
  Aloha.Finish state.
- Aloha.AlohaRun: states the invariant, where the process resumes and the
  end-of-simulation outcome. It does not restate the changes, which Aloha.Wait,
  Aloha.Retries, Aloha.Transmission and Aloha.Finish state.

## Findings

| source | as written | input that shows it | evidently intended | confidence | as-written member | corrected member |
|---|---|---|---|---|---|---|
| loraDir_mac.py:1234-1235 | the first RTS records `n_retry_rts - node.n_retry_rts` in `retry_rts_bin`, which `__init__` builds with `n_retry_rts + 1` entries, while `n_retry_rts <= 0` is documented as unlimited retries (node keeps 1, never decremented) | n_retry_rts = -1: the list is empty and index -2 raises IndexError at the first RTS; n_retry_rts = 0: total_retry_rts drops by one and index -1 bumps the only entry, a retry that never happened | with an unlimited budget no retry count is recorded | not executed | Transmit.RtsRecordAsWrittenFails | Transmit.RtsRecord |
