/** A node's packet going on air and leaving it, as the transmit process does it for
    an RTS and for a DATA packet alike: the arrival at the gateway, with its
    sensitivity test and collision check, and the bookkeeping once the packet has
    been on air for its time on air. */
module Air {
  import opened Params
  import opened Phy
  import opened Capture
  import opened Packets
  import opened Sim

  /** Position of the first entry of n. */
  function IndexOf(s: seq<Node>, n: Node): (i: nat)
    requires n in s
    ensures i < |s| && s[i] == n && n !in s[..i]
  {
    if s[0] == n then 0
    else
      assert n in s[1..];
      var j := IndexOf(s[1..], n);
      assert s[..j + 1] == [s[0]] + s[1..][..j];
      j + 1
  }

  /** list.remove(n) guarded by `n in list`: the list without the first entry of n. */
  function Without(s: seq<Node>, n: Node): (r: seq<Node>)
    ensures multiset(r) == multiset(s) - multiset{n}
  {
    if n !in s then s
    else
      var i := IndexOf(s, n);
      assert s == s[..i] + [n] + s[i + 1..];
      s[..i] + s[i + 1..]
  }

  /** The packet of node arrives at the gateway at time now (the node is on air from
      now on), col being the verdict:
      - an entry of node already at the gateway is left alone: nothing changes,
        not the list, the packet's flags, the other packets' collided flags nor
        what the nodes heard;
      - otherwise the packet is lost exactly when it arrives weaker than the
        receiver sensitivity, and then it changes nothing else either;
      - otherwise it has Arrived: checkcollision judged it against the packets
        there (their collided marks, what every node heard) and it joined the
        list at time now; without collision avoidance (aloha) the verdict
        replaces the collided flag rather than adding to it. */
  method Deliver(net: Network, node: Node, now: real, aloha: bool) returns (col: bool)
    requires net.Valid() && node in net.nodes && node.packet.Valid()
    modifies net`packetsAtBS, node.packet`lost, node.packet`addTime
    modifies node.packet`collided, node.packet`processed, net.NodePackets()`collided
    modifies net.nodes`receiveRts, net.nodes`receiveRtsFrom, net.nodes`receiveRtsTime
    modifies net.nodes`receiveData, net.nodes`receiveDataFrom, net.nodes`receiveDataTime, net.nodes`nav
    ensures net.Valid()
    ensures old(node in net.packetsAtBS) ==> node.packet.lost == old(node.packet.lost)
    ensures old(node !in net.packetsAtBS) ==>
              node.packet.lost == (node.packet.rssi < Sensitivity(node.packet.sf, node.packet.bw))
    ensures old(node in net.packetsAtBS) || node.packet.lost ==>
              && !col && net.packetsAtBS == old(net.packetsAtBS) && node.packet.addTime == old(node.packet.addTime)
              && node.packet.collided == old(node.packet.collided) && node.packet.processed == old(node.packet.processed)
              && unchanged(net.NodePackets()`collided, net.nodes`receiveRts, net.nodes`receiveRtsFrom, net.nodes`receiveRtsTime)
              && unchanged(net.nodes`receiveData, net.nodes`receiveDataFrom, net.nodes`receiveDataTime, net.nodes`nav)
    ensures old(node !in net.packetsAtBS) && !node.packet.lost ==>
              && Arrived(net, node, now, col, old(net.Snapshot(node.packet)), old(RxsOf(net.nodes)), old(net.packetsAtBS))
              && node.packet.collided == (if aloha then col else old(node.packet.collided) || col)
  {
    col := false;
    var p := node.packet;
    if node !in net.packetsAtBS {
      if p.rssi < Sensitivity(p.sf, p.bw) {
        p.lost := true;
      } else {
        col := Admit(net, node, now, aloha);
      }
    }
  }

  /** A packet strong enough for the gateway is not lost: the gateway judges it and
      it joins the list (Join); without collision avoidance its collided flag is then
      the verdict alone. */
  method Admit(net: Network, node: Node, now: real, aloha: bool) returns (col: bool)
    requires net.Valid() && node in net.nodes && node !in net.packetsAtBS && node.packet.bw > 0
    modifies net`packetsAtBS, node.packet`lost, node.packet`addTime
    modifies node.packet`collided, node.packet`processed, net.NodePackets()`collided
    modifies net.nodes`receiveRts, net.nodes`receiveRtsFrom, net.nodes`receiveRtsTime
    modifies net.nodes`receiveData, net.nodes`receiveDataFrom, net.nodes`receiveDataTime, net.nodes`nav
    ensures net.Valid() && !node.packet.lost
    ensures Arrived(net, node, now, col, old(net.Snapshot(node.packet)), old(RxsOf(net.nodes)), old(net.packetsAtBS))
    ensures node.packet.collided == (if aloha then col else old(node.packet.collided) || col)
  {
    NotAtBSAbsent(net, node);
    col := Join(net, node, now);
    Settle(net, node, now, col, aloha, old(net.Snapshot(node.packet)), old(RxsOf(net.nodes)), old(net.packetsAtBS));
  }

  /** The flags of a packet the gateway has judged: it is not lost, and without
      collision avoidance it is collided exactly when the verdict col says so. */
  method Settle(net: Network, node: Node, now: real, col: bool, aloha: bool,
                ghost b: Before, ghost rxs: seq<Reception>, ghost atBS: seq<Node>)
    requires b.arrival.bw != 0 && forall i :: 0 <= i < |atBS| ==> atBS[i].packet != node.packet
    requires Arrived(net, node, now, col, b, rxs, atBS)
    modifies node.packet`lost, node.packet`collided
    ensures !node.packet.lost && node.packet.collided == (if aloha then col else old(node.packet.collided))
    ensures Arrived(net, node, now, col, b, rxs, atBS)
  {
    node.packet.lost := false;
    if aloha {
      node.packet.collided := col;
    }
  }

  /** What the gateway's verdict col on the packet of node, arriving at time now,
      leaves behind, against what checkcollision read before (b, Network.Snapshot),
      the nodes' reception states before (rxs) and the list before (atBS):
      - node has joined the list, with arrival time now;
      - its packet is processed exactly when at most maxBSReceives packets were;
      - col holds exactly when some comparison with a packet at the gateway loses it;
      - each packet that was at the gateway is collided exactly when it was or its
        comparison with the new packet loses it (MarkedBy);
      - every node's reception state follows from its state before (Network.Heard). */
  ghost predicate Arrived(net: Network, node: Node, now: real, col: bool, b: Before, rxs: seq<Reception>, atBS: seq<Node>)
    requires b.arrival.bw != 0
    reads net, node.packet`addTime, node.packet`processed, node.packet`ptype
    reads (set n | n in atBS :: n.packet)`collided, set n | n in net.nodes
  {
    && net.packetsAtBS == atBS + [node]
    && node.packet.addTime == now
    && node.packet.processed == (b.processing <= net.cfg.maxBSReceives)
    && col == NewLost(net.cfg.fullCollision, now, b.arrival, b.signals)
    && MarkedBy(atBS, net.cfg.fullCollision, now, b.arrival, b.flags, b.signals)
    && net.AllHeard(node.packet, now, col, rxs, atBS)
  }

  /** The packet of node, not lost, is judged by the gateway (checkcollision) and
      joins its list, with arrival time now. */
  method Join(net: Network, node: Node, now: real) returns (col: bool)
    requires net.Valid() && node in net.nodes && node !in net.packetsAtBS && node.packet.bw > 0
    modifies net`packetsAtBS, node.packet`addTime
    modifies node.packet`collided, node.packet`processed, net.NodePackets()`collided
    modifies net.nodes`receiveRts, net.nodes`receiveRtsFrom, net.nodes`receiveRtsTime
    modifies net.nodes`receiveData, net.nodes`receiveDataFrom, net.nodes`receiveDataTime, net.nodes`nav
    ensures net.Valid()
    ensures Arrived(net, node, now, col, old(net.Snapshot(node.packet)), old(RxsOf(net.nodes)), old(net.packetsAtBS))
    ensures node.packet.collided == (old(node.packet.collided) || col)
  {
    var p := node.packet;
    ghost var b := net.Snapshot(p);
    NotAtBSAbsent(net, node);
    net.AtBSWithinNodes();
    col := net.CheckCollision(p, now);
    Enlist(net, node, now);
  }

  /** The gateway's list gains node, whose packet arrives at time now. */
  method Enlist(net: Network, node: Node, now: real)
    requires net.Valid() && node in net.nodes && node !in net.packetsAtBS
    modifies net`packetsAtBS, node.packet`addTime
    ensures net.Valid()
    ensures net.packetsAtBS == old(net.packetsAtBS) + [node] && node.packet.addTime == now
  {
    AppendKeepsValid(net, node);
    net.packetsAtBS := net.packetsAtBS + [node];
    node.packet.addTime := now;
  }

  /** The gateway judges a new packet by its arrival time now, not by the arrival
      time left over from its previous transmission. */
  lemma ArrivalTimeIrrelevant(full: bool, now: real, p: Signal, q: Signal, others: seq<Signal>)
    requires p.bw != 0 && p.(addTime := q.addTime) == q
    ensures NewLost(full, now, p, others) == NewLost(full, now, q, others)
  {
    assert forall i :: 0 <= i < |others| ==> Compare(full, now, p, others[i]) == Compare(full, now, q, others[i]);
  }

  /** A node of the network that is not at the gateway has no packet there. */
  lemma NotAtBSAbsent(net: Network, node: Node)
    requires net.Valid() && node in net.nodes && node !in net.packetsAtBS
    ensures net.Absent(node.packet)
  {
  }

  /** Appending a node that is not at the gateway keeps the list well formed. */
  lemma AppendKeepsValid(net: Network, node: Node)
    requires net.Valid() && node in net.nodes && node !in net.packetsAtBS
    ensures var s := net.packetsAtBS + [node];
            && (forall i :: 0 <= i < |s| ==> s[i] in net.nodes && s[i].packet.nodeid == s[i].nodeid)
            && (forall i, j :: 0 <= i < |s| && 0 <= j < |s| && s[i].nodeid == s[j].nodeid ==> i == j)
            && (forall i, j :: 0 <= i < |s| && 0 <= j < |s| && i != j ==> s[i].packet != s[j].packet)
  {
    var s := net.packetsAtBS + [node];
    forall i | 0 <= i < |net.packetsAtBS|
      ensures net.packetsAtBS[i].nodeid != node.nodeid
    {
      var m := net.packetsAtBS[i];
      var a :| 0 <= a < |net.nodes| && net.nodes[a] == m;
      var b :| 0 <= b < |net.nodes| && net.nodes[b] == node;
      assert a != b;
    }
  }

  /** The packet of node has been on air for its time on air: the gateway's counters
      of its kind (RTS or DATA) count it, it leaves the gateway's list and its
      verdict flags are reset. */
  method Retire(net: Network, node: Node, rts: bool)
    requires net.Valid() && node in net.nodes
    modifies net`packetsAtBS, net`tally, net`rtsTally
    modifies node.packet`collided, node.packet`processed, node.packet`lost
    ensures net.Valid()
    ensures net.packetsAtBS == Without(old(net.packetsAtBS), node) && node !in net.packetsAtBS
    ensures var t := (if rts then old(net.rtsTally) else old(net.tally))
                       .Count(old(node.packet.lost), old(node.packet.collided), old(node.packet.processed));
            if rts then net.rtsTally == t && net.tally == old(net.tally)
            else net.tally == t && net.rtsTally == old(net.rtsTally)
    ensures !node.packet.collided && !node.packet.processed && !node.packet.lost
  {
    Tallied(net, node.packet, rts);
    Leave(net, node);
    node.packet.ClearVerdict();
  }

  /** The gateway's counters of the packet's kind count its verdict. */
  method Tallied(net: Network, p: Packet, rts: bool)
    modifies net`tally, net`rtsTally
    ensures var t := (if rts then old(net.rtsTally) else old(net.tally)).Count(p.lost, p.collided, p.processed);
            if rts then net.rtsTally == t && net.tally == old(net.tally)
            else net.tally == t && net.rtsTally == old(net.rtsTally)
  {
    if rts {
      net.rtsTally := net.rtsTally.Count(p.lost, p.collided, p.processed);
    } else {
      net.tally := net.tally.Count(p.lost, p.collided, p.processed);
    }
  }

  /** The node's entry leaves the gateway's list, if it is there. */
  method Leave(net: Network, node: Node)
    requires net.Valid()
    modifies net`packetsAtBS
    ensures net.Valid()
    ensures net.packetsAtBS == Without(old(net.packetsAtBS), node) && node !in net.packetsAtBS
  {
    if node in net.packetsAtBS {
      RemoveKeepsValid(net, node);
      net.packetsAtBS := Without(net.packetsAtBS, node);
    }
  }

  /** Removing a node from the gateway's list keeps the list well formed, and the node
      was there only once. */
  lemma RemoveKeepsValid(net: Network, node: Node)
    requires net.Valid() && node in net.packetsAtBS
    ensures var s := Without(net.packetsAtBS, node);
            && node !in s
            && (forall i :: 0 <= i < |s| ==> s[i] in net.nodes && s[i].packet.nodeid == s[i].nodeid)
            && (forall i, j :: 0 <= i < |s| && 0 <= j < |s| && s[i].nodeid == s[j].nodeid ==> i == j)
            && (forall i, j :: 0 <= i < |s| && 0 <= j < |s| && i != j ==> s[i].packet != s[j].packet)
  {
    var t := net.packetsAtBS;
    var i := IndexOf(t, node);
    var s := Without(t, node);
    WithoutAt(t, node, i);
    forall a | 0 <= a < |s|
      ensures s[a].nodeid != node.nodeid
    {
      assert s[a] == t[Skip(a, i)];
    }
  }

  /** Position in s of entry k of s without its entry i. */
  function Skip(k: nat, i: nat): nat
  {
    if k < i then k else k + 1
  }

  /** Entry k of the list without the first entry of n, at position i, is entry
      Skip(k, i) of the list. */
  lemma WithoutAt(t: seq<Node>, n: Node, i: nat)
    requires n in t && i == IndexOf(t, n)
    ensures |Without(t, n)| == |t| - 1
    ensures forall k :: 0 <= k < |t| - 1 ==> Without(t, n)[k] == t[Skip(k, i)]
  {
  }
}
